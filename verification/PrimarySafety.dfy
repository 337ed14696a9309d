// What every run of PrimaryProtocol keeps: mutual exclusion on the claim, mappings that change
// only under it, recoveries that act on a current mapping, and no orphan WorkOS replacement.

module PrimarySafety {
  import opened Common
  import opened Upstream
  import opened PrimaryProtocol

  // ---------------------------------------------------------------- the invariant

  /** A write of this request may still take effect, so the request never releases. */
  predicate Unsettled(p: Phase) {
    || p.Retained?
    || (p.Recover? && p.leg.LegFailed? && !Refused(p.leg.answer))
    || (p.CreateLegs? && p.mirror.Some? && p.mirror.value.LegFailed? && !Refused(p.mirror.value.answer))
  }

  /** `w` holds a row some recovery made for `n`. */
  predicate Made(s: State, n: Id, w: Id) {
    w in s.rows && w in s.made && s.made[w].native == n
  }

  /** The PUT to `w` answered 404: a recovered row can only be back there under `n` itself. */
  predicate Gone(s: State, n: Id, w: Id) {
    Made(s, n, w) ==> s.contract.PostCreate? && w == n
  }

  /** Linking `n` to `next` instead of `m` leaves no recovered row of `n` behind. */
  predicate Supersedes(s: State, n: Id, m: Mapping, next: Mapping) {
    Made(s, n, m.workosId) ==> next.workosId == m.workosId
  }

  predicate LegOkay(s: State, leg: Leg) {
    leg.LegOk? ==> leg.mapping.workosId in s.used
  }

  predicate RecoverOkay(s: State, n: Id, m: Mapping, leg: Leg) {
    && n in s.maps && s.maps[n] == m
    && LegOkay(s, leg)
    && match leg
       case LegPut(_, _, _) => false
       case LegPost(adopt) => adopt == n && Gone(s, n, m.workosId)
       case LegReput(adopt) => adopt == n && Gone(s, n, m.workosId)
       case LegLookup(adopt) => adopt == n && !Made(s, n, m.workosId)
       case LegSync(adopt, _) => adopt == n && !Made(s, n, m.workosId)
       case LegOk(next, _) => Supersedes(s, n, m, next)
       case LegFailed(_) => true
  }

  predicate PhaseOkay(s: State, t: Token, p: Phase) {
    && (Holds(p) ==> s.claim == Some(t))
    && match p
       case ReplacePut(n, m) => m.workosId in s.used
       case RecoverClaim(n, m) => m.workosId in s.used && Gone(s, n, m.workosId)
       case RecoverCheck(n, m) => m.workosId in s.used && Gone(s, n, m.workosId)
       case Recover(n, m, leg) => RecoverOkay(s, n, m, leg)
       case RecoverRecord(n, m, next) =>
         && n in s.maps && (s.maps[n] == m || s.maps[n] == next)
         && next.workosId in s.used && m.workosId in s.used && Supersedes(s, n, m, next)
       case DeleteLegs(n, m, _, workos, _) =>
         && n in s.maps && s.maps[n] == m
         && (workos.Some? && ProvesAbsent(workos.value) ==> m.workosId !in s.rows)
       case DeletePrune(n, m) =>
         && (n in s.maps ==> s.maps[n] == m)
         && m.workosId in s.used && m.workosId !in s.rows
       case CreateLegs(_, _, mirror) => mirror.Some? ==> LegOkay(s, mirror.value)
       case CreateRecord(_, next) => next.workosId in s.used
       case ReconcileRecord(n, w, _) => ReplayOwns(s, n, w) && w in s.used
       case _ => true
  }

  /** A request that has read a mapping but does not hold the claim yet. */
  predicate Remembers(p: Phase, w: Id) {
    (p.ReplacePut? || p.RecoverClaim?) && p.m.workosId == w
  }

  predicate LateOkay(s: State, op: Late) {
    match op
    case LateCreate(t, row, native) =>
      && s.claim == Some(t) && t in s.requests && Unsettled(s.requests[t]) && row in s.used
      && (native.Some? && s.contract.PostCreate? ==> row == native.value)
      && (native.Some? && s.requests[t].Recover? ==> s.requests[t].n == native.value)
      && (s.requests[t].CreateLegs? ==> native.None?)
      && (s.contract.Minting? ==> Unseen(s, row))
    case LateDelete(t, row) =>
      && s.claim == Some(t) && t in s.requests
      && (s.requests[t].Retained? ||
        (s.requests[t].DeleteLegs? && s.requests[t].workos.Some? && !CertainDelete(s.requests[t].workos.value)))
    case LateUndo(_, _) => true
  }

  /** No mapping and no reader of a mapping knows this WorkOS id. */
  predicate Unseen(s: State, row: Id) {
    && (forall n :: n in s.maps ==> s.maps[n].workosId != row)
    && (forall t :: t in s.requests ==> !Remembers(s.requests[t], row))
  }

  /** The request that made a recovered row has yet to link it, and still owns the claim. */
  predicate Pending(p: Phase, n: Id, row: Id) {
    || (p.Recover? && p.n == n && (Unsettled(p) || (p.leg.LegOk? && p.leg.mapping.workosId == row)))
    || (p.RecoverRecord? && p.n == n && p.next.workosId == row)
    || p.Retained?
  }

  predicate Linked(s: State, n: Id, row: Id) {
    n in s.maps && s.maps[n].workosId == row
  }

  /** Every WorkOS row a recovery made is linked to its native id, or absent, or its maker still
      owns the claim, or a create rebound the native id. */
  predicate RowOkay(s: State, row: Id) {
    row in s.made && row in s.rows ==>
      var o := s.made[row];
      || Linked(s, o.native, row)
      || row in s.displaced
      || (s.claim == Some(o.t) && o.t in s.requests && Pending(s.requests[o.t], o.native, row))
  }

  ghost predicate IdsOkay(s: State) {
    s.rows <= s.used && forall n :: n in s.maps ==> s.maps[n].workosId in s.used
  }

  ghost predicate PhasesOkay(s: State) {
    forall t :: t in s.requests ==> PhaseOkay(s, t, s.requests[t])
  }

  ghost predicate LatesOkay(s: State) {
    forall op :: op in s.late ==> LateOkay(s, op)
  }

  ghost predicate RowsOkay(s: State) {
    forall row :: row in s.made ==> row in s.used && RowOkay(s, row)
  }

  ghost predicate Inv(s: State) {
    IdsOkay(s) && PhasesOkay(s) && LatesOkay(s) && RowsOkay(s)
  }

  // ---------------------------------------------------------------- moves every action is made of

  /** Nothing the request leaves behind in phase `old` is forgotten in phase `p`. */
  predicate Continues(s: State, before: Phase, p: Phase) {
    && !before.Retained? && !before.RecoverRecord?
    && (Unsettled(before) ==> p.Retained? || (before.CreateLegs? && p.CreateLegs? && p.mirror == before.mirror))
    && (before.DeleteLegs? && before.workos.Some? && !CertainDelete(before.workos.value) ==>
          p.Retained? || (p.DeleteLegs? && p.workos == before.workos))
    && (before.Recover? && before.leg.LegOk? ==> p == RecoverRecord(before.n, before.m, before.leg.mapping))
    && (p.ReplacePut? || p.RecoverClaim? ==>
          (p.n in s.maps && s.maps[p.n] == p.m) || (before.ReplacePut? && before.m == p.m))
  }

  lemma MoveKeepsLates(s: State, t: Token, p: Phase)
    requires Inv(s) && PhaseOkay(s, t, p) && Continues(s, At(s, t), p)
    ensures LatesOkay(To(s, t, p))
  {
    var s' := To(s, t, p);
    forall op | op in s'.late
      ensures LateOkay(s', op)
    {
      assert LateOkay(s, op);
    }
  }

  lemma MoveKeepsRows(s: State, t: Token, p: Phase)
    requires Inv(s) && Continues(s, At(s, t), p)
    ensures RowsOkay(To(s, t, p))
  {
    var s' := To(s, t, p);
    forall row | row in s'.made
      ensures row in s'.used && RowOkay(s', row)
    {
      assert RowOkay(s, row);
    }
  }

  lemma MoveKeeps(s: State, t: Token, p: Phase)
    requires Inv(s) && PhaseOkay(s, t, p) && Continues(s, At(s, t), p)
    ensures Inv(To(s, t, p))
  {
    MoveKeepsLates(s, t, p);
    MoveKeepsRows(s, t, p);
  }

  lemma TakeKeeps(s: State, t: Token)
    requires Inv(s) && (s.claim.None? || s.claim == Some(t))
    ensures Inv(s.(claim := Some(t)))
  {
    var s' := s.(claim := Some(t));
    forall u | u in s'.requests ensures PhaseOkay(s', u, s'.requests[u]) {
      assert PhaseOkay(s, u, s.requests[u]);
    }
    forall op | op in s'.late ensures LateOkay(s', op) {
      assert LateOkay(s, op);
    }
    forall row | row in s'.made ensures row in s'.used && RowOkay(s', row) {
      assert RowOkay(s, row);
    }
  }

  lemma FreeKeeps(s: State, t: Token)
    requires Inv(s) && s.claim == Some(t) && !Holds(At(s, t))
    ensures Inv(s.(claim := None))
  {
    var s' := s.(claim := None);
    forall u | u in s'.requests ensures PhaseOkay(s', u, s'.requests[u]) {
      assert PhaseOkay(s, u, s.requests[u]);
    }
    forall op | op in s'.late ensures LateOkay(s', op) {
      assert LateOkay(s, op);
    }
    forall row | row in s'.made ensures row in s'.used && RowOkay(s', row) {
      assert RowOkay(s, row);
    }
  }

  lemma ShrinkKeeps(s: State, row: Id)
    requires Inv(s)
    ensures Inv(s.(rows := s.rows - {row}))
  {
    var s' := s.(rows := s.rows - {row});
    forall u | u in s'.requests ensures PhaseOkay(s', u, s'.requests[u]) {
      assert PhaseOkay(s, u, s.requests[u]);
    }
    forall op | op in s'.late ensures LateOkay(s', op) {
      assert LateOkay(s, op);
    }
    forall r | r in s'.made ensures r in s'.used && RowOkay(s', r) {
      assert RowOkay(s, r);
    }
  }

  // ---------------------------------------------------------------- each action keeps it

  lemma ArriveKeeps(s: State, t: Token, phase: Phase)
    requires Inv(s) && Enabled(s, Arrive(t, phase))
    ensures Inv(Step(s, Arrive(t, phase)))
  {
    MoveKeeps(s, t, phase);
  }

  lemma ClaimKeeps(s: State, t: Token, sql: Sql)
    requires Inv(s) && Enabled(s, Claim(t, sql))
    ensures Inv(StepClaim(s, t, sql))
  {
    var p := At(s, t);
    assert PhaseOkay(s, t, p);
    if sql.applied {
      TakeKeeps(s, t);
      var s1 := s.(claim := Some(t));
      match sql.reply
      case Answered => MoveKeeps(s1, t, AfterClaim(p));
      case Again =>
      case Threw => MoveKeeps(s1, t, Release);
    } else {
      match sql.reply
      case Answered => MoveKeeps(s, t, Done);
      case Again =>
      case Threw => MoveKeeps(s, t, Release);
    }
  }

  lemma ReadKeeps(s: State, t: Token, ok: bool)
    requires Inv(s) && Enabled(s, Read(t, ok))
    ensures Inv(To(s, t, AfterRead(s, t, ok)))
  {
    assert PhaseOkay(s, t, At(s, t));
    MoveKeeps(s, t, AfterRead(s, t, ok));
  }

  lemma PutKeeps(s: State, t: Token, answer: Answer, id: Option<Id>, echoed: bool)
    requires Inv(s) && Enabled(s, Call(t, answer, id, echoed)) && At(s, t).ReplacePut?
    ensures Inv(StepCall(s, t, answer, id, echoed))
  {
    var p := At(s, t);
    assert PhaseOkay(s, t, p);
    MoveKeeps(s, t, if NotFound(answer) then RecoverClaim(p.n, p.m) else Done);
  }

  lemma RecoverCallKeepsPhases(s: State, t: Token, answer: Answer, id: Option<Id>, echoed: bool)
    requires Inv(s) && Enabled(s, Call(t, answer, id, echoed)) && At(s, t).Recover?
    ensures PhasesOkay(StepCall(s, t, answer, id, echoed))
  {
    var s' := StepCall(s, t, answer, id, echoed);
    forall u | u in s'.requests
      ensures PhaseOkay(s', u, s'.requests[u])
    {
      assert PhaseOkay(s, u, s.requests[u]);
    }
  }

  lemma RecoverCallKeepsLates(s: State, t: Token, answer: Answer, id: Option<Id>, echoed: bool)
    requires Inv(s) && Enabled(s, Call(t, answer, id, echoed)) && At(s, t).Recover?
    ensures LatesOkay(StepCall(s, t, answer, id, echoed))
  {
    var s' := StepCall(s, t, answer, id, echoed);
    assert PhaseOkay(s, t, At(s, t));
    forall op | op in s'.late
      ensures LateOkay(s', op)
    {
      assert op in s.late ==> LateOkay(s, op);
    }
  }

  lemma RecoverCallKeepsRows(s: State, t: Token, answer: Answer, id: Option<Id>, echoed: bool)
    requires Inv(s) && Enabled(s, Call(t, answer, id, echoed)) && At(s, t).Recover?
    ensures RowsOkay(StepCall(s, t, answer, id, echoed))
  {
    var s' := StepCall(s, t, answer, id, echoed);
    assert PhaseOkay(s, t, At(s, t));
    forall row | row in s'.made
      ensures row in s'.used && RowOkay(s', row)
    {
      assert row in s.made ==> RowOkay(s, row);
    }
  }

  lemma RecoverCallKeeps(s: State, t: Token, answer: Answer, id: Option<Id>, echoed: bool)
    requires Inv(s) && Enabled(s, Call(t, answer, id, echoed)) && At(s, t).Recover?
    ensures Inv(StepCall(s, t, answer, id, echoed))
  {
    RecoverCallKeepsPhases(s, t, answer, id, echoed);
    RecoverCallKeepsLates(s, t, answer, id, echoed);
    RecoverCallKeepsRows(s, t, answer, id, echoed);
  }

  lemma CreateCallKeepsPhases(s: State, t: Token, answer: Answer, id: Option<Id>, echoed: bool)
    requires Inv(s) && Enabled(s, Call(t, answer, id, echoed)) && At(s, t).CreateLegs?
    ensures PhasesOkay(StepCall(s, t, answer, id, echoed))
  {
    var s' := StepCall(s, t, answer, id, echoed);
    forall u | u in s'.requests
      ensures PhaseOkay(s', u, s'.requests[u])
    {
      assert PhaseOkay(s, u, s.requests[u]);
    }
  }

  lemma CreateCallKeepsLates(s: State, t: Token, answer: Answer, id: Option<Id>, echoed: bool)
    requires Inv(s) && Enabled(s, Call(t, answer, id, echoed)) && At(s, t).CreateLegs?
    ensures LatesOkay(StepCall(s, t, answer, id, echoed))
  {
    var s' := StepCall(s, t, answer, id, echoed);
    assert PhaseOkay(s, t, At(s, t));
    forall op | op in s'.late
      ensures LateOkay(s', op)
    {
      assert op in s.late ==> LateOkay(s, op);
    }
  }

  lemma CreateCallKeepsRows(s: State, t: Token, answer: Answer, id: Option<Id>, echoed: bool)
    requires Inv(s) && Enabled(s, Call(t, answer, id, echoed)) && At(s, t).CreateLegs?
    ensures RowsOkay(StepCall(s, t, answer, id, echoed))
  {
    var s' := StepCall(s, t, answer, id, echoed);
    assert PhaseOkay(s, t, At(s, t));
    forall row | row in s'.made
      ensures row in s'.used && RowOkay(s', row)
    {
      assert row in s.made ==> RowOkay(s, row);
    }
  }

  lemma CreateCallKeeps(s: State, t: Token, answer: Answer, id: Option<Id>, echoed: bool)
    requires Inv(s) && Enabled(s, Call(t, answer, id, echoed)) && At(s, t).CreateLegs?
    ensures Inv(StepCall(s, t, answer, id, echoed))
  {
    CreateCallKeepsPhases(s, t, answer, id, echoed);
    CreateCallKeepsLates(s, t, answer, id, echoed);
    CreateCallKeepsRows(s, t, answer, id, echoed);
  }

  lemma DeleteCallKeeps(s: State, t: Token, answer: Answer, id: Option<Id>, echoed: bool)
    requires Inv(s) && Enabled(s, Call(t, answer, id, echoed)) && At(s, t).DeleteLegs?
    ensures Inv(StepCall(s, t, answer, id, echoed))
  {
    var p := At(s, t);
    var q := DeleteLegs(p.n, p.m, p.spelled, Some(answer), p.native);
    assert PhaseOkay(s, t, p);
    if ProvesAbsent(answer) {
      ShrinkKeeps(s, p.m.workosId);
      MoveKeeps(s.(rows := s.rows - {p.m.workosId}), t, q);
    } else if Refused(answer) {
      MoveKeeps(s, t, q);
    } else {
      MoveKeeps(s, t, q);
      LateKeeps(To(s, t, q), LateDelete(t, p.m.workosId));
    }
  }

  lemma LateKeeps(s: State, op: Late)
    requires Inv(s) && LateOkay(s, op)
    ensures Inv(s.(late := s.late + {op}))
  {
    var s' := s.(late := s.late + {op});
    forall o | o in s'.late ensures LateOkay(s', o) {
      assert LateOkay(s, o);
    }
    forall row | row in s'.made ensures row in s'.used && RowOkay(s', row) {
      assert RowOkay(s, row);
    }
  }

  lemma UndoCallKeeps(s: State, t: Token, answer: Answer, id: Option<Id>, echoed: bool)
    requires Inv(s) && Enabled(s, Call(t, answer, id, echoed)) && At(s, t).CreateUndo?
    ensures Inv(StepCall(s, t, answer, id, echoed))
  {
    var row := At(s, t).row;
    var q := if (Success(answer) || NotFound(answer)) && echoed then Release else Retained;
    assert PhaseOkay(s, t, At(s, t));
    if ProvesAbsent(answer) {
      ShrinkKeeps(s, row);
      MoveKeeps(s.(rows := s.rows - {row}), t, q);
    } else if Refused(answer) {
      MoveKeeps(s, t, q);
    } else {
      LateKeeps(s, LateUndo(t, row));
      MoveKeeps(s.(late := s.late + {LateUndo(t, row)}), t, q);
    }
  }

  lemma CallKeeps(s: State, t: Token, answer: Answer, id: Option<Id>, echoed: bool)
    requires Inv(s) && Enabled(s, Call(t, answer, id, echoed))
    ensures Inv(StepCall(s, t, answer, id, echoed))
  {
    match At(s, t)
    case ReplacePut(_, _) => PutKeeps(s, t, answer, id, echoed);
    case Recover(_, _, _) => RecoverCallKeeps(s, t, answer, id, echoed);
    case CreateLegs(_, _, _) => CreateCallKeeps(s, t, answer, id, echoed);
    case DeleteLegs(_, _, _, _, _) => DeleteCallKeeps(s, t, answer, id, echoed);
    case CreateUndo(_) => UndoCallKeeps(s, t, answer, id, echoed);
  }

  lemma NativeAnswerKeeps(s: State, t: Token, answer: Answer, leg: NativeLeg)
    requires Inv(s) && Enabled(s, NativeAnswer(t, answer, leg))
    ensures Inv(Step(s, NativeAnswer(t, answer, leg)))
  {
    assert PhaseOkay(s, t, At(s, t));
    match At(s, t)
    case DeleteLegs(n, m, spelled, workos, _) => MoveKeeps(s, t, DeleteLegs(n, m, spelled, workos, Some(answer)));
    case CreateLegs(claimed, _, mirror) => MoveKeeps(s, t, CreateLegs(claimed, Some(leg), mirror));
  }

  lemma ReplayKeeps(s: State, t: Token, n: Id, w: Id, confirmed: bool, unsure: bool)
    requires Inv(s) && Enabled(s, Replay(t, n, w, confirmed, unsure))
    ensures Inv(Step(s, Replay(t, n, w, confirmed, unsure)))
  {
    assert PhaseOkay(s, t, At(s, t));
    var unresolved := At(s, t).unresolved || unsure;
    MoveKeeps(s, t, if confirmed && n !in s.maps then ReconcileRecord(n, w, unresolved)
      else ReconcileReplay(true, unresolved));
  }

  lemma DecideKeeps(s: State, t: Token)
    requires Inv(s) && Enabled(s, Decide(t))
    ensures Inv(Step(s, Decide(t)))
  {
    assert PhaseOkay(s, t, At(s, t));
    match At(s, t)
    case Recover(n, m, leg) => MoveKeeps(s, t, RecoveryEnd(n, m, leg));
    case DeleteLegs(n, m, spelled, workos, native) =>
      MoveKeeps(s, t, DeleteEnd(n, m, spelled, workos.value, native.value));
    case CreateLegs(_, native, mirror) => MoveKeeps(s, t, CreateEnd(s, native.value, mirror));
    case ReconcileReplay(_, unresolved) => MoveKeeps(s, t, if unresolved then Retained else Release);
  }

  /** The request writing a mapping is the only one past the claim, and nothing it sent is unsettled. */
  lemma WriterIsAlone(s: State, t: Token)
    requires Inv(s) && t in s.requests && Holds(s.requests[t]) && !Unsettled(s.requests[t]) &&
      !s.requests[t].DeleteLegs?
    ensures s.claim == Some(t)
    ensures forall u :: u in s.requests && u != t ==> !Holds(s.requests[u])
    ensures forall op :: op in s.late ==> op.LateUndo?
  {
    assert PhaseOkay(s, t, s.requests[t]);
    forall u | u in s.requests && u != t ensures !Holds(s.requests[u]) {
      assert PhaseOkay(s, u, s.requests[u]);
    }
    forall op | op in s.late ensures op.LateUndo? {
      assert LateOkay(s, op);
    }
  }

  lemma WriteRecoverKeeps(s: State, t: Token, sql: Sql)
    requires Inv(s) && Enabled(s, Write(t, sql)) && At(s, t).RecoverRecord?
    ensures Inv(StepWrite(s, t, sql))
  {
    WriterIsAlone(s, t);
  }

  lemma WriteDeleteKeeps(s: State, t: Token, sql: Sql)
    requires Inv(s) && Enabled(s, Write(t, sql)) && At(s, t).DeletePrune?
    ensures Inv(StepWrite(s, t, sql))
  {
    WriterIsAlone(s, t);
  }

  lemma WriteCreateKeeps(s: State, t: Token, sql: Sql)
    requires Inv(s) && Enabled(s, Write(t, sql)) && At(s, t).CreateRecord?
    ensures Inv(StepWrite(s, t, sql))
  {
    WriterIsAlone(s, t);
  }

  lemma WriteReconcileKeepsPhases(s: State, t: Token, sql: Sql)
    requires Inv(s) && Enabled(s, Write(t, sql)) && At(s, t).ReconcileRecord?
    ensures PhasesOkay(StepWrite(s, t, sql))
  {
    var s' := StepWrite(s, t, sql);
    WriterIsAlone(s, t);
    forall u | u in s'.requests
      ensures PhaseOkay(s', u, s'.requests[u])
    {
      assert PhaseOkay(s, u, s.requests[u]);
    }
  }

  lemma WriteReconcileKeeps(s: State, t: Token, sql: Sql)
    requires Inv(s) && Enabled(s, Write(t, sql)) && At(s, t).ReconcileRecord?
    ensures Inv(StepWrite(s, t, sql))
  {
    var s' := StepWrite(s, t, sql);
    WriteReconcileKeepsPhases(s, t, sql);
    WriterIsAlone(s, t);
    forall row | row in s'.made
      ensures row in s'.used && RowOkay(s', row)
    {
      assert RowOkay(s, row) && PhaseOkay(s, t, s.requests[t]);
    }
  }

  lemma WriteKeeps(s: State, t: Token, sql: Sql)
    requires Inv(s) && Enabled(s, Write(t, sql))
    ensures Inv(StepWrite(s, t, sql))
  {
    match At(s, t)
    case RecoverRecord(_, _, _) => WriteRecoverKeeps(s, t, sql);
    case DeletePrune(_, _) => WriteDeleteKeeps(s, t, sql);
    case CreateRecord(_, _) => WriteCreateKeeps(s, t, sql);
    case ReconcileRecord(_, _, _) => WriteReconcileKeeps(s, t, sql);
  }

  lemma LetGoKeeps(s: State, t: Token, sql: Sql)
    requires Inv(s) && Enabled(s, LetGo(t, sql))
    ensures Inv(Step(s, LetGo(t, sql)))
  {
    var p := if sql.reply.Again? then Release else Done;
    MoveKeeps(s, t, p);
    if s.claim == Some(t) {
      FreeKeeps(To(s, t, p), t);
    }
  }

  lemma LandKeepsPhases(s: State, op: Late)
    requires Inv(s) && Enabled(s, Land(op))
    ensures PhasesOkay(StepLand(s, op))
  {
    var s' := StepLand(s, op);
    assert LateOkay(s, op);
    forall u | u in s'.requests
      ensures PhaseOkay(s', u, s'.requests[u])
    {
      assert PhaseOkay(s, u, s.requests[u]);
    }
  }

  lemma LandKeepsRows(s: State, op: Late)
    requires Inv(s) && Enabled(s, Land(op))
    ensures RowsOkay(StepLand(s, op))
  {
    var s' := StepLand(s, op);
    assert LateOkay(s, op);
    forall row | row in s'.made
      ensures row in s'.used && RowOkay(s', row)
    {
      assert row in s.made ==> RowOkay(s, row);
    }
  }

  lemma LandKeeps(s: State, op: Late)
    requires Inv(s) && Enabled(s, Land(op))
    ensures Inv(StepLand(s, op))
  {
    var s' := StepLand(s, op);
    LandKeepsPhases(s, op);
    LandKeepsRows(s, op);
    assert LateOkay(s, op);
    forall o | o in s'.late
      ensures LateOkay(s', o)
    {
      assert LateOkay(s, o);
    }
  }

  lemma AppearKeeps(s: State, row: Id)
    requires Inv(s) && row !in s.used
    ensures Inv(Step(s, Appear(row)))
  {
    var s' := Step(s, Appear(row));
    forall r | r in s'.made ensures r in s'.used && RowOkay(s', r) {
      assert RowOkay(s, r);
    }
  }

  lemma StepKeeps(s: State, a: Action)
    requires Inv(s) && Enabled(s, a)
    ensures Inv(Step(s, a))
  {
    match a
    case Arrive(t, phase) => ArriveKeeps(s, t, phase);
    case Claim(t, sql) => ClaimKeeps(s, t, sql);
    case Read(t, ok) => ReadKeeps(s, t, ok);
    case Call(t, answer, id, echoed) => CallKeeps(s, t, answer, id, echoed);
    case NativeAnswer(t, answer, leg) => NativeAnswerKeeps(s, t, answer, leg);
    case Replay(t, n, w, confirmed, unsure) => ReplayKeeps(s, t, n, w, confirmed, unsure);
    case Decide(t) => DecideKeeps(s, t);
    case Write(t, sql) => WriteKeeps(s, t, sql);
    case LetGo(t, sql) => LetGoKeeps(s, t, sql);
    case Land(op) => LandKeeps(s, op);
    case Vanish(row) => ShrinkKeeps(s, row);
    case Appear(row) => AppearKeeps(s, row);
  }

  // ---------------------------------------------------------------- runs

  ghost predicate Initial(s: State) {
    && s.claim.None? && s.requests == map[] && s.late == {} && s.made == map[] && s.displaced == {}
    && s.rows <= s.used
    && (forall n :: n in s.maps ==> s.maps[n].workosId in s.used)
  }

  ghost predicate Feasible(s: State, acts: seq<Action>)
    decreases |acts|
  {
    acts == [] || (Enabled(s, acts[0]) && Feasible(Step(s, acts[0]), acts[1..]))
  }

  ghost function Exec(s: State, acts: seq<Action>): State
    requires Feasible(s, acts)
    decreases |acts|
  {
    if acts == [] then s else Exec(Step(s, acts[0]), acts[1..])
  }

  ghost predicate Reachable(s0: State, acts: seq<Action>, s: State) {
    Initial(s0) && Feasible(s0, acts) && Exec(s0, acts) == s
  }

  lemma {:induction false} RunKeeps(s: State, acts: seq<Action>)
    requires Inv(s) && Feasible(s, acts)
    ensures Inv(Exec(s, acts))
    decreases |acts|
  {
    if acts != [] {
      StepKeeps(s, acts[0]);
      RunKeeps(Step(s, acts[0]), acts[1..]);
    }
  }

  // ---------------------------------------------------------------- main results

  /** At most one request is past the claim, however many acknowledgements were lost. */
  lemma ClaimExcludes(s0: State, acts: seq<Action>, s: State, t: Token, u: Token)
    requires Reachable(s0, acts, s)
    requires t in s.requests && Holds(s.requests[t]) && u in s.requests && Holds(s.requests[u])
    ensures t == u && s.claim == Some(t)
  {
    RunKeeps(s0, acts);
    assert PhaseOkay(s, t, s.requests[t]) && PhaseOkay(s, u, s.requests[u]);
  }

  lemma WriterOwnsTheClaim(s: State, t: Token, sql: Sql)
    requires Inv(s) && Enabled(s, Write(t, sql))
    ensures s.claim == Some(t)
  {
    assert PhaseOkay(s, t, s.requests[t]);
  }

  /** `id_mappings` changes only in a statement of the request named in the claim table. */
  lemma MappingsChangeUnderTheClaim(s0: State, acts: seq<Action>, s: State, a: Action)
    requires Reachable(s0, acts, s) && Enabled(s, a) && Step(s, a).maps != s.maps
    ensures a.Write? && s.claim == Some(a.t)
  {
    RunKeeps(s0, acts);
    if a.Write? {
      WriterOwnsTheClaim(s, a.t, a.sql);
    } else {
      OnlyWritesChangeMaps(s, a);
    }
  }

  /** A recovery POST runs under the claim, with its native id still mapped to the row whose
      PUT answered 404; a completed delete of that resource would have removed the mapping. */
  lemma RecoveryPostsOnACurrentMapping(s0: State, acts: seq<Action>, s: State, t: Token)
    requires Reachable(s0, acts, s) && At(s, t).Recover? && At(s, t).leg.LegPost?
    ensures s.claim == Some(t)
    ensures var p := At(s, t); p.n in s.maps && s.maps[p.n] == p.m && p.leg.adopt == p.n
    ensures exists i :: 0 <= i < |acts| && PutMissed(s0, acts, i, t, At(s, t).n, At(s, t).m)
  {
    RunKeeps(s0, acts);
    assert PhaseOkay(s, t, s.requests[t]);
    RecoveryFollowsA404(s0, acts, t);
  }

  /** Step `i` of the run is the 404 answering this request's PUT through mapping `m`. */
  ghost predicate PutMissed(s0: State, acts: seq<Action>, i: nat, t: Token, n: Id, m: Mapping)
    requires i < |acts|
  {
    && acts[i].Call? && acts[i].t == t && NotFound(acts[i].answer)
    && Feasible(s0, acts[..i]) && At(Exec(s0, acts[..i]), t) == ReplacePut(n, m)
  }

  predicate InRecovery(p: Phase) {
    p.RecoverClaim? || p.RecoverCheck? || p.Recover? || p.RecoverRecord?
  }

  lemma {:induction false} SplitRun(s: State, before: seq<Action>, a: Action)
    requires Feasible(s, before + [a])
    ensures Feasible(s, before) && Enabled(Exec(s, before), a)
    ensures Exec(s, before + [a]) == Step(Exec(s, before), a)
    decreases |before|
  {
    if before != [] {
      assert (before + [a])[1..] == before[1..] + [a];
      SplitRun(Step(s, before[0]), before[1..], a);
    } else {
      assert (before + [a])[1..] == [];
    }
  }

  /** Request `t` was in this recovery before, or the answer it gets is the 404 on its own PUT. */
  ghost predicate EntersBy404(before: Phase, after: Phase, missed: bool) {
    InRecovery(after) ==>
      || (InRecovery(before) && before.n == after.n && before.m == after.m)
      || (before == ReplacePut(after.n, after.m) && missed)
  }

  lemma CallEntry(s: State, u: Token, answer: Answer, id: Option<Id>, echoed: bool, t: Token)
    requires Enabled(s, Call(u, answer, id, echoed))
    ensures EntersBy404(At(s, t), At(StepCall(s, u, answer, id, echoed), t), u == t && NotFound(answer))
  {
    if u == t {
      OwnCallEntry(s, t, answer, id, echoed);
    } else {
      assert At(StepCall(s, u, answer, id, echoed), t) == At(s, t);
    }
  }

  lemma OwnCallEntry(s: State, t: Token, answer: Answer, id: Option<Id>, echoed: bool)
    requires Enabled(s, Call(t, answer, id, echoed))
    ensures EntersBy404(At(s, t), At(StepCall(s, t, answer, id, echoed), t), NotFound(answer))
  {
    match At(s, t)
    case ReplacePut(_, _) =>
    case Recover(_, _, _) =>
    case CreateLegs(_, _, _) =>
    case DeleteLegs(_, _, _, _, _) =>
    case CreateUndo(_) =>
  }

  lemma ClaimEntry(s: State, u: Token, sql: Sql, t: Token)
    requires Enabled(s, Claim(u, sql))
    ensures EntersBy404(At(s, t), At(StepClaim(s, u, sql), t), false)
  {
  }

  lemma WriteEntry(s: State, u: Token, sql: Sql, t: Token)
    requires Enabled(s, Write(u, sql))
    ensures EntersBy404(At(s, t), At(StepWrite(s, u, sql), t), false)
  {
  }

  lemma OtherEntry(s: State, a: Action, t: Token)
    requires Enabled(s, a) && !a.Call? && !a.Claim? && !a.Write?
    ensures EntersBy404(At(s, t), At(Step(s, a), t), false)
  {
  }

  /** A request enters recovery only by the 404 on its own PUT. */
  lemma RecoveryEntry(s: State, a: Action, t: Token)
    requires Enabled(s, a)
    ensures EntersBy404(At(s, t), At(Step(s, a), t), a.Call? && a.t == t && NotFound(a.answer))
  {
    match a
    case Call(u, answer, id, echoed) => CallEntry(s, u, answer, id, echoed, t);
    case Claim(u, sql) => ClaimEntry(s, u, sql, t);
    case Write(u, sql) => WriteEntry(s, u, sql, t);
    case _ => OtherEntry(s, a, t);
  }

  lemma {:induction false} RecoveryFollowsA404(s0: State, acts: seq<Action>, t: Token)
    requires Initial(s0) && Feasible(s0, acts) && InRecovery(At(Exec(s0, acts), t))
    ensures exists i :: 0 <= i < |acts| && PutMissed(s0, acts, i, t, At(Exec(s0, acts), t).n, At(Exec(s0, acts), t).m)
    decreases |acts|
  {
    if acts != [] {
      var k := |acts| - 1;
      var before, a := acts[..k], acts[k];
      assert acts == before + [a];
      SplitRun(s0, before, a);
      var s, p := Exec(s0, before), At(Exec(s0, acts), t);
      RecoveryEntry(s, a, t);
      if InRecovery(At(s, t)) {
        RecoveryFollowsA404(s0, before, t);
        var i :| 0 <= i < k && PutMissed(s0, before, i, t, p.n, p.m);
        assert before[..i] == acts[..i];
        assert PutMissed(s0, acts, i, t, p.n, p.m);
      } else {
        assert PutMissed(s0, acts, k, t, p.n, p.m);
      }
    }
  }

  /** No orphan replacement: a WorkOS row made by a recovery is the row its native id is mapped
      to, unless its maker still owns the claim or a create rebound that native id. */
  lemma NoOrphanReplacement(s0: State, acts: seq<Action>, s: State, row: Id)
    requires Reachable(s0, acts, s) && row in s.made && row in s.rows
    ensures var o := s.made[row];
      Linked(s, o.native, row) || s.claim == Some(o.t) || row in s.displaced
  {
    RunKeeps(s0, acts);
    assert RowOkay(s, row);
  }

  /** Once a delete has pruned `n` and the claim is free, no recovered row of `n` remains, but for
      the rows a create's rebinding unlinked. */
  lemma DeleteLeavesNoReplacement(s0: State, acts: seq<Action>, s: State, n: Id)
    requires Reachable(s0, acts, s) && n !in s.maps && s.claim.None?
    ensures forall row :: row in s.made && s.made[row].native == n && row !in s.displaced ==> row !in s.rows
  {
    forall row | row in s.made && s.made[row].native == n && row !in s.displaced
      ensures row !in s.rows
    {
      if row in s.rows {
        NoOrphanReplacement(s0, acts, s, row);
      }
    }
  }

  /** A DELETE that may still land keeps its claim, so no other request can have made, or be
      making, a row it could remove. */
  lemma LateDeleteKeepsItsClaim(s0: State, acts: seq<Action>, s: State, t: Token, row: Id)
    requires Reachable(s0, acts, s) && LateDelete(t, row) in s.late
    ensures s.claim == Some(t)
    ensures forall u :: u in s.requests && u != t ==> !Holds(s.requests[u])
  {
    RunKeeps(s0, acts);
    assert LateOkay(s, LateDelete(t, row));
    forall u | u in s.requests && u != t ensures !Holds(s.requests[u]) {
      assert PhaseOkay(s, u, s.requests[u]);
    }
  }

  /** A request gives up its claim only with no create or delete of its own still able to land;
      the one exception is the compensation of a refused create. */
  lemma ReleaseIsSettled(s0: State, acts: seq<Action>, s: State, t: Token, op: Late)
    requires Reachable(s0, acts, s) && At(s, t).Release? && op in s.late && op.t == t
    ensures op.LateUndo?
  {
    RunKeeps(s0, acts);
    assert LateOkay(s, op);
  }

  lemma RetainedStays(s: State, a: Action, t: Token)
    requires Inv(s) && Enabled(s, a) && At(s, t).Retained?
    ensures At(Step(s, a), t).Retained? && Step(s, a).maps == s.maps
  {
    assert PhaseOkay(s, t, s.requests[t]);
    if a.Write? {
      WriterOwnsTheClaim(s, a.t, a.sql);
    }
  }

  /** An unresolved write freezes the table: a retained claim is never lost or taken over, and
      no mapping of the kind changes until an operator recovers it. */
  lemma {:induction false} RetainedClaimFreezesMappings(s: State, acts: seq<Action>, t: Token)
    requires Inv(s) && Feasible(s, acts) && t in s.requests && s.requests[t].Retained?
    ensures var s' := Exec(s, acts); s'.claim == Some(t) && s'.maps == s.maps
    decreases |acts|
  {
    assert PhaseOkay(s, t, s.requests[t]);
    if acts != [] {
      StepKeeps(s, acts[0]);
      RetainedStays(s, acts[0], t);
      RetainedClaimFreezesMappings(Step(s, acts[0]), acts[1..], t);
    }
  }

  // ---------------------------------------------------------------- the exception is real

  lemma OnlyWritesChangeMaps(s: State, a: Action)
    requires Enabled(s, a) && !a.Write?
    ensures Step(s, a).maps == s.maps
  {
  }

  lemma WriteUnlinks(s: State, t: Token, sql: Sql, row: Id)
    requires Inv(s) && Enabled(s, Write(t, sql))
    requires row in s.made && row in s.rows && Linked(s, s.made[row].native, row)
    ensures var n := s.made[row].native;
      !Linked(StepWrite(s, t, sql), n, row) <==>
        sql.applied && At(s, t).CreateRecord? && At(s, t).n == n && At(s, t).next.workosId != row
  {
    assert PhaseOkay(s, t, s.requests[t]);
  }

  /** A recovered row that is still in WorkOS loses its link exactly when a create writes another
      WorkOS id over its native id. */
  lemma OnlyRebindingUnlinks(s0: State, acts: seq<Action>, s: State, a: Action, row: Id)
    requires Reachable(s0, acts, s) && Enabled(s, a)
    requires row in s.made && row in s.rows && Linked(s, s.made[row].native, row)
    ensures var n := s.made[row].native;
      !Linked(Step(s, a), n, row) <==>
        a.Write? && a.sql.applied && At(s, a.t).CreateRecord? && At(s, a.t).n == n && At(s, a.t).next.workosId != row
  {
    RunKeeps(s0, acts);
    if a.Write? {
      WriteUnlinks(s, a.t, a.sql, row);
    } else {
      OnlyWritesChangeMaps(s, a);
    }
  }

  const DONE := Sql(true, Answered)

  /** `n` is mapped to a row that is gone. A PUT to it is answered 404, and the recovery makes row `n`. */
  function Recovering(n: Id): seq<Action> {
    [Arrive(1, ReplaceRead(n)), Read(1, true), Call(1, Status(404), None, false), Claim(1, DONE), Read(1, true),
     Call(1, Status(201), Some(n), true), Decide(1), Write(1, DONE), LetGo(1, DONE)]
  }

  /** The state after `k` of its steps. */
  function RecoveringState(n: Id, x: Id, k: nat): State {
    var m := Mapping(x, FallbackPost);
    var s0 := State(PostCreate, None, map[n := m], {}, map[], {}, {x}, map[], {});
    var held := s0.(claim := Some(1));
    var posted := held.(rows := {n}, used := {x, n}, made := map[n := Origin(1, n)]);
    var linked := posted.(maps := map[n := Mapping(n, MigratedId)]);
    if k == 0 then s0
    else if k == 1 then To(s0, 1, ReplaceRead(n))
    else if k == 2 then To(s0, 1, ReplacePut(n, m))
    else if k == 3 then To(s0, 1, RecoverClaim(n, m))
    else if k == 4 then To(held, 1, RecoverCheck(n, m))
    else if k == 5 then To(held, 1, Recover(n, m, LegPost(n)))
    else if k == 6 then To(posted, 1, Recover(n, m, LegOk(Mapping(n, MigratedId), Some(n))))
    else if k == 7 then To(posted, 1, RecoverRecord(n, m, Mapping(n, MigratedId)))
    else if k == 8 then To(linked, 1, Release)
    else To(linked.(claim := None), 1, Done)
  }

  /** Then a create under externalId `e`. Native answers 409 and the row it resolves is `n`; WorkOS,
      where the resource has been renamed, makes row `e`. */
  function Rebinding(n: Id, e: Id): seq<Action> {
    [Arrive(2, CreateClaim(Some(e))), Claim(2, DONE), Read(2, true),
     NativeAnswer(2, Status(409), NativeLeg(Some(n), false)), Call(2, Status(404), None, false),
     Call(2, Status(201), Some(e), true), Decide(2), Write(2, DONE), Read(2, true), LetGo(2, DONE)]
  }

  function RebindingState(n: Id, x: Id, e: Id, k: nat): State {
    var s0 := RecoveringState(n, x, 9);
    var native := Some(NativeLeg(Some(n), false));
    var put := Some(LegPut(e, e, MigratedId));
    var held := s0.(claim := Some(2));
    var posted := held.(rows := {n, e}, used := {x, n, e});
    var bound := posted.(maps := map[n := Mapping(e, FallbackPost)], displaced := {n});
    if k == 0 then s0
    else if k == 1 then To(s0, 2, CreateClaim(Some(e)))
    else if k == 2 then To(held, 2, CreateRead(Some(e)))
    else if k == 3 then To(held, 2, CreateLegs(None, None, put))
    else if k == 4 then To(held, 2, CreateLegs(None, native, put))
    else if k == 5 then To(held, 2, CreateLegs(None, native, Some(LegPost(e))))
    else if k == 6 then To(posted, 2, CreateLegs(None, native, Some(LegOk(Mapping(e, MigratedId), Some(e)))))
    else if k == 7 then To(posted, 2, CreateRecord(n, Mapping(e, FallbackPost)))
    else if k == 8 then To(bound, 2, CreateTail)
    else if k == 9 then To(bound, 2, Release)
    else To(bound.(claim := None), 2, Done)
  }

  ghost predicate Goes(s: State, a: Action, s': State) {
    Enabled(s, a) && Step(s, a) == s'
  }

  /** One more step of a run that reached `at`. */
  lemma RunsOn(s: State, run: seq<Action>, k: nat, at: State, next: State)
    requires k < |run| && Feasible(s, run[..k]) && Exec(s, run[..k]) == at && Goes(at, run[k], next)
    ensures Feasible(s, run[..k + 1]) && Exec(s, run[..k + 1]) == next
  {
    Extend(s, run[..k], run[k]);
    assert run[..k] + [run[k]] == run[..k + 1];
  }

  lemma {:induction false} Extend(s: State, acts: seq<Action>, a: Action)
    requires Feasible(s, acts) && Enabled(Exec(s, acts), a)
    ensures Feasible(s, acts + [a]) && Exec(s, acts + [a]) == Step(Exec(s, acts), a)
    decreases |acts|
  {
    if acts == [] {
      assert (acts + [a])[1..] == [];
    } else {
      assert (acts + [a])[1..] == acts[1..] + [a];
      Extend(Step(s, acts[0]), acts[1..], a);
    }
  }

  lemma RecoveringStarts(n: Id, x: Id, k: nat)
    requires n != x && 0 <= k < 3
    ensures Goes(RecoveringState(n, x, k), Recovering(n)[k], RecoveringState(n, x, k + 1))
  {
  }

  lemma RecoveringClaims(n: Id, x: Id, k: nat)
    requires n != x && 3 <= k < 5
    ensures Goes(RecoveringState(n, x, k), Recovering(n)[k], RecoveringState(n, x, k + 1))
  {
  }

  lemma RecoveringPosts(n: Id, x: Id, k: nat)
    requires n != x && 5 <= k < 7
    ensures Goes(RecoveringState(n, x, k), Recovering(n)[k], RecoveringState(n, x, k + 1))
  {
  }

  lemma RecoveringEnds(n: Id, x: Id, k: nat)
    requires n != x && 7 <= k < 9
    ensures Goes(RecoveringState(n, x, k), Recovering(n)[k], RecoveringState(n, x, k + 1))
  {
  }

  lemma RecoveringGoes(n: Id, x: Id, k: nat)
    requires n != x && k < 9
    ensures Goes(RecoveringState(n, x, k), Recovering(n)[k], RecoveringState(n, x, k + 1))
  {
    if k < 3 {
      RecoveringStarts(n, x, k);
    } else if k < 5 {
      RecoveringClaims(n, x, k);
    } else if k < 7 {
      RecoveringPosts(n, x, k);
    } else {
      RecoveringEnds(n, x, k);
    }
  }

  lemma {:induction false} RecoveringRuns(n: Id, x: Id, k: nat)
    requires n != x && k <= 9
    ensures Feasible(RecoveringState(n, x, 0), Recovering(n)[..k]) &&
      Exec(RecoveringState(n, x, 0), Recovering(n)[..k]) == RecoveringState(n, x, k)
  {
    if k > 0 {
      RecoveringRuns(n, x, k - 1);
      RecoveringGoes(n, x, k - 1);
      RunsOn(RecoveringState(n, x, 0), Recovering(n), k - 1, RecoveringState(n, x, k - 1), RecoveringState(n, x, k));
    }
  }

  lemma RebindingStarts(n: Id, x: Id, e: Id, k: nat)
    requires n != x && x != e && e != n && 0 <= k < 3
    ensures Goes(RebindingState(n, x, e, k), Rebinding(n, e)[k], RebindingState(n, x, e, k + 1))
  {
  }

  lemma RebindingLegs(n: Id, x: Id, e: Id, k: nat)
    requires n != x && x != e && e != n && 3 <= k < 5
    ensures Goes(RebindingState(n, x, e, k), Rebinding(n, e)[k], RebindingState(n, x, e, k + 1))
  {
  }

  lemma RebindingPosts(n: Id, x: Id, e: Id, k: nat)
    requires n != x && x != e && e != n && 5 <= k < 6
    ensures Goes(RebindingState(n, x, e, k), Rebinding(n, e)[k], RebindingState(n, x, e, k + 1))
  {
  }

  lemma RebindingDecides(n: Id, x: Id, e: Id, k: nat)
    requires n != x && x != e && e != n && 6 <= k < 7
    ensures Goes(RebindingState(n, x, e, k), Rebinding(n, e)[k], RebindingState(n, x, e, k + 1))
  {
  }

  lemma RebindingWrites(n: Id, x: Id, e: Id, k: nat)
    requires n != x && x != e && e != n && 7 <= k < 8
    ensures Goes(RebindingState(n, x, e, k), Rebinding(n, e)[k], RebindingState(n, x, e, k + 1))
  {
  }

  lemma RebindingEnds(n: Id, x: Id, e: Id, k: nat)
    requires n != x && x != e && e != n && 8 <= k < 10
    ensures Goes(RebindingState(n, x, e, k), Rebinding(n, e)[k], RebindingState(n, x, e, k + 1))
  {
  }

  lemma RebindingGoes(n: Id, x: Id, e: Id, k: nat)
    requires n != x && x != e && e != n && k < 10
    ensures Goes(RebindingState(n, x, e, k), Rebinding(n, e)[k], RebindingState(n, x, e, k + 1))
  {
    if k < 3 {
      RebindingStarts(n, x, e, k);
    } else if k < 5 {
      RebindingLegs(n, x, e, k);
    } else if k < 6 {
      RebindingPosts(n, x, e, k);
    } else if k < 7 {
      RebindingDecides(n, x, e, k);
    } else if k < 8 {
      RebindingWrites(n, x, e, k);
    } else {
      RebindingEnds(n, x, e, k);
    }
  }

  lemma {:induction false} RebindingRuns(n: Id, x: Id, e: Id, k: nat)
    requires n != x && x != e && e != n && k <= 10
    ensures Feasible(RebindingState(n, x, e, 0), Rebinding(n, e)[..k]) &&
      Exec(RebindingState(n, x, e, 0), Rebinding(n, e)[..k]) == RebindingState(n, x, e, k)
  {
    if k > 0 {
      RebindingRuns(n, x, e, k - 1);
      RebindingGoes(n, x, e, k - 1);
      RunsOn(RebindingState(n, x, e, 0), Rebinding(n, e), k - 1, RebindingState(n, x, e, k - 1),
        RebindingState(n, x, e, k));
    }
  }

  lemma {:induction false} RunsJoin(s: State, before: seq<Action>, after: seq<Action>)
    requires Feasible(s, before) && Feasible(Exec(s, before), after)
    ensures Feasible(s, before + after) && Exec(s, before + after) == Exec(Exec(s, before), after)
    decreases |before|
  {
    if before == [] {
      assert before + after == after;
    } else {
      assert (before + after)[1..] == before[1..] + after;
      RunsJoin(Step(s, before[0]), before[1..], after);
    }
  }

  /** A recovered row left in WorkOS, with no mapping and no claim. */
  ghost predicate Orphaned(s: State, row: Id) {
    s.claim.None? && row in s.made && row in s.displaced && row in s.rows && Owners(s.maps, row) == {}
  }

  lemma EndsOrphaned(n: Id, x: Id, e: Id)
    requires n != x && x != e && e != n
    ensures Orphaned(RebindingState(n, x, e, 10), n)
  {
  }

  /** A create that native resolves to an already mapped id rebinds it. Here a recovery made row `n`
      and linked it; the create orphans that row. */
  lemma CreateRebindingOrphans(n: Id, x: Id, e: Id)
    requires n != x && x != e && e != n
    ensures exists s0, acts, s :: Reachable(s0, acts, s) && Orphaned(s, n)
  {
    RebindingJoins(n, x, e);
    EndsOrphaned(n, x, e);
    assert Reachable(RecoveringState(n, x, 0), Recovering(n) + Rebinding(n, e), RebindingState(n, x, e, 10));
  }

  lemma RebindingJoins(n: Id, x: Id, e: Id)
    requires n != x && x != e && e != n
    ensures Reachable(RecoveringState(n, x, 0), Recovering(n) + Rebinding(n, e), RebindingState(n, x, e, 10))
  {
    var first, next := Recovering(n), Rebinding(n, e);
    RecoveringRuns(n, x, 9);
    RebindingRuns(n, x, e, 10);
    assert first[..9] == first && next[..10] == next;
    RunsJoin(RecoveringState(n, x, 0), first, next);
  }
}
