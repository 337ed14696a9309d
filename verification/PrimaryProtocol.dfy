// Every interleaving of `workos-primary` creates, replaces, deletes and reconciles on one
// (directory, kind). Each SQL statement and each upstream call is one step.

module PrimaryProtocol {
  import opened Common
  import opened Upstream

  type Token = nat

  /** How one SQL statement ended: whether it took effect, and what the caller saw. A lost
      acknowledgement is an applied statement the caller did not see applied. */
  datatype Reply = Answered | Again | Threw
  datatype Sql = Sql(applied: bool, reply: Reply)

  /** The WorkOS side of one write: PUT, 404, POST, 409, re-PUT, lookup, PUT.
      `adopt` is the native id the dance runs under. */
  datatype Leg =
    | LegPut(adopt: Id, target: Id, strategy: Strategy)
    | LegPost(adopt: Id)
    | LegReput(adopt: Id)
    | LegLookup(adopt: Id)
    | LegSync(adopt: Id, found: Id)
    | LegOk(mapping: Mapping, created: Option<Id>)
    | LegFailed(answer: Answer)

  /** What the native leg of a create established. */
  datatype NativeLeg = NativeLeg(id: Option<Id>, definitive: bool)

  datatype Phase =
    // replace: an update in place, and the recovery that follows a 404
    | ReplaceRead(n: Id)
    | ReplacePut(n: Id, m: Mapping)
    | RecoverClaim(n: Id, m: Mapping)
    | RecoverCheck(n: Id, m: Mapping)
    | Recover(n: Id, m: Mapping, leg: Leg)
    | RecoverRecord(n: Id, m: Mapping, next: Mapping)
    // delete: both legs, then the prune. `spelled`: the forwarded path spells the id byte for byte
    | DeleteClaim(n: Id, spelled: bool)
    | DeleteRead(n: Id, spelled: bool)
    | DeleteLegs(n: Id, m: Mapping, spelled: bool, workos: Option<Answer>, native: Option<Answer>)
    | DeletePrune(n: Id, m: Mapping)
    // create: both legs, then compensation or the mapping
    | CreateClaim(mint: Option<Id>)
    | CreateRead(mint: Option<Id>)
    | CreateLegs(claimed: Option<Id>, nativeLeg: Option<NativeLeg>, mirror: Option<Leg>)
    | CreateUndo(row: Id)
    | CreateRecord(n: Id, next: Mapping)
    | CreateTail
    // reconcile: replays, each of which may end in a mapping
    | ReconcileClaim
    | ReconcileReplay(started: bool, unresolved: bool)
    | ReconcileRecord(n: Id, w: Id, unresolved: bool)
    // shared endings
    | Release
    | Retained
    | Done

  /** An upstream write without a settling answer. Its effect may land at any later step. */
  datatype Late =
    | LateCreate(t: Token, row: Id, native: Option<Id>)
    | LateDelete(t: Token, row: Id)
    | LateUndo(t: Token, row: Id)

  /** Who made a WorkOS row by a recovery POST, and for which native id. */
  datatype Origin = Origin(t: Token, native: Id)

  datatype State = State(
    contract: Contract,
    claim: Option<Token>,
    maps: MappingTable,
    rows: set<Id>,
    requests: map<Token, Phase>,
    late: set<Late>,
    // history: ids ever seen, rows made by recovery, rows a create's rebinding unlinked
    used: set<Id>,
    made: map<Id, Origin>,
    displaced: set<Id>)

  datatype Action =
    | Arrive(t: Token, phase: Phase)
    | Claim(t: Token, sql: Sql)
    | Read(t: Token, ok: bool)
    | Call(t: Token, answer: Answer, id: Option<Id>, echoed: bool)
    | NativeAnswer(t: Token, answer: Answer, leg: NativeLeg)
    | Replay(t: Token, n: Id, w: Id, confirmed: bool, unsure: bool)
    | Decide(t: Token)
    | Write(t: Token, sql: Sql)
    | LetGo(t: Token, sql: Sql)
    | Land(op: Late)
    | Vanish(row: Id)
    | Appear(row: Id)

  /** The phases in which a request relies on its token being the one in the claim table. */
  predicate Holds(p: Phase) {
    match p
    case ReplaceRead(_) => false
    case ReplacePut(_, _) => false
    case RecoverClaim(_, _) => false
    case DeleteClaim(_, _) => false
    case CreateClaim(_) => false
    case ReconcileClaim => false
    case Release => false
    case Done => false
    case _ => true
  }

  predicate Waiting(p: Phase) {
    p.RecoverClaim? || p.DeleteClaim? || p.CreateClaim? || p.ReconcileClaim?
  }

  predicate Arrival(p: Phase) {
    p.ReplaceRead? || p.DeleteClaim? || p.CreateClaim? || p.ReconcileClaim?
  }

  function At(s: State, t: Token): Phase {
    if t in s.requests then s.requests[t] else Done
  }

  function To(s: State, t: Token, p: Phase): State {
    s.(requests := s.requests[t := p])
  }

  // ---------------------------------------------------------------- WorkOS calls

  predicate Calling(leg: Leg) {
    !leg.LegOk? && !leg.LegFailed?
  }

  /** What a faithful WorkOS endpoint may answer to the call this leg has open. For a POST,
      `id` is the row the endpoint makes unless it refuses. */
  predicate Faithful(s: State, leg: Leg, answer: Answer, id: Option<Id>) {
    match leg
    case LegPut(_, target, _) => FaithfulPut(s, target, answer)
    case LegReput(adopt) => FaithfulPut(s, adopt, answer)
    case LegSync(_, found) => FaithfulPut(s, found, answer)
    case LegLookup(_) => id.Some? ==> id.value in s.rows
    case LegPost(adopt) =>
      && (Refused(answer) <==> id.None?)
      && (id.Some? && s.contract.PostCreate? ==> id.value == adopt)
      && (id.Some? && s.contract.Minting? ==> id.value !in s.used)
      && (id.Some? && Success(answer) ==> id.value !in s.rows)
    case LegOk(_, _) => false
    case LegFailed(_) => false
  }

  predicate FaithfulPut(s: State, target: Id, answer: Answer) {
    (Success(answer) ==> target in s.rows) && (NotFound(answer) ==> target !in s.rows)
  }

  /** The leg after one answer. A 2xx POST that echoes no id ends the leg as a failure. */
  function NextLeg(s: State, leg: Leg, answer: Answer, id: Option<Id>, echoed: bool): Leg
    requires Faithful(s, leg, answer, id)
  {
    match leg
    case LegPut(adopt, target, strategy) =>
      if Success(answer) then LegOk(Mapping(target, strategy), None)
      else if NotFound(answer) then LegPost(adopt)
      else LegFailed(answer)
    case LegPost(adopt) =>
      if Success(answer) && echoed then
        LegOk(Mapping(id.value, StrategyOf(adopt, id.value)), if answer == Status(201) then id else None)
      else if answer == Status(409) then LegReput(adopt)
      else LegFailed(answer)
    case LegReput(adopt) =>
      if Success(answer) then LegOk(Mapping(adopt, MigratedId), None)
      else if NotFound(answer) then LegLookup(adopt)
      else LegFailed(answer)
    case LegLookup(adopt) =>
      if answer.NoAnswer? then LegFailed(NoAnswer)
      // a found id with two owners throws, before anything is written and without a status
      else if Success(answer) && id.Some? && Ambiguous(s.maps, id.value) then LegFailed(NoAnswer)
      else if !Success(answer) || id.None? || OwnedByAnother(s.maps, id.value, adopt) then LegFailed(Status(409))
      else LegSync(adopt, id.value)
    case LegSync(adopt, found) =>
      if Success(answer) then LegOk(Mapping(found, FallbackPost), None) else LegFailed(answer)
  }

  /** What the call does on the WorkOS side, as request `t`; `native` is set for a recovery. */
  function Effect(s: State, t: Token, native: Option<Id>, leg: Leg, answer: Answer, id: Option<Id>): State {
    if !leg.LegPost? || id.None? then s
    else if Success(answer) then
      s.(rows := s.rows + {id.value}, used := s.used + {id.value}, made := Made(s, t, native, id.value))
    else
      s.(late := s.late + {LateCreate(t, id.value, native)}, used := s.used + {id.value})
  }

  function Made(s: State, t: Token, native: Option<Id>, row: Id): map<Id, Origin> {
    if native.Some? then s.made[row := Origin(t, native.value)] else s.made - {row}
  }

  /** The endpoint's contract for one DELETE. */
  predicate FaithfulDelete(s: State, row: Id, answer: Answer) {
    NotFound(answer) ==> row !in s.rows
  }

  function AfterDelete(s: State, row: Id, answer: Answer, late: Late): State {
    if ProvesAbsent(answer) then s.(rows := s.rows - {row})
    else if Refused(answer) then s
    else s.(late := s.late + {late})
  }

  // ---------------------------------------------------------------- decisions

  /** Explicit client errors rejected every attempted write; anything less keeps the claim. */
  function RecoveryEnd(n: Id, m: Mapping, leg: Leg): Phase
    requires !Calling(leg)
  {
    match leg
    case LegOk(next, _) => RecoverRecord(n, m, next)
    case LegFailed(answer) => if Refused(answer) then Release else Retained
  }

  predicate DeleteSettled(spelled: bool, workos: Answer, native: Answer) {
    && !IncompleteDelete(workos) && !IncompleteDelete(native)
    && (Success(native) || (NotFound(native) && spelled))
    && (Success(workos) || NotFound(workos))
  }

  function DeleteEnd(n: Id, m: Mapping, spelled: bool, workos: Answer, native: Answer): Phase {
    if DeleteSettled(spelled, workos, native) then DeletePrune(n, m)
    else if CertainDelete(workos) && CertainDelete(native) then Release
    else Retained
  }

  function CreateEnd(s: State, native: NativeLeg, mirror: Option<Leg>): Phase
    requires mirror.Some? ==> !Calling(mirror.value)
  {
    match native.id
    case Some(n) =>
      if mirror.Some? && mirror.value.LegOk? then
        var w := mirror.value.mapping.workosId;
        CreateRecord(n, Mapping(w, StrategyOf(n, w)))
      else Retained
    case None =>
      if !native.definitive then Retained
      else if mirror.None? then Release
      else match mirror.value
        case LegFailed(answer) => if DefinitiveRejection(answer) then Release else Retained
        case LegOk(_, created) =>
          if created.Some? && Owners(s.maps, created.value) == {} then CreateUndo(created.value) else Retained
  }

  /** Where a mirror leg for native id `n` starts: the mapped row, or the row under `n` itself. */
  function StartLeg(maps: MappingTable, n: Id): Leg {
    var target := if n in maps then maps[n].workosId else n;
    if Ambiguous(maps, target) then LegFailed(NoAnswer)
    else if OwnedByAnother(maps, target, n) then LegFailed(Status(409))
    else LegPut(n, target, if n in maps then maps[n].strategy else MigratedId)
  }

  /** The create preflight: a mint that already names a resource serialises on that resource. */
  ghost function CreateStart(maps: MappingTable, mint: Option<Id>): Phase {
    if mint.None? then CreateLegs(None, None, None)
    else if Owners(maps, mint.value) != {} then
      var owner :| owner in Owners(maps, mint.value); CreateLegs(Some(owner), None, None)
    else if mint.value in maps then CreateLegs(mint, None, None)
    else CreateLegs(None, None, Some(StartLeg(maps, mint.value)))
  }

  /** Under its claims, a reconcile found this pair unowned or already its own. */
  predicate ReplayOwns(s: State, n: Id, w: Id) {
    !OwnedByAnother(s.maps, w, n) && (n in s.maps ==> s.maps[n].workosId == w)
  }

  // ---------------------------------------------------------------- the step relation

  predicate Legal(sql: Sql) {
    sql.reply.Answered? ==> sql.applied
  }

  /** Native has named the resource, and the WorkOS leg is still to start. */
  predicate MirrorDue(claimed: Option<Id>, native: Option<NativeLeg>, mirror: Option<Leg>) {
    mirror.None? && native.Some? && native.value.id.Some? && (claimed.None? || claimed == native.value.id)
  }

  /** Native refused what WorkOS has just made: is the new row mapped? */
  predicate OwnerAsked(native: Option<NativeLeg>, mirror: Option<Leg>) {
    && native.Some? && native.value.id.None? && native.value.definitive
    && mirror.Some? && mirror.value.LegOk? && mirror.value.created.Some?
  }

  predicate Enabled(s: State, a: Action) {
    match a
    case Arrive(t, phase) => t !in s.requests && Arrival(phase)
    case Claim(t, sql) =>
      // a competing token changes no row and is answered `false`, which is not an error
      && Waiting(At(s, t))
      && (sql.applied ==> s.claim.None? || s.claim == Some(t))
      && (sql.reply.Answered? && !sql.applied ==> s.claim.Some? && s.claim != Some(t))
    case Read(t, ok) =>
      (match At(s, t)
       case ReplaceRead(_) => true
       case RecoverCheck(_, _) => true
       case DeleteRead(_, _) => true
       case DeleteLegs(_, _, _, _, _) => !ok
       case CreateRead(_) => true
       case CreateLegs(claimed, native, mirror) =>
         || MirrorDue(claimed, native, mirror)
         || (!ok && OwnerAsked(native, mirror))  // the lookup before the compensation throws
       case CreateTail => true
       case ReconcileReplay(_, _) => !ok
       case _ => false)
    case Call(t, answer, id, _) =>
      (match At(s, t)
       case ReplacePut(n, m) => FaithfulPut(s, m.workosId, answer)
       case Recover(_, _, leg) => Faithful(s, leg, answer, id)
       case DeleteLegs(n, m, _, workos, _) => workos.None? && FaithfulDelete(s, m.workosId, answer)
       case CreateLegs(_, _, mirror) => mirror.Some? && Faithful(s, mirror.value, answer, id)
       case CreateUndo(row) => FaithfulDelete(s, row, answer)
       case _ => false)
    case NativeAnswer(t, answer, leg) =>
      (match At(s, t)
       case DeleteLegs(_, _, _, _, native) => native.None?
       case CreateLegs(_, native, _) => native.None? && (leg.definitive ==> leg.id.None?)
       case _ => false)
    case Replay(t, n, w, confirmed, _) =>
      At(s, t).ReconcileReplay? && (confirmed ==> ReplayOwns(s, n, w) && w in s.used)
    case Decide(t) =>
      (match At(s, t)
       case Recover(_, _, leg) => !Calling(leg)
       case DeleteLegs(_, _, _, workos, native) => workos.Some? && native.Some?
       case CreateLegs(claimed, native, mirror) =>
         && native.Some?
         && (mirror.Some? ==> !Calling(mirror.value))
         && (mirror.None? ==> native.value.id.None? || (claimed.Some? && claimed != native.value.id))
       case ReconcileReplay(_, _) => true
       case _ => false)
    case Write(t, sql) =>
      var p := At(s, t);
      Legal(sql) && (p.RecoverRecord? || p.DeletePrune? || p.CreateRecord? || p.ReconcileRecord?)
    case LetGo(t, sql) => Legal(sql) && At(s, t).Release?
    case Land(op) => op in s.late
    case Vanish(_) => true
    case Appear(row) => row !in s.used
  }

  ghost function Step(s: State, a: Action): State
    requires Enabled(s, a)
  {
    match a
    case Arrive(t, phase) => To(s, t, phase)
    case Claim(t, sql) => StepClaim(s, t, sql)
    case Read(t, ok) => To(s, t, AfterRead(s, t, ok))
    case Call(t, answer, id, echoed) => StepCall(s, t, answer, id, echoed)
    case NativeAnswer(t, answer, leg) =>
      (match At(s, t)
       case DeleteLegs(n, m, spelled, workos, _) => To(s, t, DeleteLegs(n, m, spelled, workos, Some(answer)))
       case CreateLegs(claimed, _, mirror) => To(s, t, CreateLegs(claimed, Some(leg), mirror)))
    case Replay(t, n, w, confirmed, unsure) =>
      var unresolved := At(s, t).unresolved || unsure;
      To(s, t, if confirmed && n !in s.maps then ReconcileRecord(n, w, unresolved)
        else ReconcileReplay(true, unresolved))
    case Decide(t) =>
      (match At(s, t)
       case Recover(n, m, leg) => To(s, t, RecoveryEnd(n, m, leg))
       case DeleteLegs(n, m, spelled, workos, native) => To(s, t, DeleteEnd(n, m, spelled, workos.value, native.value))
       case CreateLegs(_, native, mirror) => To(s, t, CreateEnd(s, native.value, mirror))
       case ReconcileReplay(_, unresolved) => To(s, t, if unresolved then Retained else Release))
    case Write(t, sql) => StepWrite(s, t, sql)
    case LetGo(t, sql) =>
      var s' := To(s, t, if sql.reply.Again? then Release else Done);
      if sql.applied && s.claim == Some(t) then s'.(claim := None) else s'
    case Land(op) => StepLand(s, op)
    case Vanish(row) => s.(rows := s.rows - {row})
    case Appear(row) => s.(rows := s.rows + {row}, used := s.used + {row})
  }

  ghost function StepClaim(s: State, t: Token, sql: Sql): State
    requires Enabled(s, Claim(t, sql))
  {
    var p := At(s, t);
    var s' := if sql.applied then s.(claim := Some(t)) else s;
    match sql.reply
    case Answered => To(s', t, if sql.applied then AfterClaim(p) else Done)
    case Again => s'
    // an acquisition error releases by owner: the acknowledgement may be all that was lost
    case Threw => To(s', t, Release)
  }

  function AfterClaim(p: Phase): Phase
    requires Waiting(p)
  {
    match p
    case RecoverClaim(n, m) => RecoverCheck(n, m)
    case DeleteClaim(n, spelled) => DeleteRead(n, spelled)
    case CreateClaim(mint) => CreateRead(mint)
    case ReconcileClaim => ReconcileReplay(false, false)
  }

  ghost function AfterRead(s: State, t: Token, ok: bool): Phase
    requires Enabled(s, Read(t, ok))
  {
    match At(s, t)
    case ReplaceRead(n) =>
      if ok && n in s.maps && !OwnedByAnother(s.maps, s.maps[n].workosId, n) then ReplacePut(n, s.maps[n]) else Done
    case RecoverCheck(n, m) =>
      if ok && n in s.maps && s.maps[n] == m then Recover(n, m, LegPost(n)) else Release
    case DeleteRead(n, spelled) => if ok && n in s.maps then DeleteLegs(n, s.maps[n], spelled, None, None) else Release
    case DeleteLegs(_, _, _, _, _) => Retained
    case CreateRead(mint) => if ok then CreateStart(s.maps, mint) else Release
    case CreateLegs(claimed, native, mirror) =>
      if mirror.Some? then Retained
      else CreateLegs(claimed, native,
        Some(if ok then StartLeg(s.maps, native.value.id.value) else LegFailed(NoAnswer)))
    case CreateTail => if ok then Release else Retained
    case ReconcileReplay(started, _) => if started then Retained else Release
  }

  ghost function StepCall(s: State, t: Token, answer: Answer, id: Option<Id>, echoed: bool): State
    requires Enabled(s, Call(t, answer, id, echoed))
  {
    match At(s, t)
    case ReplacePut(n, m) => To(s, t, if NotFound(answer) then RecoverClaim(n, m) else Done)
    case Recover(n, m, leg) =>
      To(Effect(s, t, Some(n), leg, answer, id), t, Recover(n, m, NextLeg(s, leg, answer, id, echoed)))
    case DeleteLegs(n, m, spelled, _, native) =>
      To(AfterDelete(s, m.workosId, answer, LateDelete(t, m.workosId)), t,
        DeleteLegs(n, m, spelled, Some(answer), native))
    case CreateLegs(claimed, native, mirror) =>
      To(Effect(s, t, None, mirror.value, answer, id), t,
         CreateLegs(claimed, native, Some(NextLeg(s, mirror.value, answer, id, echoed))))
    case CreateUndo(row) =>
      // any 2xx counts as removed here, a 202 included; `echoed`: the ledger row was cleared after it
      To(AfterDelete(s, row, answer, LateUndo(t, row)), t,
         if (Success(answer) || NotFound(answer)) && echoed then Release else Retained)
  }

  ghost function StepWrite(s: State, t: Token, sql: Sql): State
    requires Enabled(s, Write(t, sql))
  {
    var p := At(s, t);
    var s' := if sql.applied then Applied(s, p) else s;
    match sql.reply
    case Answered =>
      To(s', t, match p
                case CreateRecord(_, _) => CreateTail
                case ReconcileRecord(_, _, unresolved) => ReconcileReplay(true, unresolved)
                case _ => Release)
    case Again => s'
    case Threw => To(s', t, Retained)
  }

  ghost function Applied(s: State, p: Phase): State {
    match p
    case RecoverRecord(n, _, next) => s.(maps := s.maps[n := next])
    case DeletePrune(n, _) => s.(maps := s.maps - {n})
    case CreateRecord(n, next) =>
      var lost := if n in s.maps && s.maps[n].workosId != next.workosId then {s.maps[n].workosId} else {};
      s.(maps := s.maps[n := next], displaced := s.displaced + lost)
    case ReconcileRecord(n, w, _) =>
      s.(maps := s.maps[n := Mapping(w, StrategyOf(n, w))])
    case _ => s
  }

  ghost function StepLand(s: State, op: Late): State {
    var s' := s.(late := s.late - {op});
    match op
    case LateCreate(t, row, native) => s'.(rows := s.rows + {row}, made := Made(s, t, native, row))
    case LateDelete(_, row) => s'.(rows := s.rows - {row})
    case LateUndo(_, row) => s'.(rows := s.rows - {row})
  }
}
