// Addressed `workos-primary` writes that overlap. Only a DELETE takes the claim, so the legs and
// the ledger statements of different requests interleave. What the ledger then says about a key.

module PrimaryLedger {
  import opened Common
  import opened Upstream
  import opened PrimaryWrite
  import PP = PrimaryProtocol

  /** One step of a request, which goes by its place in the list of requests. */
  datatype Step =
    | Start(i: nat)                                // preflight; both legs go out
    | WorkosTakes(i: nat) | NativeTakes(i: nat)    // from here on that side is as the request wants it
    | WorkosAnswers(i: nat) | NativeAnswers(i: nat)
    | Statement(i: nat)                            // the INSERT or the DELETE on the ledger
    | Prune(i: nat)
    | Close(i: nat)

  /** `Legs`: which answers are in. `Gone`: refused before its legs, or thrown out of them. */
  datatype Phase = Legs(workosIn: bool, nativeIn: bool) | Stated | Pruned | Closed | Gone

  /** Whose write a side holds, by key, and whose writes it ever took. */
  datatype Side = Side(holds: map<Id, nat>, took: set<nat>)

  /** While a DELETE runs, its claim counts as retained: it blocks other DELETEs just so. */
  datatype World = World(tables: State, phase: map<nat, Phase>, sent: set<nat>, workos: Side, native: Side)

  function Before(s: State): World {
    World(s, map[], {}, Side(map[], {}), Side(map[], {}))
  }

  predicate At(l: World, i: nat, p: Phase) {
    i in l.phase && l.phase[i] == p
  }

  predicate Ended(l: World, i: nat) {
    At(l, i, Closed) || At(l, i, Gone)
  }

  // ---------------------------------------------------------------- the steps

  /** An answer that settles its leg comes after the write; an incomplete DELETE answer settles
      nothing. */
  predicate WorkosProves(r: Request) {
    WorkosSettled(r) && !(r.verb.Delete? && IncompleteDelete(r.workos.answer))
  }

  predicate NativeProves(r: Request) {
    NativeSettled(r) && !(r.verb.Delete? && IncompleteDelete(r.native))
  }

  predicate Allowed(rs: seq<Request>, l: World, step: Step) {
    var i := step.i;
    i < |rs| && WellFormed(rs[i]) && match step
      case Start(_) => i !in l.phase
      case WorkosTakes(_) => i in l.sent && i !in l.workos.took &&
        (WorkosProves(rs[i]) || !Refused(rs[i].workos.answer))
      case NativeTakes(_) => i in l.sent && i !in l.native.took && (NativeProves(rs[i]) || !Refused(rs[i].native))
      case WorkosAnswers(_) =>
        i in l.phase && l.phase[i].Legs? && !l.phase[i].workosIn && (WorkosProves(rs[i]) ==> i in l.workos.took)
      case NativeAnswers(_) =>
        i in l.phase && l.phase[i].Legs? && !l.phase[i].nativeIn && (NativeProves(rs[i]) ==> i in l.native.took)
      case Statement(_) => At(l, i, Legs(true, true)) && (Divergent(rs[i]) || Agreed(rs[i]))
      case Prune(_) => At(l, i, Stated) && Prunable(rs[i])
      case Close(_) =>
        || (At(l, i, Legs(true, true)) && !Divergent(rs[i]) && !Agreed(rs[i]))
        || (At(l, i, Stated) && !Prunable(rs[i]))
        || At(l, i, Pruned)
  }

  function Taken(side: Side, i: nat, key: Id): Side {
    Side(side.holds[key := i], side.took + {i})
  }

  function Begun(s: State, r: Request): State {
    if Reaches(s, r) then s.(retained := s.retained || r.verb.Delete?) else Serve(s, r)
  }

  function Written(s: State, r: Request): State {
    if !r.ledger.applied then s
    else if Divergent(r) then s.(ledger := Recorded(s.ledger, r))
    else s.(ledger := s.ledger - {r.id})
  }

  function Unmapped(s: State, r: Request): State {
    if r.prune.applied then s.(maps := s.maps - {r.id}) else s
  }

  function Finished(s: State, r: Request): State {
    if r.verb.Delete? then s.(retained := Doubtful(r)) else s
  }

  function Next(rs: seq<Request>, l: World, step: Step): World
    requires Allowed(rs, l, step)
  {
    var i, r := step.i, rs[step.i];
    match step
    case Start(_) =>
      l.(tables := Begun(l.tables, r),
         phase := l.phase[i := if Reaches(l.tables, r) then Legs(false, false) else Gone],
         sent := if Sends(l.tables, r) then l.sent + {i} else l.sent)
    case WorkosTakes(_) => l.(workos := Taken(l.workos, i, r.id))
    case NativeTakes(_) => l.(native := Taken(l.native, i, r.id))
    case WorkosAnswers(_) => l.(phase := l.phase[i := Legs(true, l.phase[i].nativeIn)])
    case NativeAnswers(_) => l.(phase := l.phase[i := Legs(l.phase[i].workosIn, true)])
    case Statement(_) => l.(tables := Written(l.tables, r), phase := l.phase[i := Stated])
    case Prune(_) => l.(tables := Unmapped(l.tables, r), phase := l.phase[i := Pruned])
    case Close(_) => l.(tables := Finished(l.tables, r), phase := l.phase[i := Closed])
  }

  predicate Runs(rs: seq<Request>, l: World, steps: seq<Step>)
    decreases |steps|, 0
  {
    steps == [] || (Runs(rs, l, steps[..|steps| - 1]) &&
      Allowed(rs, After(rs, l, steps[..|steps| - 1]), steps[|steps| - 1]))
  }

  function After(rs: seq<Request>, l: World, steps: seq<Step>): World
    requires Runs(rs, l, steps)
    decreases |steps|, 1
  {
    if steps == [] then l else Next(rs, After(rs, l, steps[..|steps| - 1]), steps[|steps| - 1])
  }

  lemma OneMore(rs: seq<Request>, l: World, steps: seq<Step>, step: Step)
    requires Runs(rs, l, steps) && Allowed(rs, After(rs, l, steps), step)
    ensures Runs(rs, l, steps + [step]) && After(rs, l, steps + [step]) == Next(rs, After(rs, l, steps), step)
  {
    assert (steps + [step])[..|steps|] == steps;
  }

  // ---------------------------------------------------------------- decisions and statements of a key

  /** The request of this key that the step decides: its second answer is in, and it diverged or
      settled. */
  function DecidedBy(rs: seq<Request>, l: World, step: Step, key: Id): Option<nat>
    requires Allowed(rs, l, step)
  {
    var r := rs[step.i];
    if r.id == key && (Divergent(r) || Agreed(r))
       && ((step.WorkosAnswers? && l.phase[step.i].nativeIn) || (step.NativeAnswers? && l.phase[step.i].workosIn))
    then Some(step.i) else None
  }

  /** The request of this key whose ledger statement takes effect in this step. */
  function WrittenBy(rs: seq<Request>, l: World, step: Step, key: Id): Option<nat>
    requires Allowed(rs, l, step)
  {
    if step.Statement? && rs[step.i].id == key && rs[step.i].ledger.applied then Some(step.i) else None
  }

  /** Requests of the key that diverged or settled. */
  predicate Outcomes(rs: seq<Request>, os: seq<Option<nat>>) {
    forall k :: 0 <= k < |os| && os[k].Some? ==>
      os[k].value < |rs| && (Divergent(rs[os[k].value]) || Agreed(rs[os[k].value]))
  }

  function Decisions(rs: seq<Request>, l: World, steps: seq<Step>, key: Id): (os: seq<Option<nat>>)
    requires Runs(rs, l, steps)
    ensures |os| == |steps| && Outcomes(rs, os)
  {
    if steps == [] then []
    else
      var so := steps[..|steps| - 1];
      Decisions(rs, l, so, key) + [DecidedBy(rs, After(rs, l, so), steps[|steps| - 1], key)]
  }

  function Statements(rs: seq<Request>, l: World, steps: seq<Step>, key: Id): (os: seq<Option<nat>>)
    requires Runs(rs, l, steps)
    ensures |os| == |steps| && Outcomes(rs, os)
  {
    if steps == [] then []
    else
      var so := steps[..|steps| - 1];
      Statements(rs, l, so, key) + [WrittenBy(rs, After(rs, l, so), steps[|steps| - 1], key)]
  }

  function LastOf(os: seq<Option<nat>>): Option<nat> {
    if os == [] then None
    else if os[|os| - 1].Some? then os[|os| - 1]
    else LastOf(os[..|os| - 1])
  }

  lemma {:induction false} LastOfIsLast(os: seq<Option<nat>>)
    ensures LastOf(os).None? ==> forall k :: 0 <= k < |os| ==> os[k].None?
    ensures LastOf(os).Some? ==> exists k :: 0 <= k < |os| && os[k] == LastOf(os) && forall j :: k < j < |os| ==>
      os[j].None?
  {
    if os != [] && os[|os| - 1].None? {
      var so := os[..|os| - 1];
      LastOfIsLast(so);
      if LastOf(so).Some? {
        var k :| 0 <= k < |so| && so[k] == LastOf(so) && forall j :: k < j < |so| ==> so[j].None?;
        assert os[k] == LastOf(os);
      }
    }
  }

  lemma LastGrows(os: seq<Option<nat>>, o: Option<nat>)
    ensures LastOf(os + [o]) == if o.Some? then o else LastOf(os)
  {
    assert (os + [o])[..|os|] == os;
  }

  function Somes(os: seq<Option<nat>>): seq<nat> {
    if os == [] then []
    else Somes(os[..|os| - 1]) + (if os[|os| - 1].Some? then [os[|os| - 1].value] else [])
  }

  lemma {:induction false} LastOfSomes(os: seq<Option<nat>>)
    ensures LastOf(os) == if Somes(os) == [] then None else Some(Somes(os)[|Somes(os)| - 1])
  {
    if os != [] {
      LastOfSomes(os[..|os| - 1]);
    }
  }

  lemma SameLast(os: seq<Option<nat>>, qs: seq<Option<nat>>)
    requires Somes(os) == Somes(qs)
    ensures LastOf(os) == LastOf(qs)
  {
    LastOfSomes(os);
    LastOfSomes(qs);
  }

  /** What a key is left at by this request, or by none. */
  predicate LeavesBehind(rs: seq<Request>, o: Option<nat>, before: bool) {
    match o
    case None => before
    case Some(i) => i < |rs| && Divergent(rs[i])
  }

  /** Native is behind on the key: it was, or some request was decided a divergence, and no request
      decided later was settled. */
  ghost predicate Lags(rs: seq<Request>, decided: seq<Option<nat>>, before: bool)
    requires Outcomes(rs, decided)
  {
    || (before && forall j :: 0 <= j < |decided| && decided[j].Some? ==> !Agreed(rs[decided[j].value]))
    || (exists k :: 0 <= k < |decided| && decided[k].Some? && Divergent(rs[decided[k].value])
          && forall j :: k < j < |decided| && decided[j].Some? ==> !Agreed(rs[decided[j].value]))
  }

  ghost predicate BehindByAnswers(rs: seq<Request>, l: World, steps: seq<Step>, key: Id)
    requires Runs(rs, l, steps)
  {
    Lags(rs, Decisions(rs, l, steps, key), key in l.tables.ledger)
  }

  lemma LastDecides(rs: seq<Request>, decided: seq<Option<nat>>, before: bool)
    requires Outcomes(rs, decided)
    ensures Lags(rs, decided, before) <==> LeavesBehind(rs, LastOf(decided), before)
  {
    LastOfIsLast(decided);
    var o := LastOf(decided);
    if o.Some? {
      var k :| 0 <= k < |decided| && decided[k] == o && forall j :: k < j < |decided| ==> decided[j].None?;
    }
  }

  // ---------------------------------------------------------------- main results

  /** Only a statement touches the ledger. */
  lemma StepRow(rs: seq<Request>, l: World, step: Step, key: Id)
    requires Allowed(rs, l, step)
    ensures key in Next(rs, l, step).tables.ledger <==>
      match WrittenBy(rs, l, step, key)
      case None => key in l.tables.ledger
      case Some(i) => Divergent(rs[i])
  {
  }

  /** On every interleaving the last statement that took effect decides about the row. */
  lemma {:induction false} RowIsLastWritten(rs: seq<Request>, l: World, steps: seq<Step>, key: Id)
    requires Runs(rs, l, steps)
    ensures key in After(rs, l, steps).tables.ledger
       <==> LeavesBehind(rs, LastOf(Statements(rs, l, steps, key)), key in l.tables.ledger)
    decreases |steps|
  {
    if steps != [] {
      var so := steps[..|steps| - 1];
      RowIsLastWritten(rs, l, so, key);
      StepRow(rs, After(rs, l, so), steps[|steps| - 1], key);
      LastGrows(Statements(rs, l, so, key), WrittenBy(rs, After(rs, l, so), steps[|steps| - 1], key));
    }
  }

  /** On every interleaving the row tells the truth about a key, by the answers, if and only if its
      last statement that took effect and its last decision leave the key alike. */
  lemma RowTellsTheTruth(rs: seq<Request>, l: World, steps: seq<Step>, key: Id)
    requires Runs(rs, l, steps)
    ensures var before := key in l.tables.ledger;
      (key in After(rs, l, steps).tables.ledger <==> BehindByAnswers(rs, l, steps, key)) <==>
      (LeavesBehind(rs, LastOf(Statements(rs, l, steps, key)), before) <==>
        LeavesBehind(rs, LastOf(Decisions(rs, l, steps, key)), before))
  {
    RowIsLastWritten(rs, l, steps, key);
    LastDecides(rs, Decisions(rs, l, steps, key), key in l.tables.ledger);
  }

  /** So it does whenever the statements of the key take effect, all of them, in the order in which
      its requests are decided, however else they overlap. */
  lemma InOrderTellsTheTruth(rs: seq<Request>, l: World, steps: seq<Step>, key: Id)
    requires Runs(rs, l, steps)
    requires Somes(Statements(rs, l, steps, key)) == Somes(Decisions(rs, l, steps, key))
    ensures key in After(rs, l, steps).tables.ledger <==> BehindByAnswers(rs, l, steps, key)
  {
    SameLast(Statements(rs, l, steps, key), Decisions(rs, l, steps, key));
    RowIsLastWritten(rs, l, steps, key);
    LastDecides(rs, Decisions(rs, l, steps, key), key in l.tables.ledger);
  }

  // ---------------------------------------------------------------- without overlap

  /** A request starts only when all before it have ended. */
  ghost predicate OneAtATime(rs: seq<Request>, l: World, steps: seq<Step>)
    requires Runs(rs, l, steps)
    decreases |steps|
  {
    steps == [] ||
      var so, step := steps[..|steps| - 1], steps[|steps| - 1];
      OneAtATime(rs, l, so) && (step.Start? ==> forall j: nat :: j < step.i ==> Ended(After(rs, l, so), j))
  }

  /** How far one request has got, from the tables it found. */
  predicate Partway(t: State, r: Request, p: Phase, now: State) {
    match p
    case Legs(_, _) => Reaches(t, r) && now == Begun(t, r)
    case Stated => Reaches(t, r) && (Divergent(r) || Agreed(r)) && now == Written(Begun(t, r), r)
    case Pruned => Reaches(t, r) && Prunable(r) && now == Unmapped(Written(Begun(t, r), r), r)
    case Closed => now == Serve(t, r)
    case Gone => now == Serve(t, r)
  }

  /** The requests before `c` have ended, `c` may be under way, none after it has started. */
  ghost predicate Turn(rs: seq<Request>, s: State, l: World, c: nat) {
    && c <= |rs| && (forall j: nat :: j < c ==> Ended(l, j)) && !Ended(l, c) &&
      (forall j: nat :: j > c ==> j !in l.phase)
    && (if c in l.phase then c < |rs| && Partway(Run(s, rs[..c]), rs[c], l.phase[c], l.tables)
      else l.tables == Run(s, rs[..c]))
  }

  /** One step of the request whose turn it is. */
  lemma PartwayGoesOn(rs: seq<Request>, t: State, l: World, step: Step)
    requires Allowed(rs, l, step)
    requires if step.Start? then l.tables == t
      else step.i in l.phase && Partway(t, rs[step.i], l.phase[step.i], l.tables)
    ensures var next := Next(rs, l, step);
      step.i in next.phase && Partway(t, rs[step.i], next.phase[step.i], next.tables)
  {
  }

  lemma TurnGoesOn(rs: seq<Request>, s: State, l: World, step: Step, c: nat) returns (d: nat)
    requires Turn(rs, s, l, c) && Allowed(rs, l, step)
    requires step.Start? ==> forall j: nat :: j < step.i ==> Ended(l, j)
    ensures Turn(rs, s, Next(rs, l, step), d)
  {
    d := c;
    var next := Next(rs, l, step);
    if step.WorkosTakes? || step.NativeTakes? {
      assert next.phase == l.phase && next.tables == l.tables;
      assert forall j: nat :: Ended(next, j) <==> Ended(l, j);
    } else {
      assert !Ended(l, step.i) && !(step.Start? && c < step.i);
      PartwayGoesOn(rs, Run(s, rs[..c]), l, step);
      assert forall j: nat :: j != c ==> (Ended(next, j) <==> Ended(l, j));
      if Ended(next, c) {
        d := c + 1;
        RunOneMore(s, rs, c);
      }
    }
  }

  lemma RunOneMore(s: State, rs: seq<Request>, c: nat)
    requires c < |rs|
    ensures Run(s, rs[..c + 1]) == Serve(Run(s, rs[..c]), rs[c])
  {
    assert rs[..c + 1][..c] == rs[..c];
  }

  lemma {:induction false} TurnsHold(rs: seq<Request>, s: State, steps: seq<Step>) returns (c: nat)
    requires Runs(rs, Before(s), steps) && OneAtATime(rs, Before(s), steps)
    ensures Turn(rs, s, After(rs, Before(s), steps), c)
    decreases |steps|
  {
    if steps == [] {
      c := 0;
    } else {
      var so := steps[..|steps| - 1];
      c := TurnsHold(rs, s, so);
      c := TurnGoesOn(rs, s, After(rs, Before(s), so), steps[|steps| - 1], c);
    }
  }

  /** Requests that do not overlap, whatever lands late, leave the tables of serving them one after
      the other as a whole. */
  lemma ApartIsAtomic(rs: seq<Request>, s: State, steps: seq<Step>)
    requires Runs(rs, Before(s), steps) && OneAtATime(rs, Before(s), steps)
    requires forall i: nat :: i < |rs| ==> Ended(After(rs, Before(s), steps), i)
    ensures After(rs, Before(s), steps).tables == Run(s, rs)
  {
    var c := TurnsHold(rs, s, steps);
    assert c == |rs| && rs[..c] == rs;
  }

  /** There the atomic result holds: a row says the truth unless a statement was lost. */
  lemma ApartTellsTheTruth(rs: seq<Request>, s: State, steps: seq<Step>, key: Id)
    requires Runs(rs, Before(s), steps) && OneAtATime(rs, Before(s), steps)
    requires forall i: nat :: i < |rs| ==> WellFormed(rs[i]) && Ended(After(rs, Before(s), steps), i)
    ensures (key in After(rs, Before(s), steps).tables.ledger <==> Behind(s, rs, key)) <==>
      !LastStatementLost(s, rs, key)
  {
    ApartIsAtomic(rs, s, steps);
    LedgerTellsTheTruth(s, rs, key);
  }

  // ---------------------------------------------------------------- what the sides hold

  predicate NativeIsIn(l: World, i: nat) {
    i in l.phase && match l.phase[i]
      case Legs(_, nativeIn) => nativeIn
      case Gone => false
      case _ => true
  }

  ghost predicate Honest(rs: seq<Request>, l: World) {
    && (forall i: nat :: NativeIsIn(l, i) && i < |rs| && NativeProves(rs[i]) ==> i in l.native.took)
    && (forall i :: i in l.native.took ==> i < |rs| && (NativeProves(rs[i]) || !Refused(rs[i].native)))
  }

  lemma {:induction false} StaysHonest(rs: seq<Request>, s: State, steps: seq<Step>)
    requires Runs(rs, Before(s), steps)
    ensures Honest(rs, After(rs, Before(s), steps))
    decreases |steps|
  {
    if steps != [] {
      StaysHonest(rs, s, steps[..|steps| - 1]);
    }
  }

  /** The row against the sides themselves. `i` is the write WorkOS holds. Native misses it exactly if
      `i` was not settled there, up to unsettling answers behind which it landed; then the row is
      right if and only if the last statement says the same. And if that statement is `i`'s own, a
      write native misses is on record, whatever the answers. */
  lemma RowAgainstTheSides(rs: seq<Request>, s: State, steps: seq<Step>, key: Id, i: nat)
    requires Runs(rs, Before(s), steps)
    requires Get(After(rs, Before(s), steps).workos.holds, key) == Some(i)
    requires i < |rs| && NativeIsIn(After(rs, Before(s), steps), i) && !Incomplete(rs[i])
    ensures var l, last := After(rs, Before(s), steps), LastOf(Statements(rs, Before(s), steps, key));
      var misses := i !in l.native.took;
      && (NativeSettled(rs[i]) || Refused(rs[i].native) ==>
            ((key in l.tables.ledger <==> misses) <==>
              (LeavesBehind(rs, last, key in s.ledger) <==> !NativeSettled(rs[i]))))
      && (last == Some(i) && misses ==> key in l.tables.ledger)
  {
    StaysHonest(rs, s, steps);
    RowIsLastWritten(rs, Before(s), steps, key);
    LastOfIsLast(Statements(rs, Before(s), steps, key));
  }
}
