// Two overlapping PUTs of one key, run step by step: what the ledger can end up saying.

module PrimaryOverlap {
  import opened Common
  import opened Upstream
  import opened PrimaryLedger
  import opened PrimaryWrite
  import PP = PrimaryProtocol

  type Worlds = (World, Option<nat>) -> bool

  /** A PUT that WorkOS takes; native answers this. Its ledger statement takes effect and is heard. */
  function Replace(n: Id, native: Answer): Request {
    Request(Put, n, true, {}, map[], Replaced(true, Status(200)), native, false,
            PP.Sql(true, PP.Answered), PP.Sql(false, PP.Threw), false, false)
  }

  /** Some run ends in this world, its last decision of the key being this one. */
  ghost predicate Reached(rs: seq<Request>, l: World, key: Id, w: World, last: Option<nat>) {
    exists steps :: Runs(rs, l, steps) && After(rs, l, steps) == w && LastOf(Decisions(rs, l, steps, key)) == last
  }

  function Newer(rs: seq<Request>, w: World, step: Step, key: Id, last: Option<nat>): Option<nat>
    requires Allowed(rs, w, step)
  {
    if DecidedBy(rs, w, step, key).Some? then DecidedBy(rs, w, step, key) else last
  }

  /** Allowed steps do not lead out of `p`. */
  ghost predicate LeadsOn(rs: seq<Request>, key: Id, p: Worlds) {
    forall w, last, step :: p(w, last) && Allowed(rs, w, step) ==> p(Next(rs, w, step), Newer(rs, w, step, key, last))
  }

  lemma ReachedGoesOn(rs: seq<Request>, l: World, key: Id, w: World, last: Option<nat>, step: Step)
    requires Reached(rs, l, key, w, last) && Allowed(rs, w, step)
    ensures Reached(rs, l, key, Next(rs, w, step), Newer(rs, w, step, key, last))
  {
    var so :| Runs(rs, l, so) && After(rs, l, so) == w && LastOf(Decisions(rs, l, so, key)) == last;
    var steps := so + [step];
    OneMore(rs, l, so, step);
    assert steps[..|steps| - 1] == so;
    LastGrows(Decisions(rs, l, so, key), DecidedBy(rs, w, step, key));
  }

  /** The reachable worlds, as a predicate the steps below need not look into. */
  ghost function Reachable(rs: seq<Request>, l: World, key: Id): (p: Worlds)
    ensures p(l, None) && LeadsOn(rs, key, p)
    ensures forall w, last :: p(w, last) ==> Reached(rs, l, key, w, last)
  {
    assert Reached(rs, l, key, l, None) by {
      assert Runs(rs, l, []) && After(rs, l, []) == l && Decisions(rs, l, [], key) == [];
    }
    assert forall w, last, step :: Reached(rs, l, key, w, last) && Allowed(rs, w, step) ==>
        Reached(rs, l, key, Next(rs, w, step), Newer(rs, w, step, key, last)) by {
      forall w, last, step | Reached(rs, l, key, w, last) && Allowed(rs, w, step)
        ensures Reached(rs, l, key, Next(rs, w, step), Newer(rs, w, step, key, last))
      {
        ReachedGoesOn(rs, l, key, w, last, step);
      }
    }
    (w, last) => Reached(rs, l, key, w, last)
  }

  lemma Do(rs: seq<Request>, key: Id, p: Worlds, w: World, last: Option<nat>, step: Step)
    returns (next: World, decided: Option<nat>)
    requires LeadsOn(rs, key, p) && p(w, last) && Allowed(rs, w, step)
    ensures next == Next(rs, w, step) && decided == Newer(rs, w, step, key, last) && p(next, decided)
  {
    next, decided := Next(rs, w, step), Newer(rs, w, step, key, last);
  }

  lemma ReplaceFacts(n: Id, native: Answer, s: State)
    ensures var r := Replace(n, native);
      && WellFormed(r) && WorkosProves(r) && (NativeProves(r) <==> Success(native))
      && (Divergent(r) <==> !Success(native)) && (Agreed(r) <==> Success(native)) && !Prunable(r)
      && (n in s.maps ==> Begun(s, r) == s && Reaches(s, r) && Sends(s, r))
  {
  }

  lemma Starts(rs: seq<Request>, n: Id, p: Worlds, w: World, i: nat, native: Answer)
    requires LeadsOn(rs, n, p) && p(w, None) && i < |rs| && rs[i] == Replace(n, native) && i !in w.phase &&
      n in w.tables.maps
    ensures p(w.(phase := w.phase[i := Legs(false, false)], sent := w.sent + {i}), None)
  {
    ReplaceFacts(n, native, w.tables);
    var next, last := Do(rs, n, p, w, None, Start(i));
  }

  lemma WorkosHas(rs: seq<Request>, n: Id, p: Worlds, w: World, last: Option<nat>, i: nat, native: Answer)
    requires LeadsOn(rs, n, p) && p(w, last) && i < |rs| && rs[i] == Replace(n, native) && i in w.sent &&
      i !in w.workos.took
    ensures p(w.(workos := Taken(w.workos, i, n)), last)
  {
    ReplaceFacts(n, native, w.tables);
    var next, d := Do(rs, n, p, w, last, WorkosTakes(i));
  }

  lemma NativeHas(rs: seq<Request>, n: Id, p: Worlds, w: World, last: Option<nat>, i: nat, native: Answer)
    requires LeadsOn(rs, n, p) && p(w, last) && i < |rs| && rs[i] == Replace(n, native) && i in w.sent &&
      i !in w.native.took
    requires Success(native)
    ensures p(w.(native := Taken(w.native, i, n)), last)
  {
    ReplaceFacts(n, native, w.tables);
    var next, d := Do(rs, n, p, w, last, NativeTakes(i));
  }

  lemma Answers(rs: seq<Request>, n: Id, p: Worlds, w: World, last: Option<nat>, i: nat, native: Answer)
    requires LeadsOn(rs, n, p) && p(w, last) && i < |rs| && rs[i] == Replace(n, native) && At(w, i, Legs(false, false))
    requires i in w.workos.took && (Success(native) ==> i in w.native.took)
    ensures p(w.(phase := w.phase[i := Legs(true, true)]), Some(i))
  {
    ReplaceFacts(n, native, w.tables);
    var half, d := Do(rs, n, p, w, last, WorkosAnswers(i));
    var next, e := Do(rs, n, p, half, d, NativeAnswers(i));
    assert next.phase == w.phase[i := Legs(true, true)];
  }

  lemma Writes(rs: seq<Request>, n: Id, p: Worlds, w: World, last: Option<nat>, i: nat, native: Answer)
    requires LeadsOn(rs, n, p) && p(w, last) && i < |rs| && rs[i] == Replace(n, native) && At(w, i, Legs(true, true))
    ensures p(w.(tables := Written(w.tables, rs[i]), phase := w.phase[i := Stated]), last)
  {
    ReplaceFacts(n, native, w.tables);
    var next, d := Do(rs, n, p, w, last, Statement(i));
  }

  lemma Closes(rs: seq<Request>, n: Id, p: Worlds, w: World, last: Option<nat>, i: nat, native: Answer)
    requires LeadsOn(rs, n, p) && p(w, last) && i < |rs| && rs[i] == Replace(n, native) && At(w, i, Stated)
    ensures p(w.(phase := w.phase[i := Closed]), last)
  {
    ReplaceFacts(n, native, w.tables);
    var next, d := Do(rs, n, p, w, last, Close(i));
  }

  function WrittenUp(w: World, i: nat, r: Request): World {
    w.(tables := Written(w.tables, r), phase := w.phase[i := Closed])
  }

  lemma WritesUp(rs: seq<Request>, n: Id, p: Worlds, w: World, last: Option<nat>, i: nat, native: Answer)
    requires LeadsOn(rs, n, p) && p(w, last) && i < |rs| && rs[i] == Replace(n, native) && At(w, i, Legs(true, true))
    ensures p(WrittenUp(w, i, rs[i]), last)
  {
    Writes(rs, n, p, w, last, i, native);
    var half := w.(tables := Written(w.tables, rs[i]), phase := w.phase[i := Stated]);
    Closes(rs, n, p, half, last, i, native);
    assert half.(phase := half.phase[i := Closed]) == WrittenUp(w, i, rs[i]);
  }

  /** Both requests are under way, nobody has taken or answered anything. */
  function UnderWay(s: State): World {
    World(s, map[0 := Legs(false, false), 1 := Legs(false, false)], {0, 1}, Side(map[], {}), Side(map[], {}))
  }

  lemma BothStart(rs: seq<Request>, n: Id, p: Worlds, s: State, a: Answer, b: Answer)
    requires n in s.maps && rs == [Replace(n, a), Replace(n, b)] && LeadsOn(rs, n, p) && p(Before(s), None)
    ensures p(UnderWay(s), None)
  {
    var l := Before(s);
    Starts(rs, n, p, l, 0, a);
    var w := l.(phase := map[0 := Legs(false, false)], sent := {0});
    assert l.(phase := l.phase[0 := Legs(false, false)], sent := l.sent + {0}) == w;
    Starts(rs, n, p, w, 1, b);
    assert w.(phase := w.phase[1 := Legs(false, false)], sent := w.sent + {1}) == UnderWay(s);
  }

  /** Both hear from both sides, `two` after `one`. */
  lemma BothAnswer(rs: seq<Request>, n: Id, p: Worlds, w: World, one: nat, x: Answer, two: nat, y: Answer)
    requires one < |rs| && two < |rs| && one != two && rs[one] == Replace(n, x) && rs[two] == Replace(n, y)
    requires LeadsOn(rs, n, p) && p(w, None) && At(w, one, Legs(false, false)) && At(w, two, Legs(false, false))
    requires {one, two} <= w.workos.took && (Success(x) ==> one in w.native.took) &&
      (Success(y) ==> two in w.native.took)
    ensures p(w.(phase := w.phase[one := Legs(true, true)][two := Legs(true, true)]), Some(two))
  {
    Answers(rs, n, p, w, None, one, x);
    Answers(rs, n, p, w.(phase := w.phase[one := Legs(true, true)]), Some(one), two, y);
  }

  /** Both statements run, `two`'s after `one`'s, and both requests close. */
  lemma BothWrite(rs: seq<Request>, n: Id, p: Worlds, w: World, last: Option<nat>, one: nat, x: Answer, two: nat,
        y: Answer)
    requires one < |rs| && two < |rs| && one != two && rs[one] == Replace(n, x) && rs[two] == Replace(n, y)
    requires LeadsOn(rs, n, p) && p(w, last) && At(w, one, Legs(true, true)) && At(w, two, Legs(true, true))
    ensures p(WrittenUp(WrittenUp(w, one, rs[one]), two, rs[two]), last)
  {
    WritesUp(rs, n, p, w, last, one, x);
    WritesUp(rs, n, p, WrittenUp(w, one, rs[one]), last, two, y);
  }

  /** A run ends with all requests closed, WorkOS holding one write and native another; `behind` is
      what the answers say, `row` what the ledger says. */
  ghost predicate EndsIn(rs: seq<Request>, s: State, n: Id, workos: nat, native: nat, behind: bool, row: bool) {
    exists steps ::
      && Runs(rs, Before(s), steps) && (BehindByAnswers(rs, Before(s), steps, n) <==> behind)
      && var l := After(rs, Before(s), steps);
      && (forall i: nat :: i < |rs| ==> At(l, i, Closed)) && (n in l.tables.ledger <==> row)
      && Get(l.workos.holds, n) == Some(workos) && Get(l.native.holds, n) == Some(native)
  }

  lemma Ends(rs: seq<Request>, s: State, n: Id, w: World, last: nat)
    requires Reached(rs, Before(s), n, w, Some(last)) && last < |rs| && forall i: nat :: i < |rs| ==> At(w, i, Closed)
    requires n in w.workos.holds && n in w.native.holds
    ensures EndsIn(rs, s, n, w.workos.holds[n], w.native.holds[n], Divergent(rs[last]), n in w.tables.ledger)
  {
    var steps :| Runs(rs, Before(s), steps) && After(rs, Before(s), steps) == w &&
      LastOf(Decisions(rs, Before(s), steps, n)) == Some(last);
    BehindAtTheEnd(rs, s, n, steps, last);
  }

  lemma BehindAtTheEnd(rs: seq<Request>, s: State, n: Id, steps: seq<Step>, last: nat)
    requires Runs(rs, Before(s), steps) && last < |rs| && LastOf(Decisions(rs, Before(s), steps, n)) == Some(last)
    ensures BehindByAnswers(rs, Before(s), steps, n) <==> Divergent(rs[last])
  {
    LastDecides(rs, Decisions(rs, Before(s), steps, n), n in s.ledger);
  }

  /** WorkOS takes `one`, then `two`. */
  lemma WorkosTakesBoth(rs: seq<Request>, n: Id, p: Worlds, w: World, one: nat, x: Answer, two: nat, y: Answer)
    requires one < |rs| && two < |rs| && one != two && rs[one] == Replace(n, x) && rs[two] == Replace(n, y)
    requires LeadsOn(rs, n, p) && p(w, None) && {one, two} <= w.sent && {one, two} !! w.workos.took
    ensures p(w.(workos := Taken(Taken(w.workos, one, n), two, n)), None)
  {
    WorkosHas(rs, n, p, w, None, one, x);
    WorkosHas(rs, n, p, w.(workos := Taken(w.workos, one, n)), None, two, y);
  }

  lemma NativeTakesBoth(rs: seq<Request>, n: Id, p: Worlds, w: World, one: nat, x: Answer, two: nat, y: Answer)
    requires one < |rs| && two < |rs| && one != two && rs[one] == Replace(n, x) && rs[two] == Replace(n, y)
    requires LeadsOn(rs, n, p) && p(w, None) && {one, two} <= w.sent && {one, two} !! w.native.took && Success(x) &&
      Success(y)
    ensures p(w.(native := Taken(Taken(w.native, one, n), two, n)), None)
  {
    NativeHas(rs, n, p, w, None, one, x);
    NativeHas(rs, n, p, w.(native := Taken(w.native, one, n)), None, two, y);
  }

  /** `one` is answered before `two`, and writes to the ledger after it. */
  lemma Crossed(rs: seq<Request>, n: Id, p: Worlds, w: World, one: nat, x: Answer, two: nat, y: Answer)
    requires |rs| == 2 && one < 2 && two < 2 && one != two && rs[one] == Replace(n, x) && rs[two] == Replace(n, y)
    requires LeadsOn(rs, n, p) && p(w, None) && At(w, one, Legs(false, false)) && At(w, two, Legs(false, false))
    requires {one, two} <= w.workos.took && (Success(x) ==> one in w.native.took) &&
      (Success(y) ==> two in w.native.took)
    ensures p(w.(tables := Written(Written(w.tables, rs[two]), rs[one]),
                 phase := w.phase[two := Closed][one := Closed]), Some(two))
  {
    BothAnswer(rs, n, p, w, one, x, two, y);
    var answered := w.(phase := w.phase[one := Legs(true, true)][two := Legs(true, true)]);
    BothWrite(rs, n, p, answered, Some(two), two, y, one, x);
    assert WrittenUp(WrittenUp(answered, two, rs[two]), one, rs[one]).phase == w.phase[two := Closed][one := Closed];
  }

  lemma EndsClosed(rs: seq<Request>, s: State, n: Id, p: Worlds, w: World, t: State, one: nat, two: nat)
    requires |rs| == 2 && one < 2 && two < 2 && one != two
    requires forall v, last :: p(v, last) ==> Reached(rs, Before(s), n, v, last)
    requires p(w.(tables := t, phase := w.phase[two := Closed][one := Closed]), Some(two))
    requires n in w.workos.holds && n in w.native.holds
    ensures EndsIn(rs, s, n, w.workos.holds[n], w.native.holds[n], Divergent(rs[two]), n in t.ledger)
  {
    Ends(rs, s, n, w.(tables := t, phase := w.phase[two := Closed][one := Closed]), two);
  }

  lemma CrossedEnds(rs: seq<Request>, s: State, n: Id, p: Worlds, w: World, one: nat, x: Answer, two: nat, y: Answer)
    requires |rs| == 2 && one < 2 && two < 2 && one != two && rs[one] == Replace(n, x) && rs[two] == Replace(n, y)
    requires LeadsOn(rs, n, p) && (forall v, last :: p(v, last) ==> Reached(rs, Before(s), n, v, last))
    requires p(w, None) && w.phase == UnderWay(s).phase
    requires {one, two} <= w.workos.took && (Success(x) ==> one in w.native.took) &&
      (Success(y) ==> two in w.native.took)
    requires n in w.workos.holds && n in w.native.holds
    ensures EndsIn(rs, s, n, w.workos.holds[n], w.native.holds[n], Divergent(rs[two]),
                   n in Written(Written(w.tables, rs[two]), rs[one]).ledger)
  {
    Crossed(rs, n, p, w, one, x, two, y);
    EndsClosed(rs, s, n, p, w, Written(Written(w.tables, rs[two]), rs[one]), one, two);
  }

  /** 0 settles, 1 diverges after it and records it, and only then 0 clears. WorkOS holds 1, native
      holds 0, and no row says so, although both statements took effect and nothing settled after 1. */
  lemma LateClearHidesADivergence(s: State, n: Id)
    requires n in s.maps
    ensures EndsIn([Replace(n, Status(200)), Replace(n, Status(500))], s, n, 1, 0, true, false)
  {
    var ok, failed := Status(200), Status(500);
    var rs := [Replace(n, ok), Replace(n, failed)];
    var p := Reachable(rs, Before(s), n);
    BothStart(rs, n, p, s, ok, failed);
    var w := UnderWay(s);
    WorkosTakesBoth(rs, n, p, w, 0, ok, 1, failed);
    w := w.(workos := Taken(Taken(w.workos, 0, n), 1, n));
    NativeHas(rs, n, p, w, None, 0, ok);
    w := w.(native := Taken(w.native, 0, n));
    CrossedEnds(rs, s, n, p, w, 0, ok, 1, failed);
  }

  /** 1 diverges, 0 settles after it and clears, and only then 1 records. A row stands, although both
      sides hold 0. */
  lemma LateInsertStandsForNothing(s: State, n: Id)
    requires n in s.maps
    ensures EndsIn([Replace(n, Status(200)), Replace(n, Status(500))], s, n, 0, 0, false, true)
  {
    var ok, failed := Status(200), Status(500);
    var rs := [Replace(n, ok), Replace(n, failed)];
    var p := Reachable(rs, Before(s), n);
    BothStart(rs, n, p, s, ok, failed);
    var w := UnderWay(s);
    WorkosTakesBoth(rs, n, p, w, 1, failed, 0, ok);
    w := w.(workos := Taken(Taken(w.workos, 1, n), 0, n));
    NativeHas(rs, n, p, w, None, 0, ok);
    w := w.(native := Taken(w.native, 0, n));
    CrossedEnds(rs, s, n, p, w, 1, failed, 0, ok);
  }

  /** What the answers cannot see: both PUTs are taken and answered 2xx by both sides, in opposite
      orders. The sides differ, and no ledger fed by answers could say so. */
  lemma OppositeOrdersGoUnseen(s: State, n: Id)
    requires n in s.maps
    ensures EndsIn([Replace(n, Status(200)), Replace(n, Status(200))], s, n, 1, 0, false, false)
  {
    var ok := Status(200);
    var rs := [Replace(n, ok), Replace(n, ok)];
    var p := Reachable(rs, Before(s), n);
    BothStart(rs, n, p, s, ok, ok);
    var w := UnderWay(s);
    WorkosTakesBoth(rs, n, p, w, 0, ok, 1, ok);
    w := w.(workos := Taken(Taken(w.workos, 0, n), 1, n));
    NativeTakesBoth(rs, n, p, w, 1, ok, 0, ok);
    w := w.(native := Taken(Taken(w.native, 1, n), 0, n));
    CrossedEnds(rs, s, n, p, w, 0, ok, 1, ok);
  }
}
