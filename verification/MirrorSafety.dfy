// What a mirror run leaves behind, when it may be repeated, and exactly when it takes a WorkOS
// row that another native id owns.

module MirrorSafety {
  import opened Common
  import opened MirrorUpsert
  import opened ScimJson

  /** Stored and queued mappings together give each WorkOS id one owner. */
  ghost predicate OneOwnerEach(w: World) {
    forall a, b, x :: Claims(w, a, x) && Claims(w, b, x) ==> a == b
  }

  /** "migrated-id" means the two ids are one. */
  ghost predicate HonestStrategies(w: World) {
    && (forall a :: a in w.maps && w.maps[a].strategy.MigratedId? ==> w.maps[a].workosId == a)
    && (w.sink.Some? ==> forall q :: q in w.sink.value && q.mapping.strategy.MigratedId? ==>
      q.mapping.workosId == q.nativeId)
  }

  /** An id made up by the server is one nobody has seen. */
  ghost predicate NeverSeen(w: World, n: Id, id: Id) {
    id !in w.rows && id != n && id != Base(w, n) && forall b :: !Claims(w, b, id)
  }

  ghost predicate Sound(kind: Kind, w: World) {
    UniqueNames(kind, w.rows) && OneOwnerEach(w) && HonestStrategies(w)
  }

  /** The one step that takes an id without asking who owns it: the native id's mapped row is
      gone, and its replacement goes to the native id itself, which another mapping names. */
  ghost predicate TakesUnasked(kind: Kind, c: Contract, w: World, n: Id, body: Body) {
    && n in w.maps && w.maps[n].workosId != n && w.maps[n].workosId !in w.rows
    && NameOf(kind, body).Some? && TakenByAnother(w, n, n)
    && var h := Holder(kind, w.rows, NameOf(kind, body).value); h == Some(n) || (h == None && c.PostCreate?)
  }

  // ---------------------------------------------------------------- one run

  lemma RecordingClaims(w: World, n: Id, m: Mapping, a: Id, x: Id)
    ensures Claims(Record(w, n, m), n, m.workosId)
    ensures Claims(Record(w, n, m), a, x) ==> Claims(w, a, x) || (a == n && x == m.workosId)
    ensures a != n && Claims(w, a, x) ==> Claims(Record(w, n, m), a, x)
  {
    if w.sink.Some? {
      var q := w.sink.value + [Queued(n, m)];
      assert q[|q| - 1] == Queued(n, m);
      assert forall i :: 0 <= i < |w.sink.value| ==> q[i] == w.sink.value[i];
    }
  }

  lemma RecordingFlushes(w: World, n: Id, m: Mapping)
    ensures Flushed(Record(w, n, m)) == Flushed(w)[n := m]
  {
    if w.sink.Some? {
      var q := w.sink.value + [Queued(n, m)];
      assert q[..|q| - 1] == w.sink.value;
    }
  }

  lemma OneHolder(kind: Kind, rows: Rows, id: Id, name: string)
    requires UniqueNames(kind, rows) && Bears(kind, rows, id, name)
    ensures Holder(kind, rows, name) == Some(id)
  {
  }

  /** Ok means the null-stripped resource is stored under exactly the id the native id is mapped
      to; one row at most was added, and it is the only row touched. */
  lemma OkIsStoredWhereMapped(kind: Kind, c: Contract, w: World, n: Id, body: Body, minted: Id)
    requires UniqueNames(kind, w.rows) && NeverSeen(w, n, minted)
    requires PlanFor(kind, c, w, n, body, minted).Write?
    ensures var (next, outcome) := After(kind, c, w, n, body, minted);
      && var t := outcome.id;
      && t in next.rows && next.rows[t] == body && n in Flushed(next) && Flushed(next)[n].workosId == t
      && (outcome.created <==> t !in w.rows)
      && next.rows - {t} == w.rows - {t} && Flushed(next) - {n} == Flushed(w) - {n}
      && UniqueNames(kind, next.rows)
      && Holder(kind, next.rows, NameOf(kind, body).value) == Some(t)
  {
    NameIsFree(kind, c, w, n, body, minted);
    WritingStores(kind, w, n, body, PlanFor(kind, c, w, n, body, minted).id);
  }

  lemma WritingStores(kind: Kind, w: World, n: Id, body: Body, t: Id)
    requires UniqueNames(kind, w.rows) && NameOf(kind, body).Some?
    requires Holder(kind, w.rows, NameOf(kind, body).value) in {None, Some(t)}
    ensures var next := Written(w, n, body, t);
      && next.rows == w.rows[t := body] && Flushed(next) == Flushed(w)[n := Mapping(t, StrategyFor(w, n, t))]
      && next.rows - {t} == w.rows - {t} && Flushed(next) - {n} == Flushed(w) - {n}
      && UniqueNames(kind, next.rows)
      && Holder(kind, next.rows, NameOf(kind, body).value) == Some(t)
  {
    RecordingFlushes(w.(rows := w.rows[t := body]), n, Mapping(t, StrategyFor(w, n, t)));
    OneMoreName(kind, w.rows, t, body);
    OneHolder(kind, w.rows[t := body], t, NameOf(kind, body).value);
  }

  lemma NameIsFree(kind: Kind, c: Contract, w: World, n: Id, body: Body, minted: Id)
    requires NeverSeen(w, n, minted) && PlanFor(kind, c, w, n, body, minted).Write?
    ensures NameOf(kind, body).Some?
    ensures Holder(kind, w.rows, NameOf(kind, body).value) in {None, Some(PlanFor(kind, c, w, n, body, minted).id)}
    ensures PlanFor(kind, c, w, n, body, minted).isNew <==> PlanFor(kind, c, w, n, body, minted).id !in w.rows
  {
  }

  lemma OneMoreName(kind: Kind, rows: Rows, t: Id, body: Body)
    requires UniqueNames(kind, rows) && NameOf(kind, body).Some?
    requires Holder(kind, rows, NameOf(kind, body).value) in {None, Some(t)}
    ensures UniqueNames(kind, rows[t := body])
  {
    var name, next := NameOf(kind, body).value, rows[t := body];
    forall a, b, other | Bears(kind, next, a, other) && Bears(kind, next, b, other)
      ensures a == b
    {
      if a != t && b != t {
        assert Bears(kind, rows, a, other) && Bears(kind, rows, b, other);
      } else if a != t || b != t {
        var u := if a != t then a else b;
        assert Bears(kind, rows, u, other) && Lower(other) == Lower(name);
        assert Bears(kind, rows, u, name);
      }
    }
  }

  /** Whatever a run does, names stay unique. */
  lemma NamesStayUnique(kind: Kind, c: Contract, w: World, n: Id, body: Body, minted: Id)
    requires UniqueNames(kind, w.rows) && minted !in w.rows
    ensures UniqueNames(kind, After(kind, c, w, n, body, minted).0.rows)
  {
    var p := PlanFor(kind, c, w, n, body, minted);
    if p.Write? {
      OneMoreName(kind, w.rows, p.id, body);
    }
  }

  /** A run takes a row that another native id owns, and so breaks one-owner-each, exactly when it
      takes it unasked; "migrated-id means equal ids" survives either way. */
  lemma NeverTakesAnothersRow(kind: Kind, c: Contract, w: World, n: Id, body: Body, minted: Id)
    requires Sound(kind, w) && NeverSeen(w, n, minted)
    requires PlanFor(kind, c, w, n, body, minted).Write?
    ensures var (next, outcome) := After(kind, c, w, n, body, minted);
      && (TakenByAnother(w, outcome.id, n) <==> TakesUnasked(kind, c, w, n, body))
      && (OneOwnerEach(next) <==> !TakesUnasked(kind, c, w, n, body))
      && HonestStrategies(next)
  {
    var t := PlanFor(kind, c, w, n, body, minted).id;
    var w1, m := w.(rows := w.rows[t := body]), Mapping(t, StrategyFor(w, n, t));
    var next := Record(w1, n, m);
    assert forall a, x :: Claims(w1, a, x) == Claims(w, a, x);
    assert TakenByAnother(w, t, n) <==> TakesUnasked(kind, c, w, n, body) by {
      WhoIsAsked(kind, c, w, n, body, minted);
    }
    RecordingKeepsOwners(w1, n, m);
  }

  lemma WhoIsAsked(kind: Kind, c: Contract, w: World, n: Id, body: Body, minted: Id)
    requires Sound(kind, w) && NeverSeen(w, n, minted)
    requires PlanFor(kind, c, w, n, body, minted).Write?
    ensures TakenByAnother(w, PlanFor(kind, c, w, n, body, minted).id, n) <==> TakesUnasked(kind, c, w, n, body)
  {
    assert n in w.maps ==> Claims(w, n, w.maps[n].workosId);
  }

  lemma RecordingKeepsOwners(w: World, n: Id, m: Mapping)
    requires OneOwnerEach(w)
    ensures OneOwnerEach(Record(w, n, m)) <==> !TakenByAnother(w, m.workosId, n)
  {
    var next := Record(w, n, m);
    RecordingClaims(w, n, m, n, m.workosId);
    if TakenByAnother(w, m.workosId, n) {
      var b :| b != n && Claims(w, b, m.workosId);
      RecordingClaims(w, n, m, b, m.workosId);
    } else {
      forall a, b, x | Claims(next, a, x) && Claims(next, b, x)
        ensures a == b
      {
        RecordingClaims(w, n, m, a, x);
        RecordingClaims(w, n, m, b, x);
      }
    }
  }

  /** It happens: `n` is mapped to `x`, whose row is gone, and `b` is mapped to `n`. A server that adopts
      migrated ids gives `n` the row `b` owns. */
  lemma RecoveryTakesAnothersId(kind: Kind, n: Id, b: Id, x: Id, body: Body, minted: Id)
    requires n != b && n != x && b != x && minted !in {n, b, x} && NameOf(kind, body).Some?
    ensures var w := World(map[], map[n := Mapping(x, FallbackPost), b := Mapping(n, FallbackPost)], None);
      && Sound(kind, w) && NeverSeen(w, n, minted) && TakesUnasked(kind, PostCreate, w, n, body)
      && After(kind, PostCreate, w, n, body, minted).1 == Ok(n, true)
      && !OneOwnerEach(After(kind, PostCreate, w, n, body, minted).0)
  {
    var w := World(map[], map[n := Mapping(x, FallbackPost), b := Mapping(n, FallbackPost)], None);
    assert Claims(w, b, n);
    assert PlanFor(kind, PostCreate, w, n, body, minted) == Write(n, true);
    NeverTakesAnothersRow(kind, PostCreate, w, n, body, minted);
  }

  // ---------------------------------------------------------------- running it again

  /** Repeating an ok run whose mapping is recorded adds no row and changes nothing, unless that
      run took its row unasked: then the id has two owners and the next run throws. */
  lemma RerunChangesNothing(kind: Kind, c: Contract, w: World, n: Id, body: Body, minted: Id, other: Id)
    requires Sound(kind, w) && NeverSeen(w, n, minted) && w.sink.None?
    requires PlanFor(kind, c, w, n, body, minted).Write?
    ensures var (next, outcome) := After(kind, c, w, n, body, minted);
      After(kind, c, next, n, body, other) == (next, if TakesUnasked(kind, c, w, n, body) then Threw
        else Ok(outcome.id, false))
  {
    var (next, outcome) := After(kind, c, w, n, body, minted);
    var t := outcome.id;
    OkIsStoredWhereMapped(kind, c, w, n, body, minted);
    NeverTakesAnothersRow(kind, c, w, n, body, minted);
    assert next.maps[n].workosId == t && next.rows[t] == body;
    if TakesUnasked(kind, c, w, n, body) {
      var b :| b != n && Claims(w, b, t);
      assert b in next.maps && next.maps[b].workosId == t;
      assert Ambiguous(next.maps, t);
    } else {
      assert Claims(next, n, t);
      assert !Ambiguous(next.maps, t) by {
        if Ambiguous(next.maps, t) {
          var a, b :| a in next.maps && b in next.maps && a != b && next.maps[a].workosId == t &&
            next.maps[b].workosId == t;
          assert Claims(next, a, t) && Claims(next, b, t);
        }
      }
      assert PlanFor(kind, c, next, n, body, other) == Write(t, false);
      assert next.rows[t := body] == next.rows;
      assert next.maps[n := next.maps[n]] == next.maps;
    }
  }

  /** The server minted an id for a native id that was mapped elsewhere, while a row of another
      name sits under the native id itself. */
  ghost predicate MintedBesideAnother(kind: Kind, c: Contract, w: World, n: Id, body: Body) {
    && c.Minting? && n in w.rows && n in w.maps && w.maps[n].workosId !in w.rows
    && NameOf(kind, body).Some? && Holder(kind, w.rows, NameOf(kind, body).value) == None
  }

  /** It happens: `n` is mapped to `x`, whose row is gone, and an unrelated row sits under `n`. Cut off
      after minting, the next run finds the name taken and its own row out of reach. */
  lemma MintedRowIsLost(kind: Kind, n: Id, x: Id, body: Body, neighbour: Body, minted: Id, other: Id)
    requires n != x && minted !in {n, x} && NameOf(kind, body).Some? && NameOf(kind, neighbour).Some?
    requires Lower(NameOf(kind, body).value) != Lower(NameOf(kind, neighbour).value)
    ensures var w := World(map[n := neighbour], map[n := Mapping(x, FallbackPost)], None);
      && Sound(kind, w) && NeverSeen(w, n, minted) && MintedBesideAnother(kind, Minting, w, n, body)
      && After(kind, Minting, w, n, body, minted).1 == Ok(minted, true)
      && var rows := After(kind, Minting, w, n, body, minted).0.rows;
      After(kind, Minting, World(rows, w.maps, None), n, body, other) == (World(rows, w.maps, None), Failed(409))
  {
    var w := World(map[n := neighbour], map[n := Mapping(x, FallbackPost)], None);
    assert PlanFor(kind, Minting, w, n, body, minted) == Write(minted, true);
    CutOffPlan(kind, Minting, w, n, body, minted, other, None);
  }

  /** A run cut off after its write to WorkOS but before the mapping was stored (`sink` is whatever
      queue is left): running it again finds the very same row and maps it, with one exception,
      where the row it minted can no longer be found. */
  lemma CutOffRunConverges(kind: Kind, c: Contract, w: World, n: Id, body: Body, minted: Id, other: Id,
        sink: Option<seq<Queued>>)
    requires Sound(kind, w) && NeverSeen(w, n, minted)
    requires PlanFor(kind, c, w, n, body, minted).Write?
    requires sink in {None, w.sink, After(kind, c, w, n, body, minted).0.sink}
    ensures var (next, outcome) := After(kind, c, w, n, body, minted);
      && var (again, o) := After(kind, c, World(next.rows, w.maps, sink), n, body, other);
      && again.rows == next.rows
      && (o == Ok(outcome.id, false) <==> !MintedBesideAnother(kind, c, w, n, body))
      && (o.Ok? <==> !MintedBesideAnother(kind, c, w, n, body))
      && (o.Ok? ==> n in Flushed(again) && Flushed(again)[n].workosId == outcome.id)
  {
    var (next, outcome) := After(kind, c, w, n, body, minted);
    var t := outcome.id;
    var cut := World(next.rows, w.maps, sink);
    OkIsStoredWhereMapped(kind, c, w, n, body, minted);
    CutOffPlan(kind, c, w, n, body, minted, other, sink);
    if !MintedBesideAnother(kind, c, w, n, body) {
      assert next.rows[t := body] == next.rows;
      RecordingFlushes(cut, n, Mapping(t, StrategyFor(cut, n, t)));
    }
  }

  /** Owners as the cut-off run left them: nobody new, but for the queued row of its own. */
  lemma CutOffClaims(kind: Kind, c: Contract, w: World, n: Id, body: Body, minted: Id, sink: Option<seq<Queued>>, x: Id)
    requires PlanFor(kind, c, w, n, body, minted).Write?
    requires sink in {None, w.sink, After(kind, c, w, n, body, minted).0.sink}
    ensures var next := After(kind, c, w, n, body, minted).0;
      TakenByAnother(World(next.rows, w.maps, sink), x, n) ==> TakenByAnother(w, x, n)
  {
    var t := PlanFor(kind, c, w, n, body, minted).id;
    var next := After(kind, c, w, n, body, minted).0;
    var cut := World(next.rows, w.maps, sink);
    if TakenByAnother(cut, x, n) {
      var b :| b != n && Claims(cut, b, x);
      RecordingClaims(w.(rows := next.rows), n, Mapping(t, StrategyFor(w, n, t)), b, x);
      assert Claims(w, b, x);
    }
  }

  lemma CutOffPlan(kind: Kind, c: Contract, w: World, n: Id, body: Body, minted: Id, other: Id,
        sink: Option<seq<Queued>>)
    requires Sound(kind, w) && NeverSeen(w, n, minted)
    requires PlanFor(kind, c, w, n, body, minted).Write?
    requires sink in {None, w.sink, After(kind, c, w, n, body, minted).0.sink}
    ensures var (next, outcome) := After(kind, c, w, n, body, minted);
      PlanFor(kind, c, World(next.rows, w.maps, sink), n, body, other)
      == if MintedBesideAnother(kind, c, w, n, body) then Refuse(Failed(409)) else Write(outcome.id, false)
  {
    var t := PlanFor(kind, c, w, n, body, minted).id;
    var cut := World(w.rows[t := body], w.maps, sink);
    NameIsFree(kind, c, w, n, body, minted);
    WritingStores(kind, w, n, body, t);
    CutOffClaims(kind, c, w, n, body, minted, sink, Base(w, n));
    CutOffClaims(kind, c, w, n, body, minted, sink, t);
    WhoIsAsked(kind, c, w, n, body, minted);
    NotAmbiguous(w, Base(w, n));
    NotAmbiguous(w, t);
    PlanAgain(kind, c, w, cut, n, body, minted, other, t);
  }

  lemma PlanAgain(kind: Kind, c: Contract, w: World, cut: World, n: Id, body: Body, minted: Id, other: Id, t: Id)
    requires NeverSeen(w, n, minted) && HonestStrategies(w)
    requires PlanFor(kind, c, w, n, body, minted) == Write(t, t !in w.rows) && NameOf(kind, body).Some?
    requires cut.rows == w.rows[t := body] && cut.maps == w.maps
    requires Holder(kind, cut.rows, NameOf(kind, body).value) == Some(t)
    requires !TakenByAnother(cut, Base(w, n), n) && !Ambiguous(w.maps, Base(w, n)) && !Ambiguous(w.maps, t)
    requires TakenByAnother(cut, t, n) ==> TakesUnasked(kind, c, w, n, body)
    ensures PlanFor(kind, c, cut, n, body, other)
            == if MintedBesideAnother(kind, c, w, n, body) then Refuse(Failed(409)) else Write(t, false)
  {
  }

  lemma NotAmbiguous(w: World, id: Id)
    requires OneOwnerEach(w)
    ensures !Ambiguous(w.maps, id)
  {
    if Ambiguous(w.maps, id) {
      var a, b :| a in w.maps && b in w.maps && a != b && w.maps[a].workosId == id && w.maps[b].workosId == id;
      assert Claims(w, a, id) && Claims(w, b, id);
    }
  }

  // ---------------------------------------------------------------- any run of mirrors

  datatype Call = Call(n: Id, body: Body, minted: Id)

  ghost function Run(kind: Kind, c: Contract, w: World, calls: seq<Call>): World {
    if calls == [] then w
    else
      var last := calls[|calls| - 1];
      After(kind, c, Run(kind, c, w, calls[..|calls| - 1]), last.n, last.body, last.minted).0
  }

  /** The id spaces are separate for this call: its native id is not the WorkOS id of another. */
  ghost predicate Separated(w: World, call: Call) {
    NeverSeen(w, call.n, call.minted) && !TakenByAnother(w, call.n, call.n)
  }

  ghost predicate AllSeparated(kind: Kind, c: Contract, w: World, calls: seq<Call>) {
    calls != [] ==>
      var n := |calls| - 1;
      AllSeparated(kind, c, w, calls[..n]) && Separated(Run(kind, c, w, calls[..n]), calls[n])
  }

  lemma CallStaysSound(kind: Kind, c: Contract, w: World, call: Call)
    requires Sound(kind, w) && Separated(w, call)
    ensures Sound(kind, After(kind, c, w, call.n, call.body, call.minted).0)
  {
    NamesStayUnique(kind, c, w, call.n, call.body, call.minted);
    if PlanFor(kind, c, w, call.n, call.body, call.minted).Write? {
      NeverTakesAnothersRow(kind, c, w, call.n, call.body, call.minted);
    }
  }

  /** With separate id spaces, every run of mirrors keeps one owner per WorkOS id, stored and queued
      rows together, and keeps "migrated-id means equal ids". */
  lemma {:induction false} RunsStaySound(kind: Kind, c: Contract, w: World, calls: seq<Call>)
    requires Sound(kind, w) && AllSeparated(kind, c, w, calls)
    ensures Sound(kind, Run(kind, c, w, calls))
  {
    if calls != [] {
      var n := |calls| - 1;
      RunsStaySound(kind, c, w, calls[..n]);
      CallStaysSound(kind, c, Run(kind, c, w, calls[..n]), calls[n]);
    }
  }
}
