// The backfill replays native snapshots into WorkOS. It queues id mappings and flushes them per
// hundred, and once more before group members are translated. When the outcome is that of writing
// each mapping at once, and what holds when it is not.

module Backfill {
  import opened Common
  import opened IdMaps
  import opened MirrorUpsert
  import opened ScimJson
  import Safety = MirrorSafety

  const MAPPING_FLUSH_SIZE := 100

  /** A snapshot row. `shared`: another directory fronts the same native app when the row's turn
      comes. `minted` is the id the server would make up for it. */
  datatype Item = Item(id: Option<Id>, raw: Body, shared: bool, minted: Id)

  // ---------------------------------------------------------------- writing each mapping at once

  ghost function ReplayOne(kind: Kind, c: Contract, w: World, item: Item): (World, bool) {
    if item.id.None? || (item.id.value !in w.maps && item.shared) then (w, false)
    else
      var (next, outcome) := After(kind, c, w, item.id.value, Outgoing(item.raw), item.minted);
      (next, outcome.Ok?)
  }

  /** The rows and mappings after the whole list, and how many items were mirrored. */
  ghost function Replay(kind: Kind, c: Contract, w: World, items: seq<Item>): (World, nat) {
    if items == [] then (w, 0)
    else
      var (before, n) := Replay(kind, c, w, items[..|items| - 1]);
      var (next, ok) := ReplayOne(kind, c, before, items[|items| - 1]);
      (next, if ok then n + 1 else n)
  }

  // ---------------------------------------------------------------- what the refinement rests on

  /** A snapshot the server's own paging could return: no native id twice. */
  ghost predicate DistinctIds(items: seq<Item>) {
    forall i, j :: 0 <= i < j < |items| && items[i].id.Some? ==> items[i].id != items[j].id
  }

  /** No native id of the snapshot spells the WorkOS id of another's mapping. */
  ghost predicate Separate(maps: MappingTable, items: seq<Item>) {
    forall a, i :: a in maps && 0 <= i < |items| && items[i].id == Some(maps[a].workosId) ==> a == maps[a].workosId
  }

  /** Ids the server makes up are new to everybody. */
  ghost predicate NewMints(w: World, items: seq<Item>) {
    && (forall i :: 0 <= i < |items| ==> items[i].minted !in w.rows)
    && (forall i, a :: 0 <= i < |items| && a in w.maps ==> w.maps[a].workosId != items[i].minted)
    && (forall i, j :: 0 <= i < |items| && 0 <= j < |items| ==> items[j].id != Some(items[i].minted))
    && (forall i, j :: 0 <= i < j < |items| ==> items[i].minted != items[j].minted)
  }

  ghost predicate Replayable(kind: Kind, w: World, items: seq<Item>) {
    UniqueNames(kind, w.rows) && DistinctIds(items) && NewMints(w, items)
  }

  // ---------------------------------------------------------------- how far the queue lags behind

  ghost predicate Done(items: seq<Item>, k: nat, a: Id)
    requires k <= |items|
  {
    exists i :: 0 <= i < k && items[i].id == Some(a)
  }

  ghost predicate SameOnceFlushed(i: World, b: World) {
    i.sink.None? && b.sink.Some? && b.rows == i.rows && Flushed(b) == i.maps
  }

  /** The mappings of items still to come are as they were. */
  ghost predicate Untouched(maps: MappingTable, start: World, items: seq<Item>, k: nat)
    requires k <= |items|
  {
    forall a :: !Done(items, k, a) ==> Get(maps, a) == Get(start.maps, a)
  }

  /** The queue holds items done, once each, whose stored mappings are as they were. */
  ghost predicate QueuesDone(b: World, start: World, items: seq<Item>, k: nat)
    requires k <= |items| && b.sink.Some?
  {
    && (forall q :: q in b.sink.value ==>
      Done(items, k, q.nativeId) && Get(b.maps, q.nativeId) == Get(start.maps, q.nativeId))
    && (forall j, l :: 0 <= j < l < |b.sink.value| ==> b.sink.value[j].nativeId != b.sink.value[l].nativeId)
  }

  /** Some other native id, done by now, is mapped to this WorkOS id at once. */
  ghost predicate Retaken(i: World, items: seq<Item>, k: nat, a: Id, x: Id)
    requires k <= |items|
  {
    exists d :: d != a && Done(items, k, d) && d in i.maps && i.maps[d].workosId == x
  }

  /** The row this native id moved away from is gone, or somebody else's by now, and nobody still to
      come is mapped to it. */
  ghost predicate LeftBehind(i: World, start: World, items: seq<Item>, k: nat, a: Id)
    requires k <= |items| && a in start.maps
  {
    var x := start.maps[a].workosId;
    OwnedAlone(start, items, k, a) && (x !in i.rows || Retaken(i, items, k, a, x))
  }

  /** So it is with every queued mapping that supersedes a stored one. */
  ghost predicate Vacated(i: World, b: World, start: World, items: seq<Item>, k: nat)
    requires k <= |items| && b.sink.Some?
  {
    forall q :: q in b.sink.value && Moved(i, start, q.nativeId) ==> LeftBehind(i, start, items, k, q.nativeId)
  }

  /** Rows come from where they can come from. */
  ghost predicate Comes(id: Id, start: World, items: seq<Item>, k: nat)
    requires k <= |items|
  {
    id in start.rows || Done(items, k, id) || exists j :: 0 <= j < k && items[j].minted == id
  }

  ghost predicate Known(rows: Rows, start: World, items: seq<Item>, k: nat)
    requires k <= |items|
  {
    forall id :: id in rows ==> Comes(id, start, items, k)
  }

  /** `i` wrote each mapping at once, `b` queues them; both started from `start`, `k` items ago. */
  ghost predicate Lags(i: World, b: World, start: World, items: seq<Item>, k: nat)
    requires k <= |items|
  {
    && SameOnceFlushed(i, b) && Untouched(i.maps, start, items, k) && Untouched(b.maps, start, items, k)
    && QueuesDone(b, start, items, k) && Vacated(i, b, start, items, k) && Known(i.rows, start, items, k)
  }

  /** Nobody whose turn is still to come started with the same WorkOS id. */
  ghost predicate OwnedAlone(start: World, items: seq<Item>, k: nat, a: Id)
    requires k <= |items| && a in start.maps
  {
    forall b :: b in start.maps && b != a && start.maps[b].workosId == start.maps[a].workosId ==> Done(items, k, b)
  }

  /** Recovery gave this native id another WorkOS row than it started with. */
  predicate Moved(i: World, start: World, a: Id) {
    a in start.maps && a in i.maps && i.maps[a].workosId != start.maps[a].workosId
  }

  lemma {:induction false} OverlayAt(maps: MappingTable, queue: seq<Queued>, a: Id)
    requires forall j, l :: 0 <= j < l < |queue| ==> queue[j].nativeId != queue[l].nativeId
    ensures forall j :: 0 <= j < |queue| && queue[j].nativeId == a ==>
      Get(Overlay(maps, queue), a) == Some(queue[j].mapping)
    ensures (forall j :: 0 <= j < |queue| ==> queue[j].nativeId != a) ==> Get(Overlay(maps, queue), a) == Get(maps, a)
  {
    if queue != [] {
      OverlayAt(maps, queue[..|queue| - 1], a);
    }
  }

  /** A queued mapping takes this stored WorkOS id from this native id, but is not flushed yet. */
  ghost predicate Superseded(b: World, a: Id, x: Id) {
    && a in b.maps && b.maps[a].workosId == x
    && b.sink.Some? && exists j ::
         0 <= j < |b.sink.value| && b.sink.value[j].nativeId == a && b.sink.value[j].mapping.workosId != x
  }

  /** An unmapped native id that spells such a WorkOS id. */
  ghost predicate SpellsSuperseded(b: World, n: Id) {
    n !in b.maps && exists a :: a != n && Superseded(b, a, n)
  }

  /** A superseded mapping decides a claim in one case only: the item's own id spells it. */
  lemma SameOwners(i: World, b: World, start: World, items: seq<Item>, k: nat, x: Id)
    requires k < |items| && items[k].id.Some? && Lags(i, b, start, items, k) && !Done(items, k, items[k].id.value)
    requires x == Base(start, items[k].id.value) || x in i.rows
    ensures var n := items[k].id.value;
      TakenByAnother(b, x, n) <==> TakenByAnother(i, x, n) || (x == n && SpellsSuperseded(b, n))
  {
    var n, queue := items[k].id.value, b.sink.value;
    if TakenByAnother(i, x, n) {
      var a :| a != n && Claims(i, a, x);
      OverlayAt(b.maps, queue, a);
      assert Claims(b, a, x);
    }
    if x == n && SpellsSuperseded(b, n) {
      var a :| a != n && Superseded(b, a, n);
      assert Claims(b, a, x);
    }
    if TakenByAnother(b, x, n) {
      var a :| a != n && Claims(b, a, x);
      if !Claims(i, a, x) {
        StoredAndSuperseded(i, b, start, items, k, a, x);
        SupersededIsSpelled(i, b, start, items, k, a, x);
      }
    }
  }

  lemma StoredAndSuperseded(i: World, b: World, start: World, items: seq<Item>, k: nat, a: Id, x: Id)
    requires k < |items| && Lags(i, b, start, items, k) && Claims(b, a, x) && !Claims(i, a, x)
    ensures Superseded(b, a, x) && Moved(i, start, a) && start.maps[a].workosId == x &&
      LeftBehind(i, start, items, k, a)
  {
    var queue := b.sink.value;
    OverlayAt(b.maps, queue, a);
    var j :| 0 <= j < |queue| && queue[j].nativeId == a;
    assert queue[j] in queue;
  }

  lemma SupersededIsSpelled(i: World, b: World, start: World, items: seq<Item>, k: nat, a: Id, x: Id)
    requires k < |items| && items[k].id.Some? && Lags(i, b, start, items, k) && !Done(items, k, items[k].id.value)
    requires var n := items[k].id.value; a != n && (x == Base(start, n) || x in i.rows)
    requires Superseded(b, a, x) && a in start.maps && start.maps[a].workosId == x && LeftBehind(i, start, items, k, a)
    ensures var n := items[k].id.value; TakenByAnother(i, x, n) || (x == n && SpellsSuperseded(b, n))
  {
    var n := items[k].id.value;
    if Retaken(i, items, k, a, x) {
      var d :| d != a && Done(items, k, d) && d in i.maps && i.maps[d].workosId == x;
      assert Claims(i, d, x);
    } else {
      assert Get(b.maps, n) == Get(start.maps, n);
    }
  }

  lemma TwoOwnersTakeIt(w: World, x: Id, n: Id)
    ensures Ambiguous(w.maps, x) ==> TakenByAnother(w, x, n)
  {
    if Ambiguous(w.maps, x) {
      var a, b :| a in w.maps && b in w.maps && a != b && w.maps[a].workosId == x && w.maps[b].workosId == x;
      assert Claims(w, a, x) && Claims(w, b, x);
    }
  }

  ghost predicate SameWrite(p: Plan, q: Plan) {
    p == q || (p.Refuse? && q.Refuse?)
  }

  lemma SameCreate(c: Contract, i: World, b: World, n: Id, holder: Option<Id>, minted: Id)
    requires i.rows == b.rows
    requires holder.Some? ==> (TakenByAnother(i, holder.value, n) <==> TakenByAnother(b, holder.value, n))
    ensures SameWrite(CreatePlan(c, i, n, holder, minted), CreatePlan(c, b, n, holder, minted))
  {
    if holder.Some? {
      TwoOwnersTakeIt(i, holder.value, n);
      TwoOwnersTakeIt(b, holder.value, n);
    }
  }

  lemma SamePlan(kind: Kind, c: Contract, i: World, b: World, n: Id, body: Body, minted: Id)
    requires i.rows == b.rows && Get(i.maps, n) == Get(b.maps, n)
    requires forall x :: (x == Base(i, n) || x in i.rows) ==>
      (TakenByAnother(b, x, n) <==> TakenByAnother(i, x, n) || (x == n && SpellsSuperseded(b, n)))
    ensures SameWrite(PlanFor(kind, c, i, n, body, minted), PlanFor(kind, c, b, n, body, minted))
       <==> !(SpellsSuperseded(b, n) && PlanFor(kind, c, i, n, body, minted).Write?)
  {
    assert Base(i, n) == Base(b, n);
    TwoOwnersTakeIt(i, Base(i, n), n);
    TwoOwnersTakeIt(b, Base(i, n), n);
    if !SpellsSuperseded(b, n) && NameOf(kind, body).Some? {
      SameCreate(c, i, b, n, Holder(kind, i.rows, NameOf(kind, body).value), minted);
    }
  }

  /** What a write leaves: the two tables move together. */
  lemma WriteLags(i: World, b: World, start: World, items: seq<Item>, k: nat, body: Body, t: Id)
    requires k < |items| && items[k].id.Some? && Lags(i, b, start, items, k) && DistinctIds(items)
    requires t in i.rows || t == items[k].id.value || t == items[k].minted
    requires t != Base(start, items[k].id.value) ==> Base(start, items[k].id.value) !in i.rows
    requires !TakenByAnother(i, Base(start, items[k].id.value), items[k].id.value)
    ensures Lags(Written(i, items[k].id.value, body, t), Written(b, items[k].id.value, body, t), start, items, k + 1)
  {
    var n := items[k].id.value;
    assert !Done(items, k, n);
    assert Get(i.maps, n) == Get(start.maps, n) && Get(b.maps, n) == Get(start.maps, n);
    WriteVacates(i, b, start, items, k, body, t);
    RowOneMore(i.rows, start, items, k, body, t);
    DoneGrows(items, k);
    var m := Mapping(t, StrategyFor(i, n, t));
    var i2, b1 := Written(i, n, body, t), b.(rows := i.rows[t := body]);
    var b2 := Record(b1, n, m);
    assert b2 == Written(b, n, body, t);
    WriteQueues(b1, n, m);
    assert SameOnceFlushed(i2, b2);
    assert i2.maps == i.maps[n := m] && b2.maps == b.maps;
    assert Untouched(i2.maps, start, items, k + 1);
    assert Untouched(b2.maps, start, items, k + 1);
  }

  lemma WriteQueues(b: World, n: Id, m: Mapping)
    requires b.sink.Some? && forall q :: q in b.sink.value ==> q.nativeId != n
    requires forall j, l :: 0 <= j < l < |b.sink.value| ==> b.sink.value[j].nativeId != b.sink.value[l].nativeId
    ensures var next := Record(b, n, m);
      && Flushed(next) == Flushed(b)[n := m]
      && (forall q :: q in next.sink.value ==> q == Queued(n, m) || q in b.sink.value)
      && (forall j, l :: 0 <= j < l < |next.sink.value| ==> next.sink.value[j].nativeId != next.sink.value[l].nativeId)
  {
    Safety.RecordingFlushes(b, n, m);
    assert forall j :: 0 <= j < |b.sink.value| ==> b.sink.value[j] in b.sink.value;
  }

  lemma WriteVacates(i: World, b: World, start: World, items: seq<Item>, k: nat, body: Body, t: Id)
    requires k < |items| && items[k].id.Some? && Lags(i, b, start, items, k) && !Done(items, k, items[k].id.value)
    requires t != Base(start, items[k].id.value) ==> Base(start, items[k].id.value) !in i.rows
    requires !TakenByAnother(i, Base(start, items[k].id.value), items[k].id.value)
    ensures Vacated(Written(i, items[k].id.value, body, t), Written(b, items[k].id.value, body, t), start, items, k + 1)
  {
    var n := items[k].id.value;
    var next, after := Written(i, n, body, t), Written(b, n, body, t);
    forall q | q in after.sink.value && Moved(next, start, q.nativeId)
      ensures LeftBehind(next, start, items, k + 1, q.nativeId)
    {
      if q.nativeId == n {
        DoneGrows(items, k);
        NobodyToCome(i, start, items, k, n);
      } else {
        assert q in b.sink.value && Moved(i, start, q.nativeId);
        StaysBehind(i, start, items, k, q.nativeId, body, t);
      }
    }
  }

  /** A row that was left behind comes back only as the row of the item just written. */
  lemma StaysBehind(i: World, start: World, items: seq<Item>, k: nat, a: Id, body: Body, t: Id)
    requires k < |items| && items[k].id.Some? && i.sink.None? && !Done(items, k, items[k].id.value)
    requires a in start.maps && a != items[k].id.value && LeftBehind(i, start, items, k, a)
    ensures LeftBehind(Written(i, items[k].id.value, body, t), start, items, k + 1, a)
  {
    var n, x := items[k].id.value, start.maps[a].workosId;
    var next := Written(i, n, body, t);
    DoneGrows(items, k);
    if Retaken(i, items, k, a, x) {
      var d :| d != a && Done(items, k, d) && d in i.maps && i.maps[d].workosId == x;
      assert d != n && next.maps[d] == i.maps[d];
    } else if t == x {
      assert next.maps[n].workosId == x && Done(items, k + 1, n);
    }
  }

  /** An id nobody else holds now is an id nobody still to come started with. */
  lemma NobodyToCome(i: World, start: World, items: seq<Item>, k: nat, n: Id)
    requires k < |items| && items[k].id == Some(n) && n in start.maps && Untouched(i.maps, start, items, k)
    requires !TakenByAnother(i, start.maps[n].workosId, n)
    ensures OwnedAlone(start, items, k + 1, n)
  {
    DoneGrows(items, k);
    forall b | b in start.maps && b != n && start.maps[b].workosId == start.maps[n].workosId
      ensures Done(items, k, b)
    {
      if !Done(items, k, b) {
        assert Get(i.maps, b) == Get(start.maps, b) && Claims(i, b, start.maps[n].workosId);
      }
    }
  }

  lemma ComesStill(id: Id, start: World, items: seq<Item>, k: nat)
    requires k < |items|
    ensures Comes(id, start, items, k) ==> Comes(id, start, items, k + 1)
    ensures items[k].id == Some(id) || items[k].minted == id ==> Comes(id, start, items, k + 1)
  {
    DoneGrows(items, k);
    if j :| 0 <= j < k && items[j].minted == id {
      assert 0 <= j < k + 1;
    }
  }

  lemma KnownStill(rows: Rows, start: World, items: seq<Item>, k: nat)
    requires k < |items| && Known(rows, start, items, k)
    ensures Known(rows, start, items, k + 1)
  {
    forall id | id in rows
      ensures Comes(id, start, items, k + 1)
    {
      ComesStill(id, start, items, k);
    }
  }

  lemma DoneGrows(items: seq<Item>, k: nat)
    requires k < |items|
    ensures forall a :: Done(items, k + 1, a) <==> Done(items, k, a) || items[k].id == Some(a)
  {
  }

  lemma SkipLags(i: World, b: World, start: World, items: seq<Item>, k: nat)
    requires k < |items| && Lags(i, b, start, items, k)
    ensures Lags(i, b, start, items, k + 1)
  {
    DoneGrows(items, k);
    KnownStill(i.rows, start, items, k);
    forall q | q in b.sink.value && Moved(i, start, q.nativeId)
      ensures LeftBehind(i, start, items, k + 1, q.nativeId)
    {
      assert LeftBehind(i, start, items, k, q.nativeId);
    }
  }

  /** The row an item is written to, if it is mirrored at all. */
  ghost function Target(kind: Kind, c: Contract, w: World, item: Item): Option<Id> {
    if item.id.None? || (item.id.value !in w.maps && item.shared) then None
    else
      match PlanFor(kind, c, w, item.id.value, Outgoing(item.raw), item.minted)
      case Write(id, _) => Some(id)
      case Refuse(_) => None
  }

  lemma ReplayWritesTarget(kind: Kind, c: Contract, w: World, item: Item)
    ensures ReplayOne(kind, c, w, item)
            == if Target(kind, c, w, item).None? then (w, false)
               else (Written(w, item.id.value, Outgoing(item.raw), Target(kind, c, w, item).value), true)
  {
  }

  /** The queue holds an item off that would be mirrored if mappings were written at once: its id spells
      a superseded WorkOS id, and nothing else refuses it. */
  ghost predicate HeldOff(kind: Kind, c: Contract, i: World, b: World, item: Item) {
    item.id.Some? && SpellsSuperseded(b, item.id.value) && Target(kind, c, i, item).Some?
  }

  lemma SameTarget(kind: Kind, c: Contract, i: World, b: World, start: World, items: seq<Item>, k: nat)
    requires k < |items| && Lags(i, b, start, items, k) && DistinctIds(items)
    ensures Target(kind, c, i, items[k]) == Target(kind, c, b, items[k]) <==> !HeldOff(kind, c, i, b, items[k])
  {
    if items[k].id.Some? {
      SamePlanHere(kind, c, i, b, start, items, k);
    }
  }

  /** One item, in lock step: both mirror it, or both refuse it, if and only if it is not held off. */
  lemma StepsTogether(kind: Kind, c: Contract, i: World, b: World, start: World, items: seq<Item>, k: nat)
    requires k < |items| && Lags(i, b, start, items, k) && DistinctIds(items)
    ensures var r, s := ReplayOne(kind, c, i, items[k]), ReplayOne(kind, c, b, items[k]);
      r.1 == s.1 && Lags(r.0, s.0, start, items, k + 1) <==> !HeldOff(kind, c, i, b, items[k])
  {
    ReplayWritesTarget(kind, c, i, items[k]);
    ReplayWritesTarget(kind, c, b, items[k]);
    SameTarget(kind, c, i, b, start, items, k);
    if HeldOff(kind, c, i, b, items[k]) {
      SamePlanHere(kind, c, i, b, start, items, k);
      assert Target(kind, c, b, items[k]).None?;
    } else {
      LagsOn(kind, c, i, b, start, items, k);
    }
  }

  lemma LagsOn(kind: Kind, c: Contract, i: World, b: World, start: World, items: seq<Item>, k: nat)
    requires k < |items| && Lags(i, b, start, items, k) && DistinctIds(items)
    requires Target(kind, c, i, items[k]) == Target(kind, c, b, items[k])
    ensures Lags(ReplayOne(kind, c, i, items[k]).0, ReplayOne(kind, c, b, items[k]).0, start, items, k + 1)
  {
    ReplayWritesTarget(kind, c, i, items[k]);
    ReplayWritesTarget(kind, c, b, items[k]);
    var t := Target(kind, c, i, items[k]);
    if t.Some? {
      SamePlanHere(kind, c, i, b, start, items, k);
      WritesWhere(kind, c, i, items[k].id.value, Outgoing(items[k].raw), items[k].minted);
      WriteLags(i, b, start, items, k, Outgoing(items[k].raw), t.value);
    } else {
      SkipLags(i, b, start, items, k);
    }
  }

  lemma SamePlanHere(kind: Kind, c: Contract, i: World, b: World, start: World, items: seq<Item>, k: nat)
    requires k < |items| && items[k].id.Some? && Lags(i, b, start, items, k) && DistinctIds(items)
    ensures var n, body, minted := items[k].id.value, Outgoing(items[k].raw), items[k].minted;
      && (SameWrite(PlanFor(kind, c, i, n, body, minted), PlanFor(kind, c, b, n, body, minted))
          <==> !(SpellsSuperseded(b, n) && PlanFor(kind, c, i, n, body, minted).Write?))
      && (SpellsSuperseded(b, n) ==> PlanFor(kind, c, b, n, body, minted).Refuse?)
      && Get(i.maps, n) == Get(start.maps, n) && Get(b.maps, n) == Get(start.maps, n)
  {
    var n := items[k].id.value;
    assert !Done(items, k, n);
    assert Base(i, n) == Base(start, n);
    forall x | x == Base(i, n) || x in i.rows
      ensures TakenByAnother(b, x, n) <==> TakenByAnother(i, x, n) || (x == n && SpellsSuperseded(b, n))
    {
      SameOwners(i, b, start, items, k, x);
    }
    SamePlan(kind, c, i, b, n, Outgoing(items[k].raw), items[k].minted);
  }

  lemma WritesWhere(kind: Kind, c: Contract, w: World, n: Id, body: Body, minted: Id)
    requires PlanFor(kind, c, w, n, body, minted).Write?
    ensures var t := PlanFor(kind, c, w, n, body, minted).id;
      && (t in w.rows || t == n || t == minted)
      && (t != Base(w, n) ==> Base(w, n) !in w.rows)
      && !TakenByAnother(w, Base(w, n), n)
  {
  }

  lemma FlushingCatchesUp(i: World, b: World, start: World, items: seq<Item>, k: nat, flush: Flush)
    requires k <= |items| && Lags(i, b, start, items, k) && Named(b, flush) == []
    ensures Lags(i, AfterFlush(b, flush), start, items, k)
  {
  }

  /** The server's name rule and fresh ids hold all along the replay. */
  lemma StaysServable(kind: Kind, c: Contract, w: World, start: World, items: seq<Item>, k: nat)
    requires k < |items| && Replayable(kind, start, items)
    requires UniqueNames(kind, w.rows) && Known(w.rows, start, items, k)
    ensures UniqueNames(kind, ReplayOne(kind, c, w, items[k]).0.rows)
  {
    MintedIsNew(w.rows, start, items, k);
    if items[k].id.Some? {
      var n, body := items[k].id.value, Outgoing(items[k].raw);
      if PlanFor(kind, c, w, n, body, items[k].minted).Write? {
        Safety.NamesStayUnique(kind, c, w, n, body, items[k].minted);
      }
    }
  }

  lemma MintedIsNew(rows: Rows, start: World, items: seq<Item>, k: nat)
    requires k < |items| && NewMints(start, items) && Known(rows, start, items, k)
    ensures items[k].minted !in rows
  {
  }

  // ---------------------------------------------------------------- what a lost flush costs

  /** How a flush ends: its one batch is stored and acknowledged, stored, or not stored. */
  datatype Flush = Stored | StoredUnacknowledged | NotStored

  /** The queue holds what this run wrote, each once. */
  ghost predicate QueuesWrites(queue: seq<Queued>, wrote: map<Id, Mapping>) {
    && (forall q :: q in queue ==> Wrote(wrote, q))
    && (forall j, l :: 0 <= j < l < |queue| ==> queue[j].nativeId != queue[l].nativeId)
  }

  ghost predicate Wrote(wrote: map<Id, Mapping>, q: Queued) {
    q.nativeId in wrote && wrote[q.nativeId] == q.mapping
  }

  /** Every mapping this run made is in the table once the queue is flushed, or named as lost;
      every other mapping is as it was. */
  ghost predicate MappedOrNamed(final: MappingTable, start: MappingTable, lost: seq<Queued>, wrote: map<Id, Mapping>) {
    && (forall n :: n in wrote ==> Get(final, n) == Some(wrote[n]) || Queued(n, wrote[n]) in lost)
    && (forall n :: n !in wrote ==> Get(final, n) == Get(start, n))
    && (forall q :: q in lost ==> Wrote(wrote, q))
  }

  /** The books of a run, whatever became of its flushes. */
  ghost predicate Balanced(kind: Kind, b: World, start: World, items: seq<Item>, k: nat, lost: seq<Queued>,
        wrote: map<Id, Mapping>)
    requires k <= |items|
  {
    && b.sink.Some? && UniqueNames(kind, b.rows) && Known(b.rows, start, items, k)
    && MappedOrNamed(Flushed(b), start.maps, lost, wrote) && QueuesWrites(b.sink.value, wrote)
    && (forall n :: n in wrote ==> Done(items, k, n) && wrote[n].workosId in b.rows)
  }

  lemma BalancedSkip(kind: Kind, b: World, start: World, items: seq<Item>, k: nat, lost: seq<Queued>,
        wrote: map<Id, Mapping>)
    requires k < |items| && Balanced(kind, b, start, items, k, lost, wrote)
    ensures Balanced(kind, b, start, items, k + 1, lost, wrote)
  {
    DoneGrows(items, k);
    KnownStill(b.rows, start, items, k);
  }

  lemma BalancedWrite(kind: Kind, b: World, start: World, items: seq<Item>, k: nat, lost: seq<Queued>,
        wrote: map<Id, Mapping>, body: Body, t: Id)
    requires k < |items| && items[k].id.Some? && Balanced(kind, b, start, items, k, lost, wrote) && DistinctIds(items)
    requires t in b.rows || t == items[k].id.value || t == items[k].minted
    requires UniqueNames(kind, b.rows[t := body])
    ensures var n := items[k].id.value;
      n !in wrote && Balanced(kind, Written(b, n, body, t), start, items, k + 1, lost,
        wrote[n := Mapping(t, StrategyFor(b, n, t))])
  {
    var n, m := items[k].id.value, Mapping(t, StrategyFor(b, items[k].id.value, t));
    assert !Done(items, k, n);
    DoneGrows(items, k);
    RowOneMore(b.rows, start, items, k, body, t);
    QueuesOneMore(b.(rows := b.rows[t := body]), wrote, n, m);
    NamesOneMore(Flushed(b), start.maps, lost, wrote, n, m);
  }

  lemma RowOneMore(rows: Rows, start: World, items: seq<Item>, k: nat, body: Body, t: Id)
    requires k < |items| && Known(rows, start, items, k)
    requires t in rows || items[k].id == Some(t) || t == items[k].minted
    ensures Known(rows[t := body], start, items, k + 1)
  {
    KnownStill(rows, start, items, k);
    ComesStill(t, start, items, k);
  }

  lemma QueuesOneMore(b: World, wrote: map<Id, Mapping>, n: Id, m: Mapping)
    requires b.sink.Some? && QueuesWrites(b.sink.value, wrote) && n !in wrote
    ensures Flushed(Record(b, n, m)) == Flushed(b)[n := m]
    ensures QueuesWrites(Record(b, n, m).sink.value, wrote[n := m])
  {
    assert forall q :: q in b.sink.value ==> Wrote(wrote, q);
    WriteQueues(b, n, m);
  }

  lemma NamesOneMore(final: MappingTable, start: MappingTable, lost: seq<Queued>, wrote: map<Id, Mapping>, n: Id,
        m: Mapping)
    requires MappedOrNamed(final, start, lost, wrote) && n !in wrote
    ensures MappedOrNamed(final[n := m], start, lost, wrote[n := m])
  {
    assert forall q :: q in lost ==> q.nativeId != n;
  }

  /** One item, in a run whose flushes may have failed. */
  lemma BalancedStep(kind: Kind, c: Contract, b: World, start: World, items: seq<Item>, k: nat, lost: seq<Queued>,
        wrote: map<Id, Mapping>)
    returns (next: map<Id, Mapping>)
    requires k < |items| && Balanced(kind, b, start, items, k, lost, wrote) && Replayable(kind, start, items)
    ensures Balanced(kind, ReplayOne(kind, c, b, items[k]).0, start, items, k + 1, lost, next)
    ensures |next| == if ReplayOne(kind, c, b, items[k]).1 then |wrote| + 1 else |wrote|
  {
    ReplayWritesTarget(kind, c, b, items[k]);
    if Target(kind, c, b, items[k]).Some? {
      next := BalancedMirror(kind, c, b, start, items, k, lost, wrote);
    } else {
      BalancedSkip(kind, b, start, items, k, lost, wrote);
      next := wrote;
    }
  }

  lemma BalancedMirror(kind: Kind, c: Contract, b: World, start: World, items: seq<Item>, k: nat, lost: seq<Queued>,
        wrote: map<Id, Mapping>)
    returns (next: map<Id, Mapping>)
    requires k < |items| && Balanced(kind, b, start, items, k, lost, wrote) && Replayable(kind, start, items)
    requires Target(kind, c, b, items[k]).Some?
    ensures var after := Written(b, items[k].id.value, Outgoing(items[k].raw), Target(kind, c, b, items[k]).value);
      Balanced(kind, after, start, items, k + 1, lost, next) && |next| == |wrote| + 1
  {
    var n, body, t := items[k].id.value, Outgoing(items[k].raw), Target(kind, c, b, items[k]).value;
    StaysServable(kind, c, b, start, items, k);
    ReplayWritesTarget(kind, c, b, items[k]);
    WritesWhere(kind, c, b, n, body, items[k].minted);
    BalancedWrite(kind, b, start, items, k, lost, wrote, body, t);
    next := wrote[n := Mapping(t, StrategyFor(b, n, t))];
  }

  /** The table after a flush, and what its error lines name. */
  function AfterFlush(b: World, flush: Flush): World
    requires b.sink.Some?
  {
    World(b.rows, if flush.NotStored? then b.maps else Flushed(b), Some([]))
  }

  function Named(b: World, flush: Flush): seq<Queued>
    requires b.sink.Some?
  {
    if flush.Stored? then [] else b.sink.value
  }

  lemma BalancedFlush(kind: Kind, b: World, start: World, items: seq<Item>, k: nat, lost: seq<Queued>,
        wrote: map<Id, Mapping>, flush: Flush)
    requires k <= |items| && Balanced(kind, b, start, items, k, lost, wrote)
    ensures Balanced(kind, AfterFlush(b, flush), start, items, k, lost + Named(b, flush), wrote)
  {
    var queue := b.sink.value;
    forall n
      ensures Get(Flushed(b), n) == Get(b.maps, n) || (n in wrote && Queued(n, wrote[n]) in queue)
    {
      OverlayAt(b.maps, queue, n);
      if j :| 0 <= j < |queue| && queue[j].nativeId == n {
        assert queue[j] in queue;
      }
    }
    assert Overlay(AfterFlush(b, flush).maps, []) == AfterFlush(b, flush).maps;
  }

  // ---------------------------------------------------------------- the batched run

  /** `i` and `n` are where writing each mapping at once is after the first `k` items. */
  ghost predicate Level(kind: Kind, c: Contract, i: World, n: nat, b: World, start: World, items: seq<Item>, k: nat)
    requires k <= |items|
  {
    Lags(i, b, start, items, k) && UniqueNames(kind, i.rows) && Replay(kind, c, start, items[..k]) == (i, n)
  }

  /** At this item the two runs part: level so far, and the queue holds it off. */
  ghost predicate Parts(kind: Kind, c: Contract, start: World, items: seq<Item>, k: nat) {
    k < |items| && exists i, n, b :: Level(kind, c, i, n, b, start, items, k) && HeldOff(kind, c, i, b, items[k])
  }

  /** They part only over a native id that spells the WorkOS id another one was mapped to. */
  lemma PartsOverASpelling(kind: Kind, c: Contract, start: World, items: seq<Item>, k: nat)
    requires Parts(kind, c, start, items, k)
    ensures !Separate(start.maps, items)
  {
    var i, n, b :| Level(kind, c, i, n, b, start, items, k) && HeldOff(kind, c, i, b, items[k]);
    SupersededFromTheStart(b, start, items, k, items[k].id.value);
  }

  lemma SupersededFromTheStart(b: World, start: World, items: seq<Item>, k: nat, n: Id)
    requires k <= |items| && b.sink.Some? && QueuesDone(b, start, items, k) && SpellsSuperseded(b, n)
    ensures exists a :: a != n && a in start.maps && start.maps[a].workosId == n
  {
    var a :| a != n && Superseded(b, a, n);
    var j :| 0 <= j < |b.sink.value| && b.sink.value[j].nativeId == a;
    assert b.sink.value[j] in b.sink.value;
  }

  ghost predicate PartedWhere(kind: Kind, c: Contract, start: World, items: seq<Item>, parted: Option<nat>) {
    parted.Some? ==> Parts(kind, c, start, items, parted.value)
  }

  /** How a run stands after its first items: what it wrote, where writing at once would be, and the
      item at which the two parted. */
  datatype Course = Course(wrote: map<Id, Mapping>, immediate: World, parted: Option<nat>)

  /** The first `k` items are accounted for, and level with the immediate run unless a flush was lost
      or the runs have parted. */
  ghost predicate RunsAt(kind: Kind, c: Contract, b: World, start: World, items: seq<Item>, k: nat, lost: seq<Queued>,
      mirrored: nat, course: Course)
    requires k <= |items|
  {
    && Balanced(kind, b, start, items, k, lost, course.wrote) && mirrored == |course.wrote|
    && (lost == [] && course.parted.None? ==> Level(kind, c, course.immediate, mirrored, b, start, items, k))
  }

  lemma RunsOn(kind: Kind, c: Contract, b: World, start: World, items: seq<Item>, k: nat, lost: seq<Queued>,
      mirrored: nat, course: Course) returns (next: Course)
    requires k < |items| && Replayable(kind, start, items)
    requires RunsAt(kind, c, b, start, items, k, lost, mirrored, course)
    ensures RunsAt(kind, c, ReplayOne(kind, c, b, items[k]).0, start, items, k + 1, lost, |next.wrote|, next)
    ensures |next.wrote| == if ReplayOne(kind, c, b, items[k]).1 then mirrored + 1 else mirrored
    ensures next.parted == course.parted || (next.parted.Some? && Parts(kind, c, start, items, next.parted.value))
  {
    var r := ReplayOne(kind, c, b, items[k]);
    var more := BalancedStep(kind, c, b, start, items, k, lost, course.wrote);
    var at, m, parted := course.immediate, |more|, course.parted;
    if lost == [] && parted.None? {
      at, m, parted := LevelOrParts(kind, c, at, mirrored, b, start, items, k);
    }
    next := Course(more, at, parted);
    RunsStand(kind, c, r.0, start, items, k + 1, lost, m, next);
  }

  lemma RunsStand(kind: Kind, c: Contract, b: World, start: World, items: seq<Item>, k: nat, lost: seq<Queued>, m: nat,
        course: Course)
    requires k <= |items| && Balanced(kind, b, start, items, k, lost, course.wrote) && m == |course.wrote|
    requires lost == [] && course.parted.None? ==> Level(kind, c, course.immediate, m, b, start, items, k)
    ensures RunsAt(kind, c, b, start, items, k, lost, |course.wrote|, course)
  {
  }

  lemma LevelOrParts(kind: Kind, c: Contract, i: World, n: nat, b: World, start: World, items: seq<Item>, k: nat)
    returns (at: World, m: nat, parted: Option<nat>)
    requires k < |items| && Replayable(kind, start, items) && Level(kind, c, i, n, b, start, items, k)
    ensures m == if ReplayOne(kind, c, b, items[k]).1 then n + 1 else n
    ensures parted.None? ==> Level(kind, c, at, m, ReplayOne(kind, c, b, items[k]).0, start, items, k + 1)
    ensures parted.Some? ==> Parts(kind, c, start, items, parted.value)
  {
    if HeldOff(kind, c, i, b, items[k]) {
      at, parted, m := i, Some(k), if ReplayOne(kind, c, b, items[k]).1 then n + 1 else n;
    } else {
      at, m := NextLevel(kind, c, i, n, b, start, items, k);
      parted := None;
    }
  }

  lemma RunsThroughFlush(kind: Kind, c: Contract, b: World, start: World, items: seq<Item>, k: nat, lost: seq<Queued>,
      mirrored: nat, course: Course, flush: Flush)
    requires k <= |items| && RunsAt(kind, c, b, start, items, k, lost, mirrored, course)
    ensures RunsAt(kind, c, AfterFlush(b, flush), start, items, k, lost + Named(b, flush), mirrored, course)
  {
    BalancedFlush(kind, b, start, items, k, lost, course.wrote, flush);
    if lost + Named(b, flush) == [] && course.parted.None? {
      FlushingCatchesUp(course.immediate, b, start, items, k, flush);
    }
  }

  /** What a run ends in. If no flush failed and no item was held off, the rows, the mappings and the
      count are those of writing each mapping at once; with separate ids none is held off. In any case
      every resource counted as mirrored is in WorkOS and mapped to its row, or named. */
  ghost predicate Replayed(kind: Kind, c: Contract, start: World, items: seq<Item>, now: World, mirrored: nat,
      lost: seq<Queued>, wrote: map<Id, Mapping>, parted: Option<nat>)
  {
    && (lost == [] && parted.None? ==> (World(now.rows, Flushed(now), None), mirrored) == Replay(kind, c, start, items))
    && PartedWhere(kind, c, start, items, parted)
    && (Separate(start.maps, items) ==> parted.None?)
    && mirrored == |wrote| && MappedOrNamed(Flushed(now), start.maps, lost, wrote)
    && (forall n :: n in wrote ==> Done(items, |items|, n) && wrote[n].workosId in now.rows)
  }

  lemma RunsToReplayed(kind: Kind, c: Contract, b: World, start: World, items: seq<Item>, lost: seq<Queued>,
      mirrored: nat, course: Course)
    requires RunsAt(kind, c, b, start, items, |items|, lost, mirrored, course) &&
      PartedWhere(kind, c, start, items, course.parted)
    ensures Replayed(kind, c, start, items, b, mirrored, lost, course.wrote, course.parted)
  {
    assert items[..|items|] == items;
    if course.parted.Some? {
      PartsOverASpelling(kind, c, start, items, course.parted.value);
    }
  }

  /** Replays one snapshot through one mirror, whose sink holds what is not flushed yet. `lost` is
      what the error lines of failed flushes name. */
  class BatchedReplay {
    const mirror: Mirror
    var mirrored: nat
    var total: nat
    var lost: seq<Queued>

    constructor (mirror: Mirror)
      ensures this.mirror == mirror && mirrored == 0 && total == 0 && lost == []
    {
      this.mirror := mirror;
      mirrored, total, lost := 0, 0, [];
    }

    /** Drained first, then written as one batch; a failed one names every mapping it held. */
    method FlushMappings(flush: Flush)
      requires mirror.sink.Some?
      modifies mirror`maps, mirror`sink, this`lost
      ensures mirror.State() == AfterFlush(old(mirror.State()), flush)
      ensures lost == old(lost) + Named(old(mirror.State()), flush)
    {
      var pending := mirror.sink.value;
      mirror.sink := Some([]);
      if !flush.NotStored? {
        UpsertMappings(pending);
      }
      if !flush.Stored? {
        lost := lost + pending;
      }
    }

    method UpsertMappings(pending: seq<Queued>)
      modifies mirror`maps
      ensures mirror.maps == Overlay(old(mirror.maps), pending)
    {
      for j := 0 to |pending|
        invariant mirror.maps == Overlay(old(mirror.maps), pending[..j])
      {
        assert pending[..j + 1][..j] == pending[..j];
        mirror.maps := mirror.maps[pending[j].nativeId := pending[j].mapping];
      }
      assert pending[..|pending|] == pending;
    }

    method MirrorResource(item: Item)
      requires UniqueNames(mirror.kind, mirror.rows) && item.minted !in mirror.rows
      requires mirror as object != this
      modifies mirror, this`mirrored, this`total
      ensures total == old(total) + 1
      ensures (mirror.State(), mirrored > old(mirrored)) ==
        ReplayOne(mirror.kind, mirror.contract, old(mirror.State()), item)
      ensures old(mirrored) <= mirrored <= old(mirrored) + 1
    {
      total := total + 1;
      if item.id.None? {
        return;
      }
      if item.id.value !in mirror.maps && item.shared {
        return;
      }
      var outcome := mirror.MirrorUpsert(item.id.value, item.raw, item.minted);
      if outcome.Ok? {
        mirrored := mirrored + 1;
      }
    }

    ghost predicate Runs(start: World, items: seq<Item>, k: nat, course: Course)
      requires k <= |items|
      reads this, mirror
    {
      && total == k && RunsAt(mirror.kind, mirror.contract, mirror.State(), start, items, k, lost, mirrored, course)
      && PartedWhere(mirror.kind, mirror.contract, start, items, course.parted)
    }

    /** The next item, and a flush if the queue is full. */
    method ReplayNext(items: seq<Item>, k: nat, flush: Flush, ghost start: World, ghost course: Course)
      returns (ghost next: Course)
      requires k < |items| && Replayable(mirror.kind, start, items)
      requires mirror as object != this && Runs(start, items, k, course)
      modifies mirror, this`mirrored, this`total, this`lost
      ensures Runs(start, items, k + 1, next) && |mirror.sink.value| < MAPPING_FLUSH_SIZE
    {
      next := MirrorNext(items, k, start, course);
      if |mirror.sink.value| >= MAPPING_FLUSH_SIZE {
        FlushAndRun(flush, start, items, k + 1, next);
      }
    }

    method MirrorNext(items: seq<Item>, k: nat, ghost start: World, ghost course: Course) returns (ghost next: Course)
      requires k < |items| && Replayable(mirror.kind, start, items)
      requires mirror as object != this && Runs(start, items, k, course)
      modifies mirror, this`mirrored, this`total
      ensures Runs(start, items, k + 1, next)
    {
      next := RunsOn(mirror.kind, mirror.contract, mirror.State(), start, items, k, lost, mirrored, course);
      MintedIsNew(mirror.State().rows, start, items, k);
      MirrorResource(items[k]);
    }

    method FlushAndRun(flush: Flush, ghost start: World, ghost items: seq<Item>, ghost k: nat, ghost course: Course)
      requires k <= |items| && Runs(start, items, k, course)
      modifies mirror`maps, mirror`sink, this`lost
      ensures Runs(start, items, k, course) && mirror.sink == Some([])
    {
      RunsThroughFlush(mirror.kind, mirror.contract, mirror.State(), start, items, k, lost, mirrored, course, flush);
      FlushMappings(flush);
    }

    /** Before anything is queued: what writing at once starts from. */
    ghost function AtOnce(): World
      reads this, mirror
    {
      World(mirror.rows, mirror.maps, None)
    }

    /** Queue, flush per hundred, flush at the end unless the run is cut short. */
    method ReplaySnapshot(items: seq<Item>, finish: bool, flushes: nat -> Flush)
      returns (ghost wrote: map<Id, Mapping>, ghost parted: Option<nat>)
      requires mirror.sink == Some([]) && mirrored == total == 0 && lost == []
      requires mirror as object != this
      requires Replayable(mirror.kind, mirror.State(), items)
      modifies mirror, this`mirrored, this`total, this`lost
      ensures total == |items| && mirror.sink.Some?
      ensures Replayed(mirror.kind, mirror.contract, old(AtOnce()), items, mirror.State(), mirrored, lost, wrote,
        parted)
      ensures |mirror.sink.value| < MAPPING_FLUSH_SIZE && (finish ==> mirror.sink == Some([]))
    {
      ghost var start := AtOnce();
      ghost var course := Course(map[], start, None);
      StartsLevel(start, mirror.State(), items);
      for k := 0 to |items|
        invariant Runs(start, items, k, course) && |mirror.sink.value| < MAPPING_FLUSH_SIZE
      {
        course := ReplayNext(items, k, flushes(k), start, course);
      }
      if finish {
        FlushAndRun(flushes(|items|), start, items, |items|, course);
      }
      wrote, parted := course.wrote, course.parted;
      RunsToReplayed(mirror.kind, mirror.contract, mirror.State(), start, items, lost, mirrored, course);
    }
  }

  lemma ReplayGrows(kind: Kind, c: Contract, start: World, items: seq<Item>, k: nat)
    requires k < |items|
    ensures var r := Replay(kind, c, start, items[..k]);
      var next := ReplayOne(kind, c, r.0, items[k]);
      Replay(kind, c, start, items[..k + 1]) == (next.0, if next.1 then r.1 + 1 else r.1)
  {
    assert items[..k + 1][..k] == items[..k];
  }

  lemma NextLevel(kind: Kind, c: Contract, i: World, n: nat, b: World, start: World, items: seq<Item>, k: nat)
    returns (next: World, m: nat)
    requires k < |items| && Replayable(kind, start, items) && Level(kind, c, i, n, b, start, items, k)
    requires !HeldOff(kind, c, i, b, items[k])
    ensures Level(kind, c, next, m, ReplayOne(kind, c, b, items[k]).0, start, items, k + 1)
    ensures m == if ReplayOne(kind, c, b, items[k]).1 then n + 1 else n
  {
    var r := ReplayOne(kind, c, i, items[k]);
    next, m := r.0, if r.1 then n + 1 else n;
    assert Replay(kind, c, start, items[..k + 1]) == (next, m) by {
      ReplayGrows(kind, c, start, items, k);
    }
    assert UniqueNames(kind, next.rows) by {
      StaysServable(kind, c, i, start, items, k);
    }
    StepsTogether(kind, c, i, b, start, items, k);
  }

  lemma StartsLevel(start: World, b: World, items: seq<Item>)
    requires start.sink.None? && b == start.(sink := Some([]))
    ensures Lags(start, b, start, items, 0)
  {
    assert forall a :: !Moved(start, start, a);
  }

  // ---------------------------------------------------------------- users, then groups

  function RowsOf(maps: MappingTable): set<Row> {
    set a | a in maps :: Row(Users, a, maps[a].workosId)
  }

  /** A user's WorkOS id, an unmapped id as it is; None: the id is contested and the lookup throws. */
  function InWorkosSpace(maps: MappingTable, id: Id): Option<Id> {
    if Contested(RowsOf(maps), (Users, id)) then None else Some(if id in maps then maps[id].workosId else id)
  }

  function MembersInWorkosSpace(maps: MappingTable, entries: seq<Json>): Option<seq<Json>> {
    if entries == [] then Some([])
    else
      var rest := MembersInWorkosSpace(maps, entries[1..]);
      if !HasMemberId(entries[0]) then
        if rest.None? then None else Some([entries[0]] + rest.value)
      else
        var id := InWorkosSpace(maps, entries[0].fields["value"].s);
        if id.None? || rest.None? then None
        else Some([Obj(entries[0].fields["value" := Str(id.value)])] + rest.value)
  }

  /** The checked id maps loaded from the table translate members just so. */
  lemma {:induction false} LoadedMapsTranslateMembers(maps: MappingTable, m: CheckedMaps, entries: seq<Json>)
    requires Correct(RowsOf(maps), m)
    ensures TranslateMembers(m, ToWorkos, entries) == MembersInWorkosSpace(maps, entries)
  {
    if entries != [] {
      LoadedMapsTranslateMembers(maps, m, entries[1..]);
      if HasMemberId(entries[0]) {
        LoadedMapsTranslate(maps, m, entries[0].fields["value"].s);
      }
    }
  }

  lemma LoadedMapsTranslate(maps: MappingTable, m: CheckedMaps, id: Id)
    requires Correct(RowsOf(maps), m)
    ensures Translate(m, ToWorkos, Users, id) == InWorkosSpace(maps, id)
  {
    var rows := RowsOf(maps);
    assert Answers(rows, ToWorkos, (Users, id), Lookup(m, ToWorkos, (Users, id)));
    if id in maps {
      assert Row(Users, id, maps[id].workosId) in rows;
    }
  }

  function TranslateGroup(maps: MappingTable, item: Item): Option<Item> {
    if "members" !in item.raw || !item.raw["members"].Arr? then Some(item)
    else
      var members := MembersInWorkosSpace(maps, item.raw["members"].items);
      if members.None? then None else Some(item.(raw := item.raw["members" := Arr(members.value)]))
  }

  /** The groups up to the first that has a contested member. */
  function TranslateGroups(maps: MappingTable, items: seq<Item>): seq<Item> {
    if items == [] then []
    else
      var first := TranslateGroup(maps, items[0]);
      if first.None? then [] else [first.value] + TranslateGroups(maps, items[1..])
  }

  lemma {:induction false} TranslatingKeepsIds(maps: MappingTable, items: seq<Item>)
    ensures |TranslateGroups(maps, items)| <= |items|
    ensures var ts := TranslateGroups(maps, items);
      forall j :: 0 <= j < |ts| ==> ts[j] == items[j].(raw := ts[j].raw)
  {
    if items != [] && TranslateGroup(maps, items[0]).Some? {
      TranslatingKeepsIds(maps, items[1..]);
    }
  }

  lemma TranslatedIsReplayable(kind: Kind, w: World, maps: MappingTable, items: seq<Item>)
    requires Replayable(kind, w, items)
    ensures Replayable(kind, w, TranslateGroups(maps, items))
  {
    TranslatingKeepsIds(maps, items);
  }

  /** Users first, then groups with their members in WorkOS space, by every user mapping that is
      stored by then. A contested member stops the run; what is still queued then is not stored. */
  method RunBackfill(users: BatchedReplay, groups: BatchedReplay, userItems: seq<Item>, groupItems: seq<Item>,
      userFlushes: nat -> Flush, groupFlushes: nat -> Flush)
    returns (complete: bool, ghost wroteUsers: map<Id, Mapping>, ghost wroteGroups: map<Id, Mapping>,
      ghost parted: (Option<nat>, Option<nat>))
    requires users != groups && users.mirror != groups.mirror
    requires {users as object, groups as object} !! {users.mirror as object, groups.mirror as object}
    requires users.mirrored == users.total == groups.mirrored == groups.total == 0 && users.lost == groups.lost == []
    requires users.mirror.sink == groups.mirror.sink == Some([])
    requires Replayable(users.mirror.kind, users.mirror.State(), userItems)
    requires Replayable(groups.mirror.kind, groups.mirror.State(), groupItems)
    modifies users.mirror, users`mirrored, users`total, users`lost, groups.mirror, groups`mirrored, groups`total,
      groups`lost
    ensures users.mirror.sink == Some([])
    ensures Replayed(users.mirror.kind, users.mirror.contract, old(users.AtOnce()), userItems,
                     users.mirror.State(), users.mirrored, users.lost, wroteUsers, parted.0)
    ensures Replayed(groups.mirror.kind, groups.mirror.contract, old(groups.AtOnce()),
      TranslateGroups(users.mirror.maps, groupItems),
                     groups.mirror.State(), groups.mirrored, groups.lost, wroteGroups, parted.1)
    ensures Separate(old(groups.mirror.maps), groupItems) ==> parted.1.None?
    ensures complete <==> |TranslateGroups(users.mirror.maps, groupItems)| == |groupItems|
    ensures complete ==> groups.mirror.sink == Some([])
  {
    ghost var partedUsers, partedGroups;
    wroteUsers, partedUsers := users.ReplaySnapshot(userItems, true, userFlushes);
    var items := TranslateGroups(users.mirror.maps, groupItems);
    complete := |items| == |groupItems|;
    TranslatedIsReplayable(groups.mirror.kind, groups.mirror.State(), users.mirror.maps, groupItems);
    TranslatingKeepsIds(users.mirror.maps, groupItems);
    wroteGroups, partedGroups := groups.ReplaySnapshot(items, complete, groupFlushes);
    parted := (partedUsers, partedGroups);
  }

  /** Without separate ids the two differ: `a` is mapped to `x`, whose row is gone, and `x` is also
      the native id of the next item. Written at once, the recovered mapping of `a` lets go of
      `x`, and both items are mirrored; queued, the stored row still holds it, and `x` is refused. */
  lemma SpelledIdDiverges(a: Id, x: Id, forA: Item, forX: Item)
    requires a != x && forA.id == Some(a) && forX.id == Some(x) && !forX.shared
    requires NameOf(Users, Outgoing(forA.raw)).Some? && NameOf(Users, Outgoing(forX.raw)).Some?
    requires Lower(NameOf(Users, Outgoing(forA.raw)).value) != Lower(NameOf(Users, Outgoing(forX.raw)).value)
    ensures var maps: MappingTable := map[a := Mapping(x, FallbackPost)];
      && Replay(Users, PostCreate, World(map[], maps, None), [forA, forX]).1 == 2
      && Replay(Users, PostCreate, World(map[], maps, Some([])), [forA, forX]).1 == 1
  {
    var maps: MappingTable := map[a := Mapping(x, FallbackPost)];
    AfterTheFirst(a, x, forA, forX, None);
    AfterTheFirst(a, x, forA, forX, Some([]));
    var row := Outgoing(forA.raw);
    var at, queued := World(map[a := row], map[a := Mapping(a, MigratedId)], None),
      World(map[a := row], maps, Some([Queued(a, Mapping(a, MigratedId))]));
    assert !Ambiguous(at.maps, x) && !TakenByAnother(at, x, x);
    assert Holder(Users, at.rows, NameOf(Users, Outgoing(forX.raw)).value) == None;
    assert PlanFor(Users, PostCreate, at, x, Outgoing(forX.raw), forX.minted) == Write(x, true);
    assert Claims(queued, a, x) && TakenByAnother(queued, x, x);
    assert [] + [Queued(a, Mapping(a, MigratedId))] == [Queued(a, Mapping(a, MigratedId))];
    assert PlanFor(Users, PostCreate, queued, x, Outgoing(forX.raw), forX.minted).Refuse?;
    assert [forA, forX][..1] == [forA];
  }

  lemma AfterTheFirst(a: Id, x: Id, forA: Item, forX: Item, sink: Option<seq<Queued>>)
    requires a != x && forA.id == Some(a) && NameOf(Users, Outgoing(forA.raw)).Some? && sink in {None, Some([])}
    ensures var w := World(map[], map[a := Mapping(x, FallbackPost)], sink);
      Replay(Users, PostCreate, w, [forA, forX][..1]) ==
        (Record(w.(rows := map[a := Outgoing(forA.raw)]), a, Mapping(a, MigratedId)), 1)
  {
    var w := World(map[], map[a := Mapping(x, FallbackPost)], sink);
    assert [forA, forX][..1] == [forA] && [forA][..0] == [];
    assert !Ambiguous(w.maps, x) && !TakenByAnother(w, x, a);
    assert PlanFor(Users, PostCreate, w, a, Outgoing(forA.raw), forA.minted) == Write(a, true);
  }
}
