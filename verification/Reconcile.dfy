// Replaying WorkOS into native: which native row a WorkOS resource may be written to, what may be
// recorded about it, and when the run lets go of its create claims.

module Reconcile {
  import opened Common
  import opened Upstream

  // ---------------------------------------------------------------- looking a native row up

  datatype Entry = Entry(name: Option<string>, id: Option<Id>, externalId: Option<string>)

  datatype Page = Unusable | Listing(entries: seq<Entry>, total: int, startIndex: Option<int>,
    itemsPerPage: Option<int>)

  datatype Found = LookupFailed | Absent | Match(id: Id)

  predicate Names(e: Entry, value: string) {
    e.name.Some? && Lower(e.name.value) == Lower(value)
  }

  function Named(entries: seq<Entry>, value: string): seq<Entry> {
    if entries == [] then []
    else if Names(entries[0], value) then [entries[0]] + Named(entries[1..], value)
    else Named(entries[1..], value)
  }

  function FindNativeIdByAttr(page: Page, value: string, expected: Option<string>): Found {
    if page.Unusable? then LookupFailed
    else if page.total != |page.entries| || page.startIndex !in {None, Some(1)} ||
      page.itemsPerPage !in {None, Some(|page.entries|)}
    then LookupFailed
    else
      var matches := Named(page.entries, value);
      if |matches| > 1 then LookupFailed
      else if matches == [] then if page.entries == [] then Absent else LookupFailed
      else if matches[0].id.None? || matches[0].externalId.None? || matches[0].externalId != expected then LookupFailed
      else Match(matches[0].id.value)
  }

  /** A match is the only entry of that name on a complete page, and carries the expected external
      id; absence is only read off an empty complete page. */
  lemma LookupProves(page: Page, value: string, expected: Option<string>)
    ensures FindNativeIdByAttr(page, value, expected) == Absent ==>
      page.Listing? && page.entries == [] && page.total == 0
    ensures forall id :: FindNativeIdByAttr(page, value, expected) == Match(id) ==>
      && page.Listing? && page.total == |page.entries| && expected.Some?
      && exists i :: 0 <= i < |page.entries| && Names(page.entries[i], value) && page.entries[i].id == Some(id)
                     && page.entries[i].externalId == expected
                     && forall j :: 0 <= j < |page.entries| && j != i ==> !Names(page.entries[j], value)
  {
    if page.Listing? {
      var matches := Named(page.entries, value);
      if |matches| == 1 {
        var i := OnlyMatch(page.entries, value);
      }
    }
  }

  lemma {:induction false} NoMatch(entries: seq<Entry>, value: string)
    requires Named(entries, value) == []
    ensures forall j :: 0 <= j < |entries| ==> !Names(entries[j], value)
  {
    if entries != [] {
      NoMatch(entries[1..], value);
    }
  }

  lemma {:induction false} OnlyMatch(entries: seq<Entry>, value: string) returns (i: nat)
    requires |Named(entries, value)| == 1
    ensures i < |entries| && entries[i] == Named(entries, value)[0] && Names(entries[i], value)
    ensures forall j :: 0 <= j < |entries| && j != i ==> !Names(entries[j], value)
  {
    if Names(entries[0], value) {
      i := 0;
      NoMatch(entries[1..], value);
    } else {
      var k := OnlyMatch(entries[1..], value);
      i := k + 1;
    }
  }

  // ---------------------------------------------------------------- whose row it is

  /** What the other tables say at one moment: event links by native id, the native ids that other
      directories of this namespace have mapped, and whether there are such directories. */
  datatype Surroundings = Surroundings(linked: map<Id, Id>, foreign: set<Id>, shared: bool)

  /** The native row may be written for this WorkOS resource: it is mapped to it, or nobody's in a
      namespace of our own; and no event link, other directory or alias says otherwise. */
  predicate Attributed(maps: MappingTable, s: Surroundings, w: Id, x: Id) {
    && !(x in s.linked && s.linked[x] != w)
    && x !in s.foreign
    && !(x != w && exists n :: n in maps && n != x && maps[n].workosId == x)
    && (if x in maps then maps[x].workosId == w else !s.shared)
  }

  datatype Resource = Resource(workosId: Option<Id>, name: Option<string>, externalId: Option<string>,
    members: seq<Option<Id>>)

  /** `id` is the usable id in the response body, if there is one. */
  datatype Reply = Reply(answer: Answer, id: Option<Id>)

  /** A statement that stores a mapping: done, done without the acknowledgement, or not done. */
  datatype Stored = Stored | StoredUnheard | NotStored

  /** What the outside says, one question after the other. A read of the database that throws says
      nothing; `cleared`: the divergence rows of a repaired resource could be cleared. */
  datatype Outside = Outside(around: nat -> Option<Surroundings>, page: nat -> Page, reply: nat -> Reply,
                             stored: nat -> Stored, cleared: nat -> bool)

  /** A write sent to native, what was known when it was sent, and the reply to this question. */
  datatype Write = Write(target: Option<Id>, workosId: Id, maps: MappingTable, around: Surroundings, at: nat,
    reply: Reply)

  /** An answer the replay takes for a refusal: anything but a success, a timeout or a server error.
      Redirects are among them, though a create would not take one for a refusal. */
  predicate TakenAsRefusal(a: Answer) {
    a.Status? && !Success(a) && a.code != 408 && a.code < 500
  }

  /** Taken for a refusal, though it is none: a redirect, or an informational answer. */
  predicate Mistaken(wr: Write) {
    TakenAsRefusal(wr.reply.answer) && !Refused(wr.reply.answer)
  }

  /** The row native confirmed is mapped to the resource. */
  predicate Linked(wr: Write, maps: MappingTable) {
    Success(wr.reply.answer) && wr.reply.id.Some? && wr.reply.id.value in maps &&
      maps[wr.reply.id.value].workosId == wr.workosId
  }

  /** The write created a row, or updated one that was mapped to the resource already. */
  predicate Reserved(wr: Write) {
    wr.target.Some? ==> wr.target.value in wr.maps && wr.maps[wr.target.value].workosId == wr.workosId
  }

  /** Nothing is left open by this write: the row native confirmed is mapped to the resource, or
      native refused the write and, if it went to an existing row, that row's mapping still stands. */
  predicate Settled(wr: Write, maps: MappingTable) {
    Linked(wr, maps) || (Refused(wr.reply.answer) && Reserved(wr))
  }

  /** What the replay holds to be closed. */
  predicate Closed(wr: Write, maps: MappingTable) {
    Linked(wr, maps) || (TakenAsRefusal(wr.reply.answer) && Reserved(wr))
  }

  lemma ClosedIsSettledUnlessMistaken(wr: Write, maps: MappingTable)
    ensures Closed(wr, maps) ==> (Settled(wr, maps) <==> !Mistaken(wr))
    ensures Settled(wr, maps) ==> Closed(wr, maps)
  {
  }

  /** A create answered with a redirect is closed for the replay, though nobody refused it. */
  lemma RedirectIsClosedButNotSettled(w: Id, maps: MappingTable, s: Surroundings, at: nat)
    ensures var wr := Write(None, w, maps, s, at, Reply(Status(302), None));
      Closed(wr, maps) && Mistaken(wr) && !Settled(wr, maps)
  {
  }

  /** What can make the replay keep its claims: a success, an answer that settles nothing, or a
      write to a row that was not mapped to the resource. */
  predicate LeavesOpen(wr: Write) {
    Success(wr.reply.answer) || !TakenAsRefusal(wr.reply.answer) || !Reserved(wr)
  }

  ghost predicate AllClosed(ws: seq<Write>, maps: MappingTable) {
    forall i :: 0 <= i < |ws| ==> Closed(ws[i], maps)
  }

  ghost predicate SomeOpen(ws: seq<Write>) {
    exists i :: 0 <= i < |ws| && LeavesOpen(ws[i])
  }

  lemma OneMoreWrite(ws: seq<Write>, last: Write, maps: MappingTable)
    ensures AllClosed(ws + [last], maps) <==> AllClosed(ws, maps) && Closed(last, maps)
    ensures SomeOpen(ws + [last]) <==> SomeOpen(ws) || LeavesOpen(last)
  {
    assert forall i :: 0 <= i < |ws| ==> (ws + [last])[i] == ws[i];
    assert (ws + [last])[|ws|] == last;
  }

  /** The native row a resource is written to first (Some(None): it is created), or None: it is not
      written at all. `t` is the number of the next question. */
  ghost function FirstTarget(maps: MappingTable, o: Outside, t: nat, r: Resource): Option<Option<Id>> {
    if r.workosId.None? then None
    else if Owned(maps, r.workosId.value) then
      var n :| n in maps && maps[n].workosId == r.workosId.value;
      if o.around(t).Some? && Allows(maps, o.around(t + 1), r.workosId.value, Some(n)) then Some(Some(n)) else None
    else if r.workosId.value in maps || o.around(t).None? || o.around(t).value.shared || r.name.None? then None
    else
      match FindNativeIdByAttr(o.page(t + 1), r.name.value, r.externalId)
      case LookupFailed => None
      case Match(x) => if Allows(maps, o.around(t + 2), r.workosId.value, Some(x)) then Some(Some(x)) else None
      case Absent => if Allows(maps, o.around(t + 2), r.workosId.value, None) then Some(None) else None
  }

  /** The surroundings, as far as they could be read, allow an update of this row, or a create. */
  predicate Allows(maps: MappingTable, s: Option<Surroundings>, w: Id, target: Option<Id>) {
    s.Some? && if target.Some? then Attributed(maps, s.value, w, target.value) else !s.value.shared
  }

  /** What a call sends: what it should, and a second write only to repair a collision. */
  ghost predicate Sends(o: Outside, was: seq<Write>, now: seq<Write>, first: Option<Option<Id>>) {
    && was <= now && |now| <= |was| + 2
    && (forall i :: |was| <= i < |now| ==> now[i].reply == o.reply(now[i].at))
    && (|now| > |was| <==> first.Some?)
    && (|now| > |was| ==> Some(now[|was|].target) == first)
    && (|now| == |was| + 2 ==>
      now[|was|].target.None? && now[|was|].reply.answer == Status(409) && now[|was| + 1].target.Some?)
  }

  class KindReplay {
    const outside: Outside
    var clock: nat
    var maps: MappingTable
    var unresolvedWrite: bool
    var writeStarted: bool
    var total: nat
    var mirrored: nat
    var failed: nat
    ghost var writes: seq<Write>

    constructor (outside: Outside, maps: MappingTable)
      ensures this.outside == outside && this.maps == maps && clock == 0 && AtRest()
    {
      this.outside, this.maps := outside, maps;
      clock, total, mirrored, failed := 0, 0, 0, 0;
      unresolvedWrite, writeStarted := false, false;
      writes := [];
    }

    /** Nothing sent or counted yet. */
    ghost predicate AtRest()
      reads this
    {
      !unresolvedWrite && !writeStarted && writes == [] && total == mirrored == failed == 0
    }

    /** Every update went to a row that was attributed to its resource when it was sent. */
    ghost predicate OnlyAttributed()
      reads this
    {
      forall wr :: wr in writes && wr.target.Some? ==> Attributed(wr.maps, wr.around, wr.workosId, wr.target.value)
    }

    /** What the claims depend on. */
    ghost predicate Accounted()
      reads this
    {
      && (writes != [] ==> writeStarted)
      && (!unresolvedWrite ==> AllClosed(writes, maps)) && (unresolvedWrite ==> SomeOpen(writes))
    }

    /** The same, while the last write is still being concluded. */
    ghost predicate AccountedButLast()
      reads this
    {
      && writes != [] && writeStarted
      && (!unresolvedWrite ==> AllClosed(writes[..|writes| - 1], maps)) && (unresolvedWrite ==> SomeOpen(writes))
    }

    method MappingFor(w: Id) returns (owner: Option<Id>)
      requires Injective(maps)
      ensures owner.Some? ==> owner.value in maps && maps[owner.value].workosId == w
      ensures owner.None? ==> !Owned(maps, w)
    {
      if n :| n in maps && maps[n].workosId == w {
        owner := Some(n);
      } else {
        owner := None;
      }
    }

    method Ask() returns (s: Option<Surroundings>)
      modifies this`clock
      ensures s == outside.around(old(clock)) && clock == old(clock) + 1
    {
      s := outside.around(clock);
      clock := clock + 1;
    }

    /** Sends one write. An update needs a row attributed to the resource. */
    method Send(target: Option<Id>, w: Id, s: Surroundings) returns (reply: Reply)
      requires OnlyAttributed() && (target.Some? ==> Attributed(maps, s, w, target.value))
      modifies this`clock, this`writes, this`writeStarted
      ensures OnlyAttributed() && (old(Accounted()) ==> AccountedButLast())
      ensures reply == outside.reply(old(clock)) && clock == old(clock) + 1
      ensures writeStarted && writes == old(writes) + [Write(target, w, maps, s, old(clock), reply)]
    {
      writeStarted := true;
      reply := outside.reply(clock);
      ghost var wr := Write(target, w, maps, s, clock, reply);
      OneMoreWrite(writes, wr, maps);
      writes := writes + [wr];
      assert writes[..|writes| - 1] == old(writes);
      clock := clock + 1;
    }

    method Lookup(r: Resource) returns (found: Found)
      requires r.name.Some?
      modifies this`clock
      ensures found == FindNativeIdByAttr(outside.page(old(clock)), r.name.value, r.externalId) &&
        clock == old(clock) + 1
    {
      found := FindNativeIdByAttr(outside.page(clock), r.name.value, r.externalId);
      clock := clock + 1;
    }

    /** Every resource ends as mirrored or failed; mirrored means native's confirmed row is mapped. */
    twostate predicate Counted()
      reads this
    {
      && mirrored + failed == old(mirrored) + old(failed) + 1
      && old(mirrored) <= mirrored <= old(mirrored) + 1
      && (mirrored > old(mirrored) ==>
            |writes| > |old(writes)| && Linked(writes[|writes| - 1], maps))
    }

    /** One resource. Whatever native answers: no mapping is rebound, at most one is added, for an id
        native confirmed on a write of this call; `threw`: a read or statement of the database failed. */
    method PushToNative(r: Resource) returns (threw: bool)
      requires Injective(maps) && OnlyAttributed() && Accounted()
      modifies this
      ensures Injective(maps) && OnlyAttributed() && (writes != [] ==> writeStarted)
      ensures !threw ==> Accounted() && Counted()
      ensures threw && |writes| > |old(writes)| ==> Success(writes[|writes| - 1].reply.answer)
      ensures total == old(total) + 1
      ensures Sends(outside, old(writes), writes, FirstTarget(old(maps), outside, old(clock), r))
      ensures maps == old(maps) || (|writes| > |old(writes)| && r.workosId == Some(writes[|writes| - 1].workosId)
                                    && MapsConfirmed(old(maps), maps, writes[|writes| - 1]))
    {
      total := total + 1;
      var target, owner, s;
      target, owner, s, threw := Address(r);
      if threw {
        return;
      }
      if target.None? {
        failed := failed + 1;
        return;
      }
      threw := WriteNative(r, r.workosId.value, owner, target.value, s);
    }

    /** Ownership, read when the resource's turn comes; then attribution; else a verified lookup. */
    method Address(r: Resource) returns (target: Option<Option<Id>>, owner: Option<Id>, s: Surroundings, threw: bool)
      requires Injective(maps)
      modifies this`clock
      ensures target == FirstTarget(maps, outside, old(clock), r) && (threw ==> target.None?)
      ensures target.Some? ==> r.workosId.Some? && var w := r.workosId.value;
        && (if owner.Some? then owner.value in maps && maps[owner.value].workosId == w && target.value == owner
          else !Owned(maps, w) && r.name.Some?)
        && (target.value.Some? ==> Attributed(maps, s, w, target.value.value))
    {
      target, owner, s, threw := None, None, Surroundings(map[], {}, true), false;
      if r.workosId.None? {
        return;
      }
      var w := r.workosId.value;
      owner := MappingFor(w);
      if owner.None? && w in maps {
        // the resource's own id is a native id mapped to another resource
        return;
      }
      var now := Ask();
      if now.None? {
        threw := true;
        return;
      }
      if owner.None? && (now.value.shared || r.name.None?) {
        return;
      }
      var nativeId := owner;
      if owner.None? {
        var found := Lookup(r);
        if found.LookupFailed? {
          return;
        }
        nativeId := if found.Match? then Some(found.id) else None;
      }
      now := Ask();
      if now.None? {
        threw := true;
        return;
      }
      s := now.value;
      if Allows(maps, now, w, nativeId) {
        target := Some(nativeId);
      }
    }

    method WriteNative(r: Resource, w: Id, owner: Option<Id>, found: Option<Id>, s: Surroundings) returns (threw: bool)
      requires Injective(maps) && OnlyAttributed() && Accounted() && r.workosId == Some(w)
      requires if owner.Some? then owner.value in maps && maps[owner.value].workosId == w && found == owner
        else !Owned(maps, w) && r.name.Some?
      requires found.Some? ==> Attributed(maps, s, w, found.value)
      modifies this
      ensures Injective(maps) && OnlyAttributed() && writeStarted && total == old(total)
      ensures !threw ==> Accounted() && Counted()
      ensures Sends(outside, old(writes), writes, Some(found))
      ensures threw ==> Success(writes[|writes| - 1].reply.answer)
      ensures maps == old(maps) || (|writes| > |old(writes)| && writes[|writes| - 1].workosId == w
                                    && MapsConfirmed(old(maps), maps, writes[|writes| - 1]))
    {
      var nativeId, reply := SendAndRepair(r, w, found, s);
      threw := Conclude(w, owner, nativeId, reply);
    }

    /** The write, and the update that repairs a collision if the write was a create native refused. */
    method SendAndRepair(r: Resource, w: Id, found: Option<Id>, s: Surroundings)
      returns (nativeId: Option<Id>, reply: Reply)
      requires OnlyAttributed() && Accounted() && r.workosId == Some(w)
      requires found.None? ==> !Owned(maps, w) && r.name.Some?
      requires found.Some? ==> Attributed(maps, s, w, found.value)
      modifies this`clock, this`writes, this`writeStarted
      ensures OnlyAttributed() && AccountedButLast() && Sends(outside, old(writes), writes, Some(found))
      ensures found.Some? ==> nativeId == found
      ensures var last := writes[|writes| - 1];
        last.target == nativeId && last.workosId == w && last.reply == reply && last.maps == maps
    {
      nativeId := found;
      reply := Send(nativeId, w, s);
      if found.None? && reply.answer == Status(409) {
        nativeId, reply := RepairCollision(r, w, reply);
      }
    }

    /** A refused create, and what came of it: if the name is held by a row attributed to the
        resource, that row is updated instead. A failed lookup or read leaves it at the refusal. */
    method RepairCollision(r: Resource, w: Id, refused: Reply) returns (nativeId: Option<Id>, reply: Reply)
      requires r.name.Some? && r.workosId == Some(w) && AccountedButLast() && OnlyAttributed() && !Owned(maps, w)
      requires writes[|writes| - 1].target.None? && writes[|writes| - 1].workosId == w &&
        writes[|writes| - 1].reply == refused
      requires writes[|writes| - 1].maps == maps && refused.answer == Status(409)
      modifies this`clock, this`writes, this`writeStarted
      ensures OnlyAttributed() && AccountedButLast()
      ensures writes == old(writes) || (nativeId.Some? && |writes| == |old(writes)| + 1 && old(writes) <= writes
                                        && reply == outside.reply(writes[|writes| - 1].at))
      ensures var last := writes[|writes| - 1];
        last.target == nativeId && last.workosId == w && last.reply == reply && last.maps == maps
      ensures nativeId.Some? || reply == refused
    {
      nativeId, reply := None, refused;
      var again := Lookup(r);
      if again.Match? {
        var now := Ask();
        if Allows(maps, now, w, Some(again.id)) {
          assert writes == writes[..|writes| - 1] + [writes[|writes| - 1]];
          OneMoreWrite(writes[..|writes| - 1], writes[|writes| - 1], maps);
          assert Accounted();
          nativeId := Some(again.id);
          reply := Send(nativeId, w, now.value);
        }
      }
    }

    /** What the last write's answer means for the claims, and for the mapping. */
    method Conclude(w: Id, owner: Option<Id>, nativeId: Option<Id>, reply: Reply) returns (threw: bool)
      requires Injective(maps) && OnlyAttributed() && AccountedButLast()
      requires var last := writes[|writes| - 1];
        last.target == nativeId && last.workosId == w && last.reply == reply && last.maps == maps
      requires if owner.Some? then owner.value in maps && maps[owner.value].workosId == w && nativeId == owner
        else !Owned(maps, w)
      modifies this
      ensures Injective(maps) && OnlyAttributed() && writeStarted && writes == old(writes) && total == old(total)
      ensures !threw ==> Accounted() && mirrored + failed == old(mirrored) + old(failed) + 1
      ensures threw ==> Success(reply.answer)
      ensures mirrored == old(mirrored) || (mirrored == old(mirrored) + 1 && Linked(writes[|writes| - 1], maps))
      ensures maps == old(maps) || MapsConfirmed(old(maps), maps, writes[|writes| - 1])
    {
      threw := false;
      assert writes == writes[..|writes| - 1] + [writes[|writes| - 1]];
      OneMoreWrite(writes[..|writes| - 1], writes[|writes| - 1], maps);
      if reply.answer.NoAnswer? || reply.answer.code >= 500 || reply.answer.code == 408
         || (nativeId.Some? && owner.None? && !Success(reply.answer)) {
        unresolvedWrite := true;
      }
      if !Success(reply.answer) {
        failed := failed + 1;
        return;
      }
      if reply.id.None? || (nativeId.Some? && reply.id != nativeId) {
        unresolvedWrite := true;
        failed := failed + 1;
        return;
      }
      threw := RecordConfirmed(w, reply.id.value, owner);
    }

    /** Native confirmed the id: checked once more, then mapped, and its divergence rows cleared. */
    method RecordConfirmed(w: Id, x: Id, owner: Option<Id>) returns (threw: bool)
      requires Injective(maps) && OnlyAttributed() && AccountedButLast()
      requires Confirms(writes[|writes| - 1], x) && writes[|writes| - 1].workosId == w
      requires if owner.Some? then owner.value in maps && maps[owner.value].workosId == w else !Owned(maps, w)
      modifies this
      ensures Injective(maps) && OnlyAttributed() && writeStarted && writes == old(writes) && total == old(total)
      ensures !threw ==> Accounted() && mirrored + failed == old(mirrored) + old(failed) + 1
      ensures mirrored == old(mirrored) || (mirrored == old(mirrored) + 1 && Linked(writes[|writes| - 1], maps))
      ensures maps == old(maps) || MapsConfirmed(old(maps), maps, writes[|writes| - 1])
    {
      var now := Ask();
      if now.None? {
        return true;
      }
      if (owner.Some? && owner.value != x) || !Attributed(maps, now.value, w, x) {
        assert SomeOpen(writes) by {
          assert LeavesOpen(writes[|writes| - 1]);
        }
        unresolvedWrite := true;
        failed := failed + 1;
        return false;
      }
      if owner.None? {
        var heard := StoreMapping(x, w);
        if !heard {
          return true;
        }
      }
      assert writes == writes[..|writes| - 1] + [writes[|writes| - 1]];
      OneMoreWrite(writes[..|writes| - 1], writes[|writes| - 1], maps);
      mirrored := mirrored + 1;
      threw := !outside.cleared(clock);
      clock := clock + 1;
    }

    /** One upsert, which may take effect without being heard of. */
    method StoreMapping(x: Id, w: Id) returns (heard: bool)
      requires Injective(maps) && x !in maps && !Owned(maps, w)
      modifies this`clock, this`maps
      ensures maps == old(maps) || maps == old(maps)[x := Mapping(w, StrategyOf(x, w))]
      ensures heard ==> maps != old(maps)
      ensures Injective(maps) && forall wr :: Closed(wr, old(maps)) ==> Closed(wr, maps)
    {
      var stored := outside.stored(clock);
      clock := clock + 1;
      if !stored.NotStored? {
        MappedOnce(maps, x, w);
        ClosedStays(maps, x, Mapping(w, StrategyOf(x, w)));
        maps := maps[x := Mapping(w, StrategyOf(x, w))];
        assert x in maps;
      }
      heard := stored.Stored?;
    }
  }

  /** Native confirmed this id on this write. */
  predicate Confirms(wr: Write, x: Id) {
    Success(wr.reply.answer) && wr.reply.id == Some(x) && wr.target in {None, Some(x)}
  }

  /** The write's confirmed id is new to the table, so is its WorkOS id, and they are now mapped. */
  ghost predicate MapsConfirmed(was: MappingTable, now: MappingTable, wr: Write) {
    && wr.reply.id.Some? && Confirms(wr, wr.reply.id.value)
    && wr.reply.id.value !in was && !Owned(was, wr.workosId)
    && now == was[wr.reply.id.value := Mapping(wr.workosId, StrategyOf(wr.reply.id.value, wr.workosId))]
  }

  lemma MappedOnce(maps: MappingTable, x: Id, w: Id)
    requires Injective(maps) && x !in maps && !Owned(maps, w)
    ensures Injective(maps[x := Mapping(w, StrategyOf(x, w))])
  {
  }

  lemma ClosedStays(maps: MappingTable, x: Id, m: Mapping)
    requires x !in maps
    ensures forall wr :: Closed(wr, maps) ==> Closed(wr, maps[x := m])
  {
  }

  // ---------------------------------------------------------------- the run

  method RejectAmbiguous(k: KindReplay) returns (ok: bool)
    ensures ok <==> Injective(k.maps)
  {
    if a, b :| a in k.maps && b in k.maps && a != b && k.maps[a].workosId == k.maps[b].workosId {
      return false;
    }
    ok := true;
  }

  /** Every member must have a confirmed native user; else the group is skipped. */
  predicate MembersKnown(users: MappingTable, r: Resource) {
    forall i :: 0 <= i < |r.members| ==> r.members[i].Some? && Owned(users, r.members[i].value)
  }

  /** What the replay of a single resource sends, and what throwing after a write says about it. */
  ghost predicate SendsAlone(o: Outside, maps: MappingTable, t: nat, r: Resource, writes: seq<Write>, threw: bool) {
    && Sends(o, [], writes, FirstTarget(maps, o, t, r))
    && (threw && writes != [] ==> Success(writes[|writes| - 1].reply.answer))
  }

  method ReplayUsers(users: KindReplay, resources: seq<Resource>) returns (threw: bool)
    requires Injective(users.maps) && users.AtRest()
    modifies users
    ensures Injective(users.maps) && users.OnlyAttributed() && (users.writes != [] ==> users.writeStarted)
    ensures !threw ==> users.Accounted() && users.total == users.mirrored + users.failed == |resources|
    ensures |resources| == 1 ==>
      SendsAlone(users.outside, old(users.maps), old(users.clock), resources[0], users.writes, threw)
  {
    for i := 0 to |resources|
      invariant Injective(users.maps) && users.OnlyAttributed() && users.Accounted()
      invariant users.total == users.mirrored + users.failed == i
      invariant i == 0 ==> users.maps == old(users.maps) && users.clock == old(users.clock) && users.writes == []
      invariant i == |resources| == 1 ==>
        SendsAlone(users.outside, old(users.maps), old(users.clock), resources[0], users.writes, false)
    {
      threw := users.PushToNative(resources[i]);
      if threw {
        return;
      }
    }
    threw := false;
  }

  /** A member lookup that throws ends the run, as any read does. */
  method ReplayGroups(users: KindReplay, groups: KindReplay, resources: seq<Resource>) returns (threw: bool)
    requires users != groups && Injective(groups.maps) && groups.AtRest()
    modifies groups
    ensures Injective(groups.maps) && groups.OnlyAttributed() && (groups.writes != [] ==> groups.writeStarted)
    ensures !threw ==> groups.Accounted() && groups.total == groups.mirrored + groups.failed == |resources|
    ensures resources == [] ==> !threw && groups.writes == []
  {
    for i := 0 to |resources|
      invariant Injective(groups.maps) && groups.OnlyAttributed() && groups.Accounted()
      invariant groups.total == groups.mirrored + groups.failed == i && (i == 0 ==> groups.writes == [])
    {
      var read := groups.Ask();
      if read.None? {
        return true;
      }
      if !MembersKnown(users.maps, resources[i]) {
        groups.total := groups.total + 1;
        groups.failed := groups.failed + 1;
      } else {
        threw := groups.PushToNative(resources[i]);
        if threw {
          return;
        }
      }
    }
    threw := false;
  }

  /** Every write of the run is settled; or none was answered with what only passes for a refusal. */
  ghost predicate AllSettled(users: KindReplay, groups: KindReplay)
    reads users, groups
  {
    (forall wr :: wr in users.writes ==> Settled(wr, users.maps)) &&
      (forall wr :: wr in groups.writes ==> Settled(wr, groups.maps))
  }

  ghost predicate NoneMistaken(users: KindReplay, groups: KindReplay)
    reads users, groups
  {
    forall wr :: wr in users.writes + groups.writes ==> !Mistaken(wr)
  }

  lemma SettledUnlessMistaken(users: KindReplay, groups: KindReplay)
    requires AllClosed(users.writes, users.maps) && AllClosed(groups.writes, groups.maps)
    ensures AllSettled(users, groups) <==> NoneMistaken(users, groups)
  {
    forall wr | wr in users.writes
      ensures Settled(wr, users.maps) <==> !Mistaken(wr)
    {
      ClosedIsSettledUnlessMistaken(wr, users.maps);
    }
    forall wr | wr in groups.writes
      ensures Settled(wr, groups.maps) <==> !Mistaken(wr)
    {
      ClosedIsSettledUnlessMistaken(wr, groups.maps);
    }
  }

  /** How the run's own statements went: both create claims won, the id maps read, the divergences
      stamped; both snapshots complete; and the final sweep, if it comes to it. */
  datatype Course = Course(usersClaimed: bool, groupsClaimed: bool, mapsRead: bool, stamped: bool,
                           usersComplete: bool, groupsComplete: bool, swept: bool)

  predicate Begins(c: Course) {
    c.usersClaimed && c.groupsClaimed && c.mapsRead && c.stamped
  }

  /** A run, from taking both create claims to giving them up. When it releases them, every write it
      sent is settled if and only if none was answered with what merely passes for a refusal; it
      releases them whenever nothing was sent. A claim that is not won, a read that throws or an
      ambiguous table stops it before any write. The final sweep is asked for exactly when both
      complete lists were replayed without a failure. */
  method RunReconcileFromWorkos(users: KindReplay, groups: KindReplay, userList: seq<Resource>,
        groupList: seq<Resource>, c: Course)
    returns (released: bool, threw: bool, sweeps: bool)
    requires users != groups && users.AtRest() && groups.AtRest()
    modifies users, groups
    ensures users.OnlyAttributed() && groups.OnlyAttributed()
    ensures old(Injective(users.maps) && Injective(groups.maps)) ==> Injective(users.maps) && Injective(groups.maps)
    ensures !Begins(c) || !old(Injective(users.maps) && Injective(groups.maps)) ==>
      threw && released && !sweeps && users.writes == groups.writes == []
    ensures !threw ==>
      && users.total == users.mirrored + users.failed == |userList|
      && groups.total == groups.mirrored + groups.failed == |groupList|
    ensures released ==> (AllSettled(users, groups) <==> NoneMistaken(users, groups))
    ensures !released ==> users.writeStarted || groups.writeStarted
    ensures released <==> if threw then !users.writeStarted && !groups.writeStarted
      else !users.unresolvedWrite && !groups.unresolvedWrite
    ensures !threw ==> users.Accounted() && groups.Accounted()
    ensures sweeps ==>
      users.mirrored == |userList| && groups.mirrored == |groupList| && c.usersComplete && c.groupsComplete
    ensures !threw ==> (sweeps <==> users.failed == groups.failed == 0 && c.usersComplete && c.groupsComplete)
    ensures sweeps && !c.swept ==> threw
    ensures |userList| == 1 && groupList == [] && Begins(c) && c.swept ==>
      old(Injective(users.maps) && Injective(groups.maps)) ==>
        && SendsAlone(users.outside, old(users.maps), old(users.clock), userList[0], users.writes, threw)
        && groups.writes == []
  {
    sweeps := false;
    if !c.usersClaimed || !c.groupsClaimed || !c.mapsRead {
      return true, true, false;
    }
    var ok := RejectAmbiguous(users);
    if ok {
      ok := RejectAmbiguous(groups);
    }
    if !ok || !c.stamped {
      return true, true, false;
    }
    threw := ReplayUsers(users, userList);
    if !threw {
      threw := ReplayGroups(users, groups, groupList);
    }
    if !threw && users.failed == 0 && groups.failed == 0 && c.usersComplete && c.groupsComplete {
      sweeps := true;
      threw := !c.swept;
    }
    released := if threw then !(users.writeStarted || groups.writeStarted)
      else !(users.unresolvedWrite || groups.unresolvedWrite);
    if released {
      SettledUnlessMistaken(users, groups);
    }
  }

  /** A single write that was answered with a redirect leaves nothing open. */
  lemma RedirectLeavesNothingOpen(o: Outside, maps: MappingTable, r: Resource, writes: seq<Write>, threw: bool)
    requires SendsAlone(o, maps, 0, r, writes, threw) && FirstTarget(maps, o, 0, r) == Some(None)
    requires forall t :: o.reply(t) == Reply(Status(302), None)
    ensures |writes| == 1 && writes[0].reply.answer == Status(302) && writes[0].target.None? && !threw &&
      !SomeOpen(writes)
  {
  }

  /** It happens: native answers the create of a new user with a redirect. The whole run counts
      nothing as unresolved, ends well and lets its claims go, with that write open. */
  method RedirectLetsGo(w: Id, name: string) returns (users: KindReplay, groups: KindReplay, released: bool)
    ensures fresh(users) && fresh(groups) && users != groups && released
    ensures |users.writes| == 1 && groups.writes == []
    ensures users.writes[0].reply.answer == Status(302) && Mistaken(users.writes[0]) &&
      !Settled(users.writes[0], users.maps)
  {
    var outside := Outside(t => Some(Surroundings(map[], {}, false)), t => Listing([], 0, None, None), t =>
      Reply(Status(302), None),
                           t => NotStored, t => true);
    users := new KindReplay(outside, map[]);
    groups := new KindReplay(outside, map[]);
    var r := Resource(Some(w), Some(name), None, []);
    assert FirstTarget(map[], outside, 0, r) == Some(None);
    var threw, sweeps;
    released, threw, sweeps :=
      RunReconcileFromWorkos(users, groups, [r], [], Course(true, true, true, true, true, true, true));
    RedirectLeavesNothingOpen(outside, map[], r, users.writes, threw);
  }
}
