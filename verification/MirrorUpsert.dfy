// The mirror: PUT, on 404 POST, on 409 PUT again, then look the name up and PUT that row, with
// the alias guard between the steps, against a WorkOS that follows its SCIM contract.

module MirrorUpsert {
  import opened Common
  import opened ScimJson

  // ---------------------------------------------------------------- resources

  type Rows = map<Id, Body>

  function NameAttribute(kind: Kind): string {
    if kind.Users? then "userName" else "displayName"
  }

  predicate Blank(s: string) {
    forall c :: c in s ==> c == ' ' || c == '\t' || c == '\r' || c == '\n'
  }

  /** The name the server requires and keeps unique. */
  function NameOf(kind: Kind, body: Body): Option<string> {
    if NameAttribute(kind) in body && body[NameAttribute(kind)].Str? && !Blank(body[NameAttribute(kind)].s)
    then Some(body[NameAttribute(kind)].s) else None
  }

  /** What goes to WorkOS: no null fields, and the id only ever in the path. */
  function Outgoing(raw: Body): Body {
    StripNulls(Obj(raw)).fields - {"id"}
  }

  // ---------------------------------------------------------------- the state

  datatype Queued = Queued(nativeId: Id, mapping: Mapping)

  /** `sink` is the batching caller's queue; without one, mappings are written at once. */
  datatype World = World(rows: Rows, maps: MappingTable, sink: Option<seq<Queued>>)

  datatype Outcome = Ok(id: Id, created: bool) | Failed(status: nat) | MintConflict | Threw

  predicate Bears(kind: Kind, rows: Rows, id: Id, name: string) {
    id in rows && NameOf(kind, rows[id]).Some? && Lower(NameOf(kind, rows[id]).value) == Lower(name)
  }

  ghost function Holder(kind: Kind, rows: Rows, name: string): (h: Option<Id>)
    ensures h.Some? ==> Bears(kind, rows, h.value, name)
    ensures h.None? ==> forall id :: !Bears(kind, rows, id, name)
  {
    if exists id :: Bears(kind, rows, id, name) then
      var id :| Bears(kind, rows, id, name);
      Some(id)
    else None
  }

  ghost predicate UniqueNames(kind: Kind, rows: Rows) {
    forall a, b, name :: Bears(kind, rows, a, name) && Bears(kind, rows, b, name) ==> a == b
  }

  /** A stored or queued mapping gives this WorkOS id to this native id. */
  predicate Claims(w: World, nativeId: Id, workosId: Id) {
    || (nativeId in w.maps && w.maps[nativeId].workosId == workosId)
    || (w.sink.Some? && exists i ::
       0 <= i < |w.sink.value| && w.sink.value[i].nativeId == nativeId && w.sink.value[i].mapping.workosId == workosId)
  }

  ghost predicate TakenByAnother(w: World, workosId: Id, nativeId: Id) {
    exists b :: b != nativeId && Claims(w, b, workosId)
  }

  /** The stored table with the queue flushed into it, later rows winning. */
  function Flushed(w: World): MappingTable {
    if w.sink.None? then w.maps else Overlay(w.maps, w.sink.value)
  }

  function Overlay(maps: MappingTable, queue: seq<Queued>): MappingTable {
    if queue == [] then maps
    else Overlay(maps, queue[..|queue| - 1])[queue[|queue| - 1].nativeId := queue[|queue| - 1].mapping]
  }

  function Record(w: World, nativeId: Id, mapping: Mapping): World {
    if w.sink.Some? then w.(sink := Some(w.sink.value + [Queued(nativeId, mapping)]))
    else w.(maps := w.maps[nativeId := mapping])
  }

  // ---------------------------------------------------------------- what it should do

  /** The id the first PUT addresses. */
  function Base(w: World, n: Id): Id {
    if n in w.maps then w.maps[n].workosId else n
  }

  /** Write one WorkOS row (new or existing) and map the native id to it, or refuse. */
  datatype Plan = Write(id: Id, isNew: bool) | Refuse(outcome: Outcome)

  ghost function PlanFor(kind: Kind, c: Contract, w: World, n: Id, body: Body, minted: Id): Plan {
    var base, name := Base(w, n), NameOf(kind, body);
    if Ambiguous(w.maps, base) then Refuse(Threw)
    else if TakenByAnother(w, base, n) then Refuse(MintConflict)
    else if n in w.maps && w.maps[n].strategy.MigratedId? && base != n && c.PostCreate? then Refuse(Failed(400))
    else if base in w.rows && name.Some? && Holder(kind, w.rows, name.value) !in {None, Some(base)}
    then Refuse(Failed(409))
    else if name.None? then Refuse(Failed(400))
    else if base in w.rows then Write(base, false)
    else CreatePlan(c, w, n, Holder(kind, w.rows, name.value), minted)
  }

  /** The row to create, or the one that is in the way of creating it. */
  ghost function CreatePlan(c: Contract, w: World, n: Id, holder: Option<Id>, minted: Id): Plan {
    if n in w.rows && (c.PostCreate? || holder.Some?) then
      if holder in {None, Some(n)} then Write(n, false) else Refuse(Failed(409))
    else if holder.None? then Write(if c.PostCreate? then n else minted, true)
    else if Ambiguous(w.maps, holder.value) then Refuse(Threw)
    else if TakenByAnother(w, holder.value, n) then Refuse(MintConflict)
    else Write(holder.value, false)
  }

  function StrategyFor(w: World, n: Id, id: Id): Strategy {
    if n in w.maps && w.maps[n].workosId == id && id in w.rows then w.maps[n].strategy
    else StrategyOf(n, id)
  }

  function Written(w: World, n: Id, body: Body, id: Id): World {
    Record(w.(rows := w.rows[id := body]), n, Mapping(id, StrategyFor(w, n, id)))
  }

  ghost function After(kind: Kind, c: Contract, w: World, n: Id, body: Body, minted: Id): (World, Outcome) {
    match PlanFor(kind, c, w, n, body, minted)
    case Write(id, isNew) => (Written(w, n, body, id), Ok(id, isNew))
    case Refuse(outcome) => (w, outcome)
  }

  // ---------------------------------------------------------------- what it does

  class Mirror {
    const kind: Kind
    const contract: Contract
    var rows: Rows
    var maps: MappingTable
    var sink: Option<seq<Queued>>

    ghost function State(): World
      reads this
    {
      World(rows, maps, sink)
    }

    method NameHolder(name: string) returns (h: Option<Id>)
      requires UniqueNames(kind, rows)
      ensures h == Holder(kind, rows, name)
    {
      if id :| id in rows && Bears(kind, rows, id, name) {
        h := Some(id);
      } else {
        h := None;
      }
    }

    /** PUT resolves strictly by id; only POST creates. */
    method Put(id: Id, body: Body, header: Option<Id>) returns (status: nat)
      requires UniqueNames(kind, rows)
      modifies this`rows
      ensures contract.PostCreate? && header.Some? && header.value != id ==> status == 400
      ensures !(contract.PostCreate? && header.Some? && header.value != id) ==>
        status == if id !in old(rows) then 404 else if NameOf(kind, body).None? then 400
                  else if Holder(kind, old(rows), NameOf(kind, body).value) !in {None, Some(id)} then 409 else 200
      ensures rows == if status == 200 then old(rows)[id := body] else old(rows)
    {
      if contract.PostCreate? && header.Some? && header.value != id {
        return 400;
      }
      if id !in rows {
        return 404;
      }
      var name := NameOf(kind, body);
      if name.None? {
        return 400;
      }
      var h := NameHolder(name.value);
      if h.Some? && h.value != id {
        return 409;
      }
      rows := rows[id := body];
      status := 200;
    }

    /** `minted` is the id the server would make up. */
    method Post(body: Body, header: Id, minted: Id) returns (status: nat, id: Id)
      requires UniqueNames(kind, rows)
      modifies this`rows
      ensures status == if NameOf(kind, body).None? then 400
                        else if Holder(kind, old(rows), NameOf(kind, body).value).Some? then 409
                        else if contract.PostCreate? && header in old(rows) then 409 else 201
      ensures id == if contract.PostCreate? then header else minted
      ensures rows == if status == 201 then old(rows)[id := body] else old(rows)
    {
      id := if contract.PostCreate? then header else minted;
      var name := NameOf(kind, body);
      if name.None? {
        return 400, id;
      }
      var h := NameHolder(name.value);
      if h.Some? || (contract.PostCreate? && header in rows) {
        return 409, id;
      }
      rows := rows[id := body];
      status := 201;
    }

    /** None: the id is free for this resource. The stored owners are always read first. */
    method ClaimedByAnother(workosId: Id, nativeId: Id) returns (refusal: Option<Outcome>)
      ensures refusal == if Ambiguous(maps, workosId) then Some(Threw)
                         else if TakenByAnother(State(), workosId, nativeId) then Some(MintConflict) else None
    {
      var owners := Owners(maps, workosId);
      assert forall b :: b in owners <==> b in maps && maps[b].workosId == workosId;
      if owner :| owner in owners {
        if owners != {owner} {
          ghost var other :| other in owners && other != owner;
          return Some(Threw);
        }
        if owner != nativeId {
          assert Claims(State(), owner, workosId);
          return Some(MintConflict);
        }
      }
      if sink.Some? {
        for i := 0 to |sink.value|
          invariant forall j :: 0 <= j < i ==> sink.value[j].mapping.workosId == workosId ==>
            sink.value[j].nativeId == nativeId
        {
          if sink.value[i].mapping.workosId == workosId && sink.value[i].nativeId != nativeId {
            assert Claims(State(), sink.value[i].nativeId, workosId);
            return Some(MintConflict);
          }
        }
      }
      refusal := None;
    }

    method RecordMapping(nativeId: Id, mapping: Mapping)
      modifies this`maps, this`sink
      ensures State() == Record(old(State()), nativeId, mapping)
    {
      if sink.Some? {
        sink := Some(sink.value + [Queued(nativeId, mapping)]);
      } else {
        maps := maps[nativeId := mapping];
      }
    }

    method MirrorUpsert(n: Id, raw: Body, minted: Id) returns (outcome: Outcome)
      requires UniqueNames(kind, rows) && minted !in rows
      modifies this
      ensures (State(), outcome) == After(kind, contract, old(State()), n, Outgoing(raw), minted)
    {
      var body := Outgoing(raw);
      if n in maps {
        var existing := maps[n];
        var claimed := ClaimedByAnother(existing.workosId, n);
        if claimed.Some? {
          return claimed.value;
        }
        var status := Put(existing.workosId, body, if existing.strategy.MigratedId? then Some(n) else None);
        if status == 200 {
          RecordMapping(n, existing);
          return Ok(existing.workosId, false);
        }
        if status != 404 {
          return Failed(status);
        }
      } else {
        var claimed := ClaimedByAnother(n, n);
        if claimed.Some? {
          return claimed.value;
        }
        var status := Put(n, body, Some(n));
        if status == 200 {
          RecordMapping(n, Mapping(n, MigratedId));
          return Ok(n, false);
        }
        if status != 404 {
          return Failed(status);
        }
      }
      outcome := CreateViaPost(n, body, minted);
    }

    method CreateViaPost(n: Id, body: Body, minted: Id) returns (outcome: Outcome)
      requires UniqueNames(kind, rows) && minted !in rows
      requires Base(State(), n) !in rows
      modifies this
      ensures (State(), outcome) == (
        if NameOf(kind, body).None? then (old(State()), Failed(400))
        else match CreatePlan(contract, old(State()), n, Holder(kind, old(rows), NameOf(kind, body).value), minted)
          case Write(id, isNew) => (Written(old(State()), n, body, id), Ok(id, isNew))
          case Refuse(outcome) => (old(State()), outcome))
    {
      var status, id := Post(body, n, minted);
      if status == 201 {
        RecordMapping(n, Mapping(id, StrategyOf(n, id)));
        return Ok(id, true);
      }
      if status == 409 {
        outcome := ResolveCreateRace(n, body);
        return;
      }
      outcome := Failed(status);
    }

    method ResolveCreateRace(n: Id, body: Body) returns (outcome: Outcome)
      requires UniqueNames(kind, rows) && NameOf(kind, body).Some?
      requires Base(State(), n) !in rows
      requires Holder(kind, rows, NameOf(kind, body).value).Some? || (contract.PostCreate? && n in rows)
      modifies this
      ensures (State(), outcome) == (
        match CreatePlan(contract, old(State()), n, Holder(kind, old(rows), NameOf(kind, body).value), n)
          case Write(id, isNew) => (Written(old(State()), n, body, id), Ok(id, isNew))
          case Refuse(outcome) => (old(State()), outcome))
    {
      var status := Put(n, body, Some(n));
      if status == 200 {
        RecordMapping(n, Mapping(n, MigratedId));
        return Ok(n, false);
      }
      if status != 404 {
        return Failed(status);
      }
      var first := NameHolder(NameOf(kind, body).value);
      // a 409 that is not about the id is about the name, so the lookup finds its row
      assert first.Some?;
      var claimed := ClaimedByAnother(first.value, n);
      if claimed.Some? {
        return claimed.value;
      }
      var sync := Put(first.value, body, None);
      if sync != 200 {
        return Failed(sync);
      }
      RecordMapping(n, Mapping(first.value, FallbackPost));
      outcome := Ok(first.value, false);
    }
  }
}
