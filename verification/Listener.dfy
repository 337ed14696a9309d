// The Directory Sync listener: events gated through a last-writer-wins ledger, then applied to
// the native user, group and membership tables.

module Listener {
  import opened Common

  type Time = nat

  datatype UserRow = UserRow(id: Id, name: string, ext: Option<string>, active: bool)
  datatype GroupRow = GroupRow(id: Id, name: string, ext: Option<string>)

  /** The parts of an event's user and group the listener reads. `dsync` is a Directory Sync id. */
  datatype UserData = UserData(idp: Option<string>, dsync: Option<string>, name: Option<string>,
                               email: Option<string>, active: Option<bool>)
  datatype GroupData = GroupData(key: Option<string>, dsync: Option<string>, name: Option<string>)

  datatype Change =
    | UserUpsert(u: UserData)
    | UserDelete(u: UserData)
    | GroupUpsert(g: GroupData)
    | GroupDelete(g: GroupData)
    | Member(u: UserData, g: GroupData, add: bool)
    | Other

  /** `spare` is the id a stub row gets when the event names none. */
  datatype Event = Event(id: Option<string>, at: Option<Time>, change: Change, spare: Id)

  /** The resource or membership edge an event orders itself on. */
  datatype Scope =
    | UserScope(key: string)
    | GroupScope(key: string)
    | MemberScope(group: string, user: string)
    | DsyncUser(id: string)
    | DsyncGroup(id: string)
    | DsyncMember(groupId: string, userId: string)

  datatype Tables = Tables(
    users: seq<UserRow>, groups: seq<GroupRow>, edges: set<(Id, Id)>,
    marks: map<Scope, Time>,               // listener_versions
    userLinks: map<string, Id>, groupLinks: map<string, Id>,
    handled: set<string>,                  // ids of events logged as applied or skipped
    hardDeletes: bool)                     // native.delete_policy

  datatype Verdict = Applied | Skipped | Ignored | Failed

  // ---------------------------------------------------------------- tables

  function First<R>(rows: seq<R>, p: R -> bool): Option<R> {
    if rows == [] then None else if p(rows[0]) then Some(rows[0]) else First(rows[1..], p)
  }

  function UserById(rows: seq<UserRow>, id: Id): Option<UserRow> {
    First(rows, (r: UserRow) => r.id == id)
  }

  function UserByExt(rows: seq<UserRow>, ext: string): Option<UserRow> {
    First(rows, (r: UserRow) => r.ext == Some(ext))
  }

  function UserByName(rows: seq<UserRow>, name: string): Option<UserRow> {
    First(rows, (r: UserRow) => Lower(r.name) == Lower(name))
  }

  function GroupById(rows: seq<GroupRow>, id: Id): Option<GroupRow> {
    First(rows, (r: GroupRow) => r.id == id)
  }

  function GroupByExt(rows: seq<GroupRow>, ext: string): Option<GroupRow> {
    First(rows, (r: GroupRow) => r.ext == Some(ext))
  }

  function GroupByName(rows: seq<GroupRow>, name: string): Option<GroupRow> {
    First(rows, (r: GroupRow) => Lower(r.name) == Lower(name))
  }

  function PutUser(rows: seq<UserRow>, row: UserRow): seq<UserRow> {
    if rows == [] then [row]
    else if rows[0].id == row.id then [row] + rows[1..]
    else [rows[0]] + PutUser(rows[1..], row)
  }

  function PutGroup(rows: seq<GroupRow>, row: GroupRow): seq<GroupRow> {
    if rows == [] then [row]
    else if rows[0].id == row.id then [row] + rows[1..]
    else [rows[0]] + PutGroup(rows[1..], row)
  }

  /** `user_name` is unique; an upsert that would break that throws. */
  predicate NameTaken(rows: seq<UserRow>, row: UserRow) {
    exists i :: 0 <= i < |rows| && rows[i].id != row.id && rows[i].name == row.name
  }

  // ---------------------------------------------------------------- scopes

  function Or<T>(a: Option<T>, b: Option<T>): Option<T> {
    if a.Some? then a else b
  }

  function LinkedUser(t: Tables, u: UserData): Option<UserRow> {
    if u.dsync.Some? && u.dsync.value in t.userLinks then UserById(t.users, t.userLinks[u.dsync.value]) else None
  }

  function LinkedGroup(t: Tables, g: GroupData): Option<GroupRow> {
    if g.dsync.Some? && g.dsync.value in t.groupLinks then GroupById(t.groups, t.groupLinks[g.dsync.value]) else None
  }

  /** The legacy key of a user or group: of the row it is linked to, else of the event itself. */
  function UserKey(row: Option<UserRow>, u: UserData): Option<string> {
    if row.Some? then Or(row.value.ext, Some(row.value.name)) else Or(u.idp, u.email)
  }

  function GroupKey(row: Option<GroupRow>, g: GroupData): Option<string> {
    if row.Some? then Or(row.value.ext, Some(row.value.name)) else g.key
  }

  function OfUser(key: Option<string>): set<Scope> {
    if key.Some? then {UserScope(key.value)} else {}
  }

  function OfGroup(key: Option<string>): set<Scope> {
    if key.Some? then {GroupScope(key.value)} else {}
  }

  function OfMember(group: Option<string>, user: Option<string>): set<Scope> {
    if group.Some? && user.Some? then {MemberScope(group.value, user.value)} else {}
  }

  function UserScopes(t: Tables, u: UserData): set<Scope> {
    OfUser(u.idp)
    + (if u.dsync.Some? then {DsyncUser(u.dsync.value)} else {})
    + (if LinkedUser(t, u).Some? then OfUser(UserKey(LinkedUser(t, u), u)) else {})
  }

  function GroupScopes(t: Tables, g: GroupData): set<Scope> {
    OfGroup(g.key)
    + (if g.dsync.Some? then {DsyncGroup(g.dsync.value)} else {})
    + (if LinkedGroup(t, g).Some? then OfGroup(GroupKey(LinkedGroup(t, g), g)) else {})
  }

  function MemberScopes(t: Tables, u: UserData, g: GroupData): set<Scope> {
    OfMember(g.key, Or(u.idp, u.email))
    + (if u.dsync.Some? && g.dsync.Some? then {DsyncMember(g.dsync.value, u.dsync.value)} else {})
    + OfMember(GroupKey(LinkedGroup(t, g), g), UserKey(LinkedUser(t, u), u))
  }

  function EventScopes(t: Tables, c: Change): set<Scope> {
    match c
    case UserUpsert(u) => UserScopes(t, u)
    case UserDelete(u) => UserScopes(t, u)
    case GroupUpsert(g) => GroupScopes(t, g)
    case GroupDelete(g) => GroupScopes(t, g)
    case Member(u, g, _) => MemberScopes(t, u, g)
    case Other => {}
  }

  predicate IsNewestAcross(marks: map<Scope, Time>, scopes: set<Scope>, at: Option<Time>) {
    at.Some? ==> forall s :: s in scopes && s in marks ==> marks[s] <= at.value
  }

  function Recorded(marks: map<Scope, Time>, scopes: set<Scope>, at: Option<Time>): map<Scope, Time> {
    if at.None? then marks
    else (map s | s in marks.Keys + scopes :: if s in scopes && (s in marks ==> marks[s] < at.value) then at.value
      else marks[s])
  }

  // ---------------------------------------------------------------- handlers

  /** Where the event's Directory Sync id points: a linked native id, an id native has not
      confirmed (which throws), or nothing, for events that carry none. */
  datatype Resolution = Linked(id: Id) | Unconfirmed | Legacy

  function Resolve(links: map<string, Id>, dsync: Option<string>): Resolution {
    if dsync.None? then Legacy else if dsync.value in links then Linked(links[dsync.value]) else Unconfirmed
  }

  function FindUser(rows: seq<UserRow>, idp: Option<string>, name: Option<string>, r: Resolution): Option<UserRow> {
    if r.Linked? then UserById(rows, r.id)
    else if idp.Some? && UserByExt(rows, idp.value).Some? then UserByExt(rows, idp.value)
    else if name.Some? then UserByName(rows, name.value)
    else None
  }

  function FindGroup(rows: seq<GroupRow>, key: Option<string>, name: Option<string>, r: Resolution): Option<GroupRow> {
    if r.Linked? then GroupById(rows, r.id)
    else if key.Some? && GroupByExt(rows, key.value).Some? then GroupByExt(rows, key.value)
    else if name.Some? then GroupByName(rows, name.value)
    else None
  }

  function NewId(r: Resolution, fallback: Id): Id {
    if r.Linked? then r.id else fallback
  }

  function WithoutUser(edges: set<(Id, Id)>, user: Id): set<(Id, Id)> {
    set e | e in edges && e.1 != user
  }

  function WithoutGroup(edges: set<(Id, Id)>, group: Id): set<(Id, Id)> {
    set e | e in edges && e.0 != group
  }

  function WriteUser(t: Tables, row: UserRow): (Tables, Verdict) {
    if NameTaken(t.users, row) then (t, Failed) else (t.(users := PutUser(t.users, row)), Applied)
  }

  function UpsertUserFromEvent(t: Tables, u: UserData): (Tables, Verdict) {
    if u.idp.None? then (t, Ignored)
    else
      var r := Resolve(t.userLinks, u.dsync);
      if r.Unconfirmed? then (t, Failed)
      else
        var name := Or(u.name, u.idp).value;
        var active := u.active == Some(true);
        var existing := FindUser(t.users, u.idp, Some(name), r);
        if existing.None? then WriteUser(t, UserRow(NewId(r, u.idp.value), name, u.idp, active))
        else
          var row := existing.value;
          var next := UserRow(row.id, name, u.idp, active);
          if row == next then (t, Skipped)
          else
            // a row that changes hands does not hand its memberships on
            var moved := row.ext.Some? && row.ext != u.idp;
            WriteUser(if moved then t.(edges := WithoutUser(t.edges, row.id)) else t, next)
  }

  function DeleteUserFromEvent(t: Tables, u: UserData): (Tables, Verdict) {
    if u.idp.None? then (t, Ignored)
    else
      var r := Resolve(t.userLinks, u.dsync);
      if r.Unconfirmed? then (t, Failed)
      else
        var existing := FindUser(t.users, u.idp, u.name, r);
        if existing.None? then (t, Skipped)
        else
          var row := existing.value;
          if t.hardDeletes then
            (t.(users := RemoveUser(t.users, row.id), edges := WithoutUser(t.edges, row.id)), Applied)
          else WriteUser(t, row.(ext := u.idp, active := false))
  }

  function RemoveUser(rows: seq<UserRow>, id: Id): seq<UserRow> {
    if rows == [] then [] else if rows[0].id == id then RemoveUser(rows[1..], id)
      else [rows[0]] + RemoveUser(rows[1..], id)
  }

  function RemoveGroup(rows: seq<GroupRow>, id: Id): seq<GroupRow> {
    if rows == [] then [] else if rows[0].id == id then RemoveGroup(rows[1..], id)
      else [rows[0]] + RemoveGroup(rows[1..], id)
  }

  function UpsertGroupFromEvent(t: Tables, g: GroupData): (Tables, Verdict) {
    if g.key.None? then (t, Ignored)
    else
      var r := Resolve(t.groupLinks, g.dsync);
      if r.Unconfirmed? then (t, Failed)
      else
        var existing := FindGroup(t.groups, g.key, g.name, r);
        if existing.None? then
          if g.name.None? then (t, Ignored)
          else (t.(groups := PutGroup(t.groups, GroupRow(NewId(r, g.key.value), g.name.value, g.key))), Applied)
        else
          var next := existing.value.(name := Or(g.name, Some(existing.value.name)).value, ext := g.key);
          if next == existing.value then (t, Skipped) else (t.(groups := PutGroup(t.groups, next)), Applied)
  }

  function DeleteGroupFromEvent(t: Tables, g: GroupData): (Tables, Verdict) {
    if g.key.None? then (t, Ignored)
    else
      var r := Resolve(t.groupLinks, g.dsync);
      if r.Unconfirmed? then (t, Failed)
      else
        var existing := FindGroup(t.groups, g.key, g.name, r);
        if existing.None? then (t, Skipped)
        else (t.(groups := RemoveGroup(t.groups, existing.value.id), edges := WithoutGroup(t.edges, existing.value.id)),
          Applied)
  }

  function ChangeMembership(t: Tables, u: UserData, g: GroupData, add: bool, at: Option<Time>,
        spare: Id): (Tables, Verdict)
  {
    var userName := Or(u.name, u.idp);
    if userName.None? || (g.key.None? && g.name.None?) then (t, Ignored)
    else
      var ru, rg := Resolve(t.userLinks, u.dsync), Resolve(t.groupLinks, g.dsync);
      if ru.Unconfirmed? || rg.Unconfirmed? then (t, Failed)
      else
        var user := FindUser(t.users, u.idp, userName, ru);
        var group := FindGroup(t.groups, g.key, g.name, rg);
        if !add && (user.None? || group.None?) then (t, Skipped)
        else if group.None? && !IsNewestAcross(t.marks, GroupScopes(t, g), at) then (t, Skipped)
        else if user.None? && !IsNewestAcross(t.marks, UserScopes(t, u), at) then (t, Skipped)
        else MakeMember(t, u, g, add, spare, user, group, ru, rg)
  }

  /** Both ends are there or may be made: stub rows, never for a resource a newer event removed. */
  function MakeMember(t: Tables, u: UserData, g: GroupData, add: bool, spare: Id, user: Option<UserRow>,
        group: Option<GroupRow>,
      ru: Resolution, rg: Resolution): (Tables, Verdict)
    requires Or(u.name, u.idp).Some? && (g.key.Some? || g.name.Some?)
  {
    var userId := if user.Some? then user.value.id else NewId(ru, Or(u.idp, Some(spare)).value);
    var (t1, v) := if user.Some? then (t, Applied)
      else WriteUser(t, UserRow(userId, Or(u.name, u.idp).value, u.idp, u.active.None? || u.active.value));
    if v.Failed? then (t1, Failed)
    else
      var groupId := if group.Some? then group.value.id else NewId(rg, Or(g.key, Some(spare)).value);
      var t2 := if group.Some? then t1
        else t1.(groups := PutGroup(t1.groups, GroupRow(groupId, Or(g.name, g.key).value, g.key)));
      SetMember(t2, (groupId, userId), add)
  }

  function SetMember(t: Tables, edge: (Id, Id), add: bool): (Tables, Verdict) {
    if add then (t.(edges := t.edges + {edge}), if edge in t.edges then Skipped else Applied)
    else (t.(edges := t.edges - {edge}), if edge in t.edges then Applied else Skipped)
  }

  function ApplyEvent(t: Tables, c: Change, at: Option<Time>, spare: Id): (Tables, Verdict) {
    match c
    case UserUpsert(u) => UpsertUserFromEvent(t, u)
    case UserDelete(u) => DeleteUserFromEvent(t, u)
    case GroupUpsert(g) => UpsertGroupFromEvent(t, g)
    case GroupDelete(g) => DeleteGroupFromEvent(t, g)
    case Member(u, g, add) => ChangeMembership(t, u, g, add, at, spare)
    case Other => (t, Ignored)
  }

  // ---------------------------------------------------------------- one delivery

  /** What the status endpoint says to do, and whether the event's directory is known. */
  datatype Instruction = Inert(known: bool) | Apply

  /** Before the ledger is consulted, an unknown directory still has its legacy scope. */
  function InertScopes(t: Tables, c: Change, known: bool): set<Scope> {
    if known then EventScopes(t, c)
    else match c
      case UserUpsert(u) => OfUser(u.idp)
      case UserDelete(u) => OfUser(u.idp)
      case GroupUpsert(g) => OfGroup(g.key)
      case GroupDelete(g) => OfGroup(g.key)
      case Member(u, g, _) => OfMember(g.key, Or(u.idp, u.email))
      case Other => {}
  }

  /** The specification of one delivery. */
  function Deliver(t: Tables, e: Event, i: Instruction): (Tables, Verdict) {
    match i
    case Inert(known) => (t.(marks := Recorded(t.marks, InertScopes(t, e.change, known), e.at)), Ignored)
    case Apply =>
      if e.id.Some? && e.id.value in t.handled then (t, Skipped)
      else
        var scopes := EventScopes(t, e.change);
        if !IsNewestAcross(t.marks, scopes, e.at) then (Logged(t, e, Skipped), Skipped)
        else
          var (t1, v) := ApplyEvent(t, e.change, e.at, e.spare);
          if v.Failed? then (t1, Failed)
          else (Logged(t1.(marks := Recorded(t1.marks, scopes, e.at)), e, v), v)
  }

  /** Only an event that was applied or skipped counts as handled. */
  function Logged(t: Tables, e: Event, v: Verdict): Tables {
    if e.id.Some? && (v.Applied? || v.Skipped?) then t.(handled := t.handled + {e.id.value}) else t
  }

  class DsyncListener {
    var tables: Tables

    constructor (tables: Tables)
      ensures this.tables == tables
    {
      this.tables := tables;
    }

    method IsNewest(scopes: set<Scope>, at: Option<Time>) returns (newest: bool)
      ensures newest == IsNewestAcross(tables.marks, scopes, at)
    {
      var rest := scopes;
      while rest != {}
        invariant rest <= scopes
        invariant at.Some? ==> forall s :: s in scopes - rest && s in tables.marks ==> tables.marks[s] <= at.value
        decreases rest
      {
        var scope :| scope in rest;
        if at.Some? && scope in tables.marks && at.value < tables.marks[scope] {
          return false;
        }
        rest := rest - {scope};
      }
      newest := true;
    }

    /** Every scope's mark is kept at the latest time seen. */
    method RecordEventVersions(scopes: set<Scope>, at: Option<Time>)
      modifies this
      ensures tables == old(tables).(marks := Recorded(old(tables).marks, scopes, at))
    {
      var rest := scopes;
      while rest != {}
        invariant rest <= scopes
        invariant tables == old(tables).(marks := Recorded(old(tables).marks, scopes - rest, at))
        decreases rest
      {
        var scope :| scope in rest;
        if at.Some? && (scope in tables.marks ==> tables.marks[scope] < at.value) {
          tables := tables.(marks := tables.marks[scope := at.value]);
        }
        assert scopes - (rest - {scope}) == (scopes - rest) + {scope};
        rest := rest - {scope};
      }
      assert scopes - rest == scopes;
    }

    method Dispatch(e: Event) returns (verdict: Verdict)
      requires !(e.id.Some? && e.id.value in tables.handled)
      modifies this
      ensures verdict.Failed? ==> (tables, verdict) == Deliver(old(tables), e, Apply)
      ensures !verdict.Failed? ==> (Logged(tables, e, verdict), verdict) == Deliver(old(tables), e, Apply)
    {
      var scopes := EventScopes(tables, e.change);
      var newest := IsNewest(scopes, e.at);
      if !newest {
        return Skipped;
      }
      var (next, v) := ApplyEvent(tables, e.change, e.at, e.spare);
      tables := next;
      if !v.Failed? {
        RecordEventVersions(scopes, e.at);
      }
      return v;
    }

    method ProcessDsyncEvent(e: Event, instruction: Instruction) returns (verdict: Verdict)
      modifies this
      ensures (tables, verdict) == Deliver(old(tables), e, instruction)
    {
      if instruction.Inert? {
        var scopes := InertScopes(tables, e.change, instruction.known);
        RecordEventVersions(scopes, e.at);
        return Ignored;
      }
      if e.id.Some? && e.id.value in tables.handled {
        return Skipped;
      }
      verdict := Dispatch(e);
      if !verdict.Failed? && !verdict.Ignored? && e.id.Some? {
        tables := tables.(handled := tables.handled + {e.id.value});
      }
    }
  }
}
