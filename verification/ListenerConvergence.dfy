// Deliveries may come in any order and more than once. In a directory whose rows exist and keep
// their identities, the active flags and membership edges they lead to depend on the newest
// event of each scope alone, and so not on the order.

module ListenerConvergence {
  import opened Common
  import opened Listener
  import Ledger = ListenerLedger

  /** One bit the events fight over: a user's active flag, or one membership edge. */
  datatype Slot = Active(user: string) | Edge(group: string, user: string)

  function ScopeOf(s: Slot): Scope {
    match s
    case Active(x) => UserScope(x)
    case Edge(g, x) => MemberScope(g, x)
  }

  /** Reads the bit off the tables. */
  predicate Holds(t: Tables, s: Slot) {
    match s
    case Active(x) =>
      var row := UserByExt(t.users, x);
      row.Some? && row.value.active
    case Edge(g, x) =>
      var user, group := UserByExt(t.users, x), GroupByExt(t.groups, g);
      user.Some? && group.Some? && (group.value.id, user.value.id) in t.edges
  }

  /** The bit an event sets, and what it sets it to. */
  function Touches(c: Change): Option<Slot> {
    match c
    case UserUpsert(u) => if u.idp.Some? then Some(Active(u.idp.value)) else None
    case UserDelete(u) => if u.idp.Some? then Some(Active(u.idp.value)) else None
    case Member(u, g, _) => if u.idp.Some? && g.key.Some? then Some(Edge(g.key.value, u.idp.value)) else None
    case GroupUpsert(_) => None
    case GroupDelete(_) => None
    case Other => None
  }

  predicate Wants(c: Change) {
    match c
    case UserUpsert(u) => u.active == Some(true)
    case Member(_, _, add) => add
    case UserDelete(_) => false
    case GroupUpsert(_) => false
    case GroupDelete(_) => false
    case Other => false
  }

  // ---------------------------------------------------------------- the directories it holds for

  /** Ids and external ids each name one row, and no user name ever belongs to two identities
      (`owner` says whose it is), so the unique user name never gets in the way. */
  ghost predicate Rostered(t: Tables, owner: map<string, string>) {
    && (forall i, j :: 0 <= i < j < |t.users| ==> t.users[i].id != t.users[j].id && t.users[i].ext != t.users[j].ext)
    && (forall i, j :: 0 <= i < j < |t.groups| ==>
      t.groups[i].id != t.groups[j].id && t.groups[i].ext != t.groups[j].ext)
    && (forall i :: 0 <= i < |t.users| ==> t.users[i].ext.Some? && Get(owner, t.users[i].name) == t.users[i].ext)
    && (forall i :: 0 <= i < |t.groups| ==> t.groups[i].ext.Some?)
  }

  /** A confirmed Directory Sync id belongs to the row with this external id. */
  predicate UserLinkedTo(t: Tables, d: string, x: string) {
    && d in t.userLinks && UserByExt(t.users, x).Some? && t.userLinks[d] == UserByExt(t.users, x).value.id
  }

  predicate GroupLinkedTo(t: Tables, d: string, k: string) {
    && d in t.groupLinks && GroupByExt(t.groups, k).Some? && t.groupLinks[d] == GroupByExt(t.groups, k).value.id
  }

  predicate Behind(marks: map<Scope, Time>, a: Scope, b: Scope) {
    a in marks ==> b in marks && marks[a] <= marks[b]
  }

  /** The marks kept under Directory Sync ids are no newer than those under external ids. */
  ghost predicate Settled(t: Tables) {
    && (forall d, x :: UserLinkedTo(t, d, x) ==> Behind(t.marks, DsyncUser(d), UserScope(x)))
    && (forall d, x, e, k :: UserLinkedTo(t, d, x) && GroupLinkedTo(t, e, k)
          ==> Behind(t.marks, DsyncMember(e, d), MemberScope(k, x)))
  }

  ghost predicate Stable(t: Tables, owner: map<string, string>) {
    !t.hardDeletes && Rostered(t, owner) && Settled(t)
  }

  predicate KnownUser(t: Tables, u: UserData) {
    && u.idp.Some? && UserByExt(t.users, u.idp.value).Some?
    && (u.dsync.Some? ==> UserLinkedTo(t, u.dsync.value, u.idp.value))
  }

  predicate KnownGroup(t: Tables, g: GroupData) {
    && g.key.Some? && GroupByExt(t.groups, g.key.value).Some?
    && (g.dsync.Some? ==> GroupLinkedTo(t, g.dsync.value, g.key.value))
  }

  /** A timestamped event about rows that exist, under their own external ids; no group deletion. */
  predicate Ordinary(t: Tables, owner: map<string, string>, e: Event) {
    e.id.Some? && e.at.Some?
    && match e.change
       case UserUpsert(u) => KnownUser(t, u) && Get(owner, Or(u.name, u.idp).value) == u.idp
       case UserDelete(u) => KnownUser(t, u)
       case GroupUpsert(g) => KnownGroup(t, g)
       case GroupDelete(_) => false
       case Member(u, g, _) => KnownUser(t, u) && KnownGroup(t, g)
       case Other => true
  }

  // ---------------------------------------------------------------- finding rows

  lemma {:induction false} FirstIs<R>(rows: seq<R>, p: R -> bool, i: nat)
    requires i < |rows| && p(rows[i])
    requires forall j :: 0 <= j < i ==> !p(rows[j])
    ensures First(rows, p) == Some(rows[i])
  {
    if i > 0 {
      FirstIs(rows[1..], p, i - 1);
    }
  }

  lemma {:induction false} FirstFinds<R>(rows: seq<R>, p: R -> bool) returns (i: nat)
    requires First(rows, p).Some?
    ensures i < |rows| && First(rows, p) == Some(rows[i]) && p(rows[i])
  {
    if p(rows[0]) {
      i := 0;
    } else {
      var k := FirstFinds(rows[1..], p);
      i := k + 1;
    }
  }

  lemma UserAt(rows: seq<UserRow>, i: nat)
    requires i < |rows| && rows[i].ext.Some?
    requires forall j, k :: 0 <= j < k < |rows| ==> rows[j].id != rows[k].id && rows[j].ext != rows[k].ext
    ensures UserById(rows, rows[i].id) == Some(rows[i])
    ensures UserByExt(rows, rows[i].ext.value) == Some(rows[i])
  {
    FirstIs(rows, (r: UserRow) => r.id == rows[i].id, i);
    FirstIs(rows, (r: UserRow) => r.ext == Some(rows[i].ext.value), i);
  }

  lemma GroupAt(rows: seq<GroupRow>, i: nat)
    requires i < |rows| && rows[i].ext.Some?
    requires forall j, k :: 0 <= j < k < |rows| ==> rows[j].id != rows[k].id && rows[j].ext != rows[k].ext
    ensures GroupById(rows, rows[i].id) == Some(rows[i])
    ensures GroupByExt(rows, rows[i].ext.value) == Some(rows[i])
  {
    FirstIs(rows, (r: GroupRow) => r.id == rows[i].id, i);
    FirstIs(rows, (r: GroupRow) => r.ext == Some(rows[i].ext.value), i);
  }

  lemma FindUserIndex(rows: seq<UserRow>, x: string) returns (i: nat)
    requires UserByExt(rows, x).Some?
    ensures i < |rows| && UserByExt(rows, x) == Some(rows[i]) && rows[i].ext == Some(x)
  {
    i := FirstFinds(rows, (r: UserRow) => r.ext == Some(x));
  }

  lemma FindGroupIndex(rows: seq<GroupRow>, x: string) returns (i: nat)
    requires GroupByExt(rows, x).Some?
    ensures i < |rows| && GroupByExt(rows, x) == Some(rows[i]) && rows[i].ext == Some(x)
  {
    i := FirstFinds(rows, (r: GroupRow) => r.ext == Some(x));
  }

  lemma {:induction false} PutUserAt(rows: seq<UserRow>, i: nat, row: UserRow)
    requires i < |rows| && rows[i].id == row.id
    requires forall j :: 0 <= j < i ==> rows[j].id != row.id
    ensures PutUser(rows, row) == rows[i := row]
  {
    if i > 0 {
      PutUserAt(rows[1..], i - 1, row);
    }
  }

  lemma {:induction false} PutGroupAt(rows: seq<GroupRow>, i: nat, row: GroupRow)
    requires i < |rows| && rows[i].id == row.id
    requires forall j :: 0 <= j < i ==> rows[j].id != row.id
    ensures PutGroup(rows, row) == rows[i := row]
  {
    if i > 0 {
      PutGroupAt(rows[1..], i - 1, row);
    }
  }

  // ---------------------------------------------------------------- identities stay put

  /** The same rows under the same ids and external ids; names, flags and edges may differ. */
  ghost predicate SameIdentities(t: Tables, next: Tables) {
    && |next.users| == |t.users| && |next.groups| == |t.groups|
    && (forall i :: 0 <= i < |t.users| ==> next.users[i].id == t.users[i].id && next.users[i].ext == t.users[i].ext)
    && (forall i :: 0 <= i < |t.groups| ==>
      next.groups[i].id == t.groups[i].id && next.groups[i].ext == t.groups[i].ext)
    && next.userLinks == t.userLinks && next.groupLinks == t.groupLinks && next.hardDeletes == t.hardDeletes
  }

  lemma SameUsers(t: Tables, next: Tables, owner: map<string, string>, x: string)
    requires SameIdentities(t, next) && Rostered(t, owner) && Rostered(next, owner)
    ensures UserByExt(next.users, x).Some? <==> UserByExt(t.users, x).Some?
    ensures UserByExt(t.users, x).Some? ==> UserByExt(next.users, x).value.id == UserByExt(t.users, x).value.id
  {
    if UserByExt(t.users, x).Some? {
      var i := FindUserIndex(t.users, x);
      UserAt(next.users, i);
    } else if UserByExt(next.users, x).Some? {
      var i := FindUserIndex(next.users, x);
      UserAt(t.users, i);
    }
  }

  lemma SameGroups(t: Tables, next: Tables, owner: map<string, string>, k: string)
    requires SameIdentities(t, next) && Rostered(t, owner) && Rostered(next, owner)
    ensures GroupByExt(next.groups, k).Some? <==> GroupByExt(t.groups, k).Some?
    ensures GroupByExt(t.groups, k).Some? ==> GroupByExt(next.groups, k).value.id == GroupByExt(t.groups, k).value.id
  {
    if GroupByExt(t.groups, k).Some? {
      var i := FindGroupIndex(t.groups, k);
      GroupAt(next.groups, i);
    } else if GroupByExt(next.groups, k).Some? {
      var i := FindGroupIndex(next.groups, k);
      GroupAt(t.groups, i);
    }
  }

  lemma OrdinaryStays(t: Tables, next: Tables, owner: map<string, string>, e: Event)
    requires SameIdentities(t, next) && Rostered(t, owner) && Rostered(next, owner)
    requires Ordinary(t, owner, e)
    ensures Ordinary(next, owner, e)
  {
    match e.change
    case UserUpsert(u) => SameUsers(t, next, owner, u.idp.value);
    case UserDelete(u) => SameUsers(t, next, owner, u.idp.value);
    case GroupUpsert(g) => SameGroups(t, next, owner, g.key.value);
    case GroupDelete(_) =>
    case Member(u, g, _) =>
      SameUsers(t, next, owner, u.idp.value);
      SameGroups(t, next, owner, g.key.value);
    case Other =>
  }

  /** A row id, and so a Directory Sync id, belongs to one external id. */
  lemma OneExtPerLink(t: Tables, owner: map<string, string>, d: string, x: string, y: string)
    requires Rostered(t, owner) && UserLinkedTo(t, d, x) && UserLinkedTo(t, d, y)
    ensures x == y
  {
    var i := FindUserIndex(t.users, x);
    var j := FindUserIndex(t.users, y);
  }

  lemma OneKeyPerLink(t: Tables, owner: map<string, string>, d: string, x: string, y: string)
    requires Rostered(t, owner) && GroupLinkedTo(t, d, x) && GroupLinkedTo(t, d, y)
    ensures x == y
  {
    var i := FindGroupIndex(t.groups, x);
    var j := FindGroupIndex(t.groups, y);
  }

  // ---------------------------------------------------------------- what a handler does

  /** Rewriting one user row in place moves its own flag only. */
  lemma RewriteUser(t: Tables, owner: map<string, string>, i: nat, row: UserRow, s: Slot)
    requires Rostered(t, owner) && i < |t.users|
    requires row.id == t.users[i].id && row.ext == t.users[i].ext && Get(owner, row.name) == row.ext
    ensures WriteUser(t, row) == (t.(users := t.users[i := row]), Applied)
    ensures Rostered(t.(users := t.users[i := row]), owner)
    ensures SameIdentities(t, t.(users := t.users[i := row]))
    ensures Holds(t.(users := t.users[i := row]), s) == if s == Active(row.ext.value) then row.active else Holds(t, s)
  {
    PutUserAt(t.users, i, row);
    assert !NameTaken(t.users, row);
    var next := t.(users := t.users[i := row]);
    assert Rostered(next, owner) && SameIdentities(t, next);
    match s
    case Active(x) =>
      SameUsers(t, next, owner, x);
      if UserByExt(t.users, x).Some? {
        var j := FindUserIndex(t.users, x);
        UserAt(next.users, j);
      }
      if x == row.ext.value {
        UserAt(next.users, i);
      }
    case Edge(g, x) => SameUsers(t, next, owner, x);
  }

  lemma UpsertSetsTheFlag(t: Tables, owner: map<string, string>, u: UserData, s: Slot)
    requires Stable(t, owner) && KnownUser(t, u) && Get(owner, Or(u.name, u.idp).value) == u.idp
    ensures var (next, v) := UpsertUserFromEvent(t, u);
      && (v.Applied? || v.Skipped?) && Rostered(next, owner) && SameIdentities(t, next)
      && Holds(next, s) == if s == Active(u.idp.value) then u.active == Some(true) else Holds(t, s)
  {
    var i := FindUserIndex(t.users, u.idp.value);
    UserAt(t.users, i);
    RewriteUser(t, owner, i, UserRow(t.users[i].id, Or(u.name, u.idp).value, u.idp, u.active == Some(true)), s);
  }

  lemma DeleteClearsTheFlag(t: Tables, owner: map<string, string>, u: UserData, s: Slot)
    requires Stable(t, owner) && KnownUser(t, u)
    ensures var (next, v) := DeleteUserFromEvent(t, u);
      && (v.Applied? || v.Skipped?) && Rostered(next, owner) && SameIdentities(t, next)
      && Holds(next, s) == if s == Active(u.idp.value) then false else Holds(t, s)
  {
    var i := FindUserIndex(t.users, u.idp.value);
    UserAt(t.users, i);
    RewriteUser(t, owner, i, t.users[i].(ext := u.idp, active := false), s);
  }

  lemma RenamingMovesNothing(t: Tables, owner: map<string, string>, g: GroupData, s: Slot)
    requires Stable(t, owner) && KnownGroup(t, g)
    ensures var (next, v) := UpsertGroupFromEvent(t, g);
      && (v.Applied? || v.Skipped?) && Rostered(next, owner) && SameIdentities(t, next) && Holds(next, s) == Holds(t, s)
  {
    var i := FindGroupIndex(t.groups, g.key.value);
    GroupAt(t.groups, i);
    var row := t.groups[i].(name := Or(g.name, Some(t.groups[i].name)).value, ext := g.key);
    PutGroupAt(t.groups, i, row);
    var next := t.(groups := t.groups[i := row]);
    assert Rostered(next, owner) && SameIdentities(t, next);
    if s.Edge? {
      SameGroups(t, next, owner, s.group);
    }
  }

  lemma MembershipMovesOneEdge(t: Tables, owner: map<string, string>, u: UserData, g: GroupData, add: bool,
        at: Option<Time>, spare: Id)
    requires Stable(t, owner) && KnownUser(t, u) && KnownGroup(t, g)
    ensures var (next, v) := ChangeMembership(t, u, g, add, at, spare);
      && (v.Applied? || v.Skipped?)
      && var edge := (GroupByExt(t.groups, g.key.value).value.id, UserByExt(t.users, u.idp.value).value.id);
      && next == t.(edges := if add then t.edges + {edge} else t.edges - {edge})
  {
    var i := FindUserIndex(t.users, u.idp.value);
    UserAt(t.users, i);
    var j := FindGroupIndex(t.groups, g.key.value);
    GroupAt(t.groups, j);
  }

  lemma MembershipSetsTheEdge(t: Tables, owner: map<string, string>, u: UserData, g: GroupData, add: bool,
        at: Option<Time>,
      spare: Id, s: Slot)
    requires Stable(t, owner) && KnownUser(t, u) && KnownGroup(t, g)
    ensures var (next, v) := ChangeMembership(t, u, g, add, at, spare);
      && (v.Applied? || v.Skipped?) && Rostered(next, owner) && SameIdentities(t, next)
      && Holds(next, s) == if s == Edge(g.key.value, u.idp.value) then add else Holds(t, s)
  {
    MembershipMovesOneEdge(t, owner, u, g, add, at, spare);
    if s.Edge? && UserByExt(t.users, s.user).Some? && GroupByExt(t.groups, s.group).Some? {
      var i := FindUserIndex(t.users, u.idp.value);
      var j := FindGroupIndex(t.groups, g.key.value);
      var a := FindUserIndex(t.users, s.user);
      var b := FindGroupIndex(t.groups, s.group);
      assert a == i <==> t.users[a].id == t.users[i].id;
      assert b == j <==> t.groups[b].id == t.groups[j].id;
    }
  }

  // ---------------------------------------------------------------- one delivery is one register write

  predicate Fits(marks: map<Scope, Time>, s: Slot, at: Time) {
    ScopeOf(s) in marks ==> marks[ScopeOf(s)] <= at
  }

  /** This delivery decides this bit. */
  predicate Decides(t: Tables, e: Event, s: Slot) {
    && e.id.Some? && e.at.Some?
    && Touches(e.change) == Some(s) && e.id.value !in t.handled && Fits(t.marks, s, e.at.value)
  }

  /** Its own scope alone says whether an ordinary event is the newest, and no other event
      advances that scope. */
  lemma OwnScopeDecides(t: Tables, owner: map<string, string>, e: Event, s: Slot)
    requires Stable(t, owner) && Ordinary(t, owner, e)
    ensures Touches(e.change) == Some(s)
      ==> (IsNewestAcross(t.marks, EventScopes(t, e.change), e.at) <==> Fits(t.marks, s, e.at.value))
    ensures ScopeOf(s) in EventScopes(t, e.change) <==> Touches(e.change) == Some(s)
  {
    match e.change
    case UserUpsert(u) => LinkedIsKnown(t, u);
    case UserDelete(u) => LinkedIsKnown(t, u);
    case GroupUpsert(g) => LinkedGroupIsKnown(t, g);
    case GroupDelete(_) =>
    case Member(u, g, _) =>
      LinkedIsKnown(t, u);
      LinkedGroupIsKnown(t, g);
    case Other =>
  }

  lemma LinkedIsKnown(t: Tables, u: UserData)
    requires KnownUser(t, u)
    requires forall i, j :: 0 <= i < j < |t.users| ==>
      t.users[i].id != t.users[j].id && t.users[i].ext != t.users[j].ext
    ensures UserKey(LinkedUser(t, u), u) == u.idp
  {
    var i := FindUserIndex(t.users, u.idp.value);
    UserAt(t.users, i);
  }

  lemma LinkedGroupIsKnown(t: Tables, g: GroupData)
    requires KnownGroup(t, g)
    requires forall i, j :: 0 <= i < j < |t.groups| ==>
      t.groups[i].id != t.groups[j].id && t.groups[i].ext != t.groups[j].ext
    ensures GroupKey(LinkedGroup(t, g), g) == g.key
  {
    var i := FindGroupIndex(t.groups, g.key.value);
    GroupAt(t.groups, i);
  }

  /** A Directory Sync mark moves only together with the external id's mark. */
  lemma ScopesMoveTogether(t: Tables, owner: map<string, string>, e: Event)
    requires Stable(t, owner) && Ordinary(t, owner, e)
    ensures var own := EventScopes(t, e.change);
      && (forall d, x :: UserLinkedTo(t, d, x) && DsyncUser(d) in own ==> UserScope(x) in own)
      && (forall d, x, f, k :: UserLinkedTo(t, d, x) && GroupLinkedTo(t, f, k) && DsyncMember(f, d) in own ==>
        MemberScope(k, x) in own)
  {
    forall d, x | UserLinkedTo(t, d, x) && DsyncUser(d) in EventScopes(t, e.change)
      ensures UserScope(x) in EventScopes(t, e.change)
    {
      OneExtPerLink(t, owner, d, x, e.change.u.idp.value);
    }
    forall d, x, f, k | UserLinkedTo(t, d, x) && GroupLinkedTo(t, f, k) && DsyncMember(f, d) in EventScopes(t, e.change)
      ensures MemberScope(k, x) in EventScopes(t, e.change)
    {
      OneExtPerLink(t, owner, d, x, e.change.u.idp.value);
      OneKeyPerLink(t, owner, f, k, e.change.g.key.value);
    }
  }

  lemma HandlerSetsTheBit(t: Tables, owner: map<string, string>, e: Event, s: Slot)
    requires Stable(t, owner) && Ordinary(t, owner, e)
    ensures var (next, v) := ApplyEvent(t, e.change, e.at, e.spare);
      && !v.Failed? && (e.change != Other ==> !v.Ignored?)
      && Rostered(next, owner) && SameIdentities(t, next)
      && Holds(next, s) == if Touches(e.change) == Some(s) then Wants(e.change) else Holds(t, s)
  {
    match e.change
    case UserUpsert(u) => UpsertSetsTheFlag(t, owner, u, s);
    case UserDelete(u) => DeleteClearsTheFlag(t, owner, u, s);
    case GroupUpsert(g) => RenamingMovesNothing(t, owner, g, s);
    case GroupDelete(_) =>
    case Member(u, g, add) => MembershipSetsTheEdge(t, owner, u, g, add, e.at, e.spare, s);
    case Other =>
  }

  lemma RecordingKeepsSettled(t: Tables, next: Tables, owner: map<string, string>, e: Event)
    requires Stable(t, owner) && Ordinary(t, owner, e)
    requires Rostered(next, owner) && SameIdentities(t, next)
    requires next.marks == Recorded(t.marks, EventScopes(t, e.change), e.at)
    ensures Settled(next)
  {
    ScopesMoveTogether(t, owner, e);
    forall d, x | UserLinkedTo(next, d, x)
      ensures UserLinkedTo(t, d, x)
    {
      SameUsers(t, next, owner, x);
    }
    forall f, k | GroupLinkedTo(next, f, k)
      ensures GroupLinkedTo(t, f, k)
    {
      SameGroups(t, next, owner, k);
    }
  }

  /** The event is applied and recorded, but not yet logged. */
  lemma ApplyingWritesTheRegister(t: Tables, owner: map<string, string>, e: Event, s: Slot) returns (next: Tables)
    requires Stable(t, owner) && Ordinary(t, owner, e)
    requires IsNewestAcross(t.marks, EventScopes(t, e.change), e.at)
    ensures next == ApplyEvent(t, e.change, e.at, e.spare).0.(marks :=
      Recorded(t.marks, EventScopes(t, e.change), e.at))
    ensures next.handled == t.handled
    ensures Stable(next, owner) && SameIdentities(t, next)
    ensures Holds(next, s) == if Touches(e.change) == Some(s) then Wants(e.change) else Holds(t, s)
    ensures Get(next.marks, ScopeOf(s)) == if Touches(e.change) == Some(s) then e.at else Get(t.marks, ScopeOf(s))
  {
    HandlerSetsTheBit(t, owner, e, s);
    Ledger.ApplyKeepsTheLedger(t, e.change, e.at, e.spare);
    var applied := ApplyEvent(t, e.change, e.at, e.spare).0;
    next := applied.(marks := Recorded(t.marks, EventScopes(t, e.change), e.at));
    SameBits(applied, next, owner, s);
    assert SameIdentities(t, next);
    RecordingKeepsSettled(t, next, owner, e);
    OwnScopeDecides(t, owner, e, s);
  }

  lemma SameBits(t: Tables, next: Tables, owner: map<string, string>, s: Slot)
    requires next.users == t.users && next.groups == t.groups && next.edges == t.edges
    ensures Holds(next, s) == Holds(t, s)
    ensures Rostered(t, owner) ==> Rostered(next, owner)
  {
  }

  /** As a register takes a write: the event decides the bit, or leaves bit and mark alone. */
  ghost predicate RegisterWrite(t: Tables, next: Tables, owner: map<string, string>, e: Event, s: Slot)
    requires e.id.Some?
  {
    && Stable(next, owner) && SameIdentities(t, next)
    && Holds(next, s) == (if Decides(t, e, s) then Wants(e.change) else Holds(t, s))
    && Get(next.marks, ScopeOf(s)) == (if Decides(t, e, s) then e.at else Get(t.marks, ScopeOf(s)))
    && t.handled <= next.handled <= t.handled + {e.id.value}
    && (Decides(t, e, s) ==> e.id.value in next.handled)
  }

  /** Logging an event the handler applied makes the write complete. */
  lemma LoggedIsRegisterWrite(t: Tables, t2: Tables, next: Tables, owner: map<string, string>, e: Event, s: Slot)
    requires e.id.Some? && e.id.value !in t.handled && t2.handled == t.handled && next == t2.(handled := next.handled)
    requires t2.handled <= next.handled <= t2.handled + {e.id.value} &&
      (Decides(t, e, s) ==> e.id.value in next.handled)
    requires Stable(t2, owner) && SameIdentities(t, t2)
    requires Holds(t2, s) == (if Decides(t, e, s) then Wants(e.change) else Holds(t, s))
    requires Get(t2.marks, ScopeOf(s)) == (if Decides(t, e, s) then e.at else Get(t.marks, ScopeOf(s)))
    ensures RegisterWrite(t, next, owner, e, s)
  {
    LoggingKeepsStable(t2, next, owner, s);
    TransitiveIdentities(t, t2, next);
  }

  /** A delivery that was handled before or is not the newest of its scopes. */
  lemma SkippedIsRegisterWrite(t: Tables, owner: map<string, string>, e: Event, s: Slot)
    requires Stable(t, owner) && Ordinary(t, owner, e)
    requires e.id.value in t.handled || !IsNewestAcross(t.marks, EventScopes(t, e.change), e.at)
    ensures !Deliver(t, e, Apply).1.Failed? && RegisterWrite(t, Deliver(t, e, Apply).0, owner, e, s)
  {
    var next := Deliver(t, e, Apply).0;
    OwnScopeDecides(t, owner, e, s);
    assert next == t.(handled := next.handled) && !Decides(t, e, s);
    LoggingKeepsStable(t, next, owner, s);
  }

  lemma AppliedIsRegisterWrite(t: Tables, owner: map<string, string>, e: Event, s: Slot)
    requires Stable(t, owner) && Ordinary(t, owner, e)
    requires e.id.value !in t.handled && IsNewestAcross(t.marks, EventScopes(t, e.change), e.at)
    ensures !Deliver(t, e, Apply).1.Failed? && RegisterWrite(t, Deliver(t, e, Apply).0, owner, e, s)
  {
    var next := Deliver(t, e, Apply).0;
    var t2 := ApplyingWritesTheRegister(t, owner, e, s);
    assert !Deliver(t, e, Apply).1.Failed? && next == t2.(handled := next.handled)
           && next.handled in {t.handled, t.handled + {e.id.value}} &&
             (Decides(t, e, s) ==> e.id.value in next.handled) by {
      DeliversAndLogs(t, owner, e, s);
    }
    assert Decides(t, e, s) <==> Touches(e.change) == Some(s) by {
      OwnScopeDecides(t, owner, e, s);
    }
    LoggedIsRegisterWrite(t, t2, next, owner, e, s);
  }

  lemma DeliversAndLogs(t: Tables, owner: map<string, string>, e: Event, s: Slot)
    requires Stable(t, owner) && Ordinary(t, owner, e)
    requires e.id.value !in t.handled && IsNewestAcross(t.marks, EventScopes(t, e.change), e.at)
    ensures var next := Deliver(t, e, Apply).0;
      && !Deliver(t, e, Apply).1.Failed?
      && next == ApplyEvent(t, e.change, e.at, e.spare).0.(marks :=
        Recorded(t.marks, EventScopes(t, e.change), e.at), handled := next.handled)
      && next.handled in {t.handled, t.handled + {e.id.value}} && (Decides(t, e, s) ==> e.id.value in next.handled)
  {
    HandlerSetsTheBit(t, owner, e, s);
    Ledger.ApplyKeepsTheLedger(t, e.change, e.at, e.spare);
  }

  /** One delivery is such a write, and nothing throws. */
  lemma DeliveryIsARegisterWrite(t: Tables, owner: map<string, string>, e: Event, s: Slot)
    requires Stable(t, owner) && Ordinary(t, owner, e)
    ensures !Deliver(t, e, Apply).1.Failed? && RegisterWrite(t, Deliver(t, e, Apply).0, owner, e, s)
  {
    if e.id.value in t.handled || !IsNewestAcross(t.marks, EventScopes(t, e.change), e.at) {
      SkippedIsRegisterWrite(t, owner, e, s);
    } else {
      AppliedIsRegisterWrite(t, owner, e, s);
    }
  }

  lemma LoggingKeepsStable(t: Tables, next: Tables, owner: map<string, string>, s: Slot)
    requires next == t.(handled := next.handled) && Stable(t, owner)
    ensures Stable(next, owner) && SameIdentities(t, next) && Holds(next, s) == Holds(t, s)
  {
    assert forall d, x :: UserLinkedTo(next, d, x) ==> UserLinkedTo(t, d, x);
    assert forall f, k :: GroupLinkedTo(next, f, k) ==> GroupLinkedTo(t, f, k);
  }

  // ---------------------------------------------------------------- any order of deliveries

  /** The tables after these deliveries, in this order. */
  function Run(t: Tables, es: seq<Event>): Tables {
    if es == [] then t else Deliver(Run(t, es[..|es| - 1]), es[|es| - 1], Apply).0
  }

  /** An event that could still decide the bit: nothing newer was recorded before the run. */
  predicate Eligible(t: Tables, e: Event, s: Slot) {
    Touches(e.change) == Some(s) && e.at.Some? && Fits(t.marks, s, e.at.value)
  }

  /** The newest of them. */
  ghost predicate Newest(t: Tables, log: set<Event>, s: Slot, e: Event) {
    && e in log && Eligible(t, e, s)
    && forall f :: f in log && Eligible(t, f, s) ==> f.at.value <= e.at.value
  }

  /** The events of a log are ordinary, new to the listener, and told apart by their ids. */
  ghost predicate Log(t: Tables, owner: map<string, string>, log: set<Event>) {
    && Stable(t, owner)
    && (forall e :: e in log ==> Ordinary(t, owner, e) && e.id.value !in t.handled)
    && (forall e, f :: e in log && f in log && e.id == f.id ==> e == f)
  }

  /** A delivery order of the log: every event arrives, as often as it likes. */
  ghost predicate Delivers(es: seq<Event>, log: set<Event>) {
    forall e :: e in es <==> e in log
  }

  /** Where the bit stands after some of the log: as the newest eligible event delivered so far
      wants it, or untouched. */
  ghost predicate Decided(t: Tables, now: Tables, es: seq<Event>, s: Slot) {
    if forall e :: e in es ==> !Eligible(t, e, s) then
      Holds(now, s) == Holds(t, s) && Get(now.marks, ScopeOf(s)) == Get(t.marks, ScopeOf(s))
    else exists e ::
      Newest(t, Elements(es), s, e) && Holds(now, s) == Wants(e.change) && Get(now.marks, ScopeOf(s)) == e.at
  }

  /** How far some of the log has brought the tables. */
  ghost predicate Reached(t: Tables, now: Tables, owner: map<string, string>, es: seq<Event>, s: Slot) {
    && Stable(now, owner) && SameIdentities(t, now) && Decided(t, now, es, s)
    && (forall i :: i in now.handled ==> i in t.handled || exists e :: e in es && e.id == Some(i))
  }

  /** The listener is a last-writer-wins register per bit, on every delivery order. */
  lemma {:induction false} NewestDecides(t: Tables, owner: map<string, string>, log: set<Event>, es: seq<Event>,
        s: Slot)
    requires Log(t, owner, log)
    requires forall e :: e in es ==> e in log
    ensures Reached(t, Run(t, es), owner, es, s)
  {
    if es != [] {
      var n := |es| - 1;
      NewestDecides(t, owner, log, es[..n], s);
      var before := Run(t, es[..n]);
      OrdinaryStays(t, before, owner, es[n]);
      DeliveryIsARegisterWrite(before, owner, es[n], s);
      OneMore(t, before, Run(t, es), owner, log, es, s);
    }
  }

  lemma OneMore(t: Tables, before: Tables, now: Tables, owner: map<string, string>, log: set<Event>, es: seq<Event>,
        s: Slot)
    requires es != [] && Log(t, owner, log) && Reached(t, before, owner, es[..|es| - 1], s)
    requires forall f :: f in es ==> f in log
    requires es[|es| - 1].id.Some? && RegisterWrite(before, now, owner, es[|es| - 1], s)
    ensures Reached(t, now, owner, es, s)
  {
    var earlier, e := es[..|es| - 1], es[|es| - 1];
    assert es == earlier + [e] && e in log && forall f :: f in earlier ==> f in log;
    TransitiveIdentities(t, before, now);
    KnowsItsEvents(t, before, owner, log, earlier, e, s);
    StaysDecided(t, before, now, earlier, e, s);
    HandledGrows(t, before, now, earlier, e);
  }

  /** An event handled before is one of those delivered before. */
  lemma KnowsItsEvents(t: Tables, before: Tables, owner: map<string, string>, log: set<Event>, es: seq<Event>, e: Event,
        s: Slot)
    requires Log(t, owner, log) && Reached(t, before, owner, es, s)
    requires e in log && forall f :: f in es ==> f in log
    ensures e.id.Some? && (e.id.value in before.handled ==> e in es)
  {
  }

  lemma HandledGrows(t: Tables, before: Tables, now: Tables, es: seq<Event>, e: Event)
    requires e.id.Some? && now.handled <= before.handled + {e.id.value}
    requires forall i :: i in before.handled ==> i in t.handled || exists f :: f in es && f.id == Some(i)
    ensures forall i :: i in now.handled ==> i in t.handled || exists f :: f in es + [e] && f.id == Some(i)
  {
    forall i | i in now.handled
      ensures i in t.handled || exists f :: f in es + [e] && f.id == Some(i)
    {
      if i in before.handled && i !in t.handled {
        var f :| f in es && f.id == Some(i);
        assert f in es + [e];
      } else if i !in t.handled {
        assert e in es + [e];
      }
    }
  }

  lemma TransitiveIdentities(a: Tables, b: Tables, c: Tables)
    requires SameIdentities(a, b) && SameIdentities(b, c)
    ensures SameIdentities(a, c)
  {
  }

  lemma StaysDecided(t: Tables, before: Tables, now: Tables, es: seq<Event>, e: Event, s: Slot)
    requires Decided(t, before, es, s)
    requires e.id.Some? && e.at.Some? && (e.id.value in before.handled ==> e in es)
    requires Holds(now, s) == (if Decides(before, e, s) then Wants(e.change) else Holds(before, s))
    requires Get(now.marks, ScopeOf(s)) == (if Decides(before, e, s) then e.at else Get(before.marks, ScopeOf(s)))
    ensures Decided(t, now, es + [e], s)
  {
    assert Elements(es + [e]) == Elements(es) + {e};
    if forall f :: f in es ==> !Eligible(t, f, s) {
      FirstEligible(t, before, now, es, e, s);
    } else {
      NextEligible(t, before, now, es, e, s);
    }
  }

  lemma FirstEligible(t: Tables, before: Tables, now: Tables, es: seq<Event>, e: Event, s: Slot)
    requires Decided(t, before, es, s) && forall f :: f in es ==> !Eligible(t, f, s)
    requires e.id.Some? && e.at.Some? && (e.id.value in before.handled ==> e in es)
    requires Holds(now, s) == (if Decides(before, e, s) then Wants(e.change) else Holds(before, s))
    requires Get(now.marks, ScopeOf(s)) == (if Decides(before, e, s) then e.at else Get(before.marks, ScopeOf(s)))
    ensures Decided(t, now, es + [e], s)
  {
    assert Fits(before.marks, s, e.at.value) == Fits(t.marks, s, e.at.value);
    if Eligible(t, e, s) {
      assert e in es + [e] && Newest(t, Elements(es + [e]), s, e);
    } else {
      assert forall f :: f in es + [e] ==> !Eligible(t, f, s);
    }
  }

  lemma NextEligible(t: Tables, before: Tables, now: Tables, es: seq<Event>, e: Event, s: Slot)
    requires Decided(t, before, es, s) && !(forall f :: f in es ==> !Eligible(t, f, s))
    requires e.id.Some? && e.at.Some? && (e.id.value in before.handled ==> e in es)
    requires Holds(now, s) == (if Decides(before, e, s) then Wants(e.change) else Holds(before, s))
    requires Get(now.marks, ScopeOf(s)) == (if Decides(before, e, s) then e.at else Get(before.marks, ScopeOf(s)))
    ensures Decided(t, now, es + [e], s)
  {
    assert Elements(es + [e]) == Elements(es) + {e};
    var w :| Newest(t, Elements(es), s, w) && Holds(before, s) == Wants(w.change) &&
      Get(before.marks, ScopeOf(s)) == w.at;
    assert w in es + [e];
    assert Newest(t, Elements(es + [e]), s, if Decides(before, e, s) then e else w);
  }

  /** Whatever the order, some newest event decides; it is the same for every order as soon as
      the newest events agree. */
  ghost predicate NewestAgree(t: Tables, log: set<Event>) {
    forall s, e, f :: Newest(t, log, s, e) && Newest(t, log, s, f) ==> Wants(e.change) == Wants(f.change)
  }

  ghost predicate OrdersAgree(t: Tables, log: set<Event>) {
    forall es, fs, s :: Delivers(es, log) && Delivers(fs, log) ==> Holds(Run(t, es), s) == Holds(Run(t, fs), s)
  }

  /** A newest event delivered last, for the first time, decides. */
  lemma LastNewestWins(t: Tables, owner: map<string, string>, log: set<Event>, e: Event, s: Slot)
    returns (es: seq<Event>)
    requires Log(t, owner, log) && Newest(t, log, s, e)
    ensures Delivers(es, log) && Holds(Run(t, es), s) == Wants(e.change)
  {
    var others := Enumerate(log - {e});
    es := others + [e];
    assert es[..|es| - 1] == others;
    NewestDecides(t, owner, log, others, s);
    var before := Run(t, others);
    OrdinaryStays(t, before, owner, e);
    DeliveryIsARegisterWrite(before, owner, e, s);
    assert forall f :: f in others ==> f != e && f in log;
    assert e.id.value !in before.handled;
    assert Fits(before.marks, s, e.at.value);
  }

  lemma {:induction false} Enumerate(log: set<Event>) returns (es: seq<Event>)
    ensures Delivers(es, log)
  {
    if log == {} {
      es := [];
    } else {
      var e :| e in log;
      var rest := Enumerate(log - {e});
      es := rest + [e];
    }
  }

  /** Every delivery order of the same events, duplicates allowed, ends with the same active flags
      and membership edges if and only if no two newest events of a scope want different things. */
  lemma OrderDoesNotMatter(t: Tables, owner: map<string, string>, log: set<Event>)
    requires Log(t, owner, log)
    ensures OrdersAgree(t, log) <==> NewestAgree(t, log)
  {
    if NewestAgree(t, log) {
      forall es, fs, s | Delivers(es, log) && Delivers(fs, log)
        ensures Holds(Run(t, es), s) == Holds(Run(t, fs), s)
      {
        NewestDecides(t, owner, log, es, s);
        NewestDecides(t, owner, log, fs, s);
        assert Elements(es) == log && Elements(fs) == log;
      }
    } else {
      var s, e, f :| Newest(t, log, s, e) && Newest(t, log, s, f) && Wants(e.change) != Wants(f.change);
      var es := LastNewestWins(t, owner, log, e, s);
      var fs := LastNewestWins(t, owner, log, f, s);
    }
  }

  /** The same user in both, equally active. */
  predicate SameUser(a: Tables, b: Tables, i: nat) {
    && i < |a.users| && i < |b.users|
    && a.users[i].id == b.users[i].id && a.users[i].ext == b.users[i].ext && a.users[i].active == b.users[i].active
  }

  lemma SameBitsSameRows(t: Tables, a: Tables, b: Tables, owner: map<string, string>)
    requires SameIdentities(t, a) && SameIdentities(t, b)
    requires Rostered(t, owner) && Rostered(a, owner) && Rostered(b, owner)
    requires forall s :: Holds(a, s) == Holds(b, s)
    ensures forall i :: 0 <= i < |t.users| ==> SameUser(a, b, i)
    ensures forall g, u :: g in t.groups && u in t.users ==> ((g.id, u.id) in a.edges <==> (g.id, u.id) in b.edges)
  {
    forall i | 0 <= i < |t.users|
      ensures SameUser(a, b, i)
    {
      UserAt(a.users, i);
      UserAt(b.users, i);
      assert Holds(a, Active(t.users[i].ext.value)) == Holds(b, Active(t.users[i].ext.value));
    }
    forall g, u | g in t.groups && u in t.users
      ensures (g.id, u.id) in a.edges <==> (g.id, u.id) in b.edges
    {
      var i :| 0 <= i < |t.users| && t.users[i] == u;
      var j :| 0 <= j < |t.groups| && t.groups[j] == g;
      UserAt(a.users, i);
      UserAt(b.users, i);
      GroupAt(a.groups, j);
      GroupAt(b.groups, j);
      assert Holds(a, Edge(g.ext.value, u.ext.value)) == Holds(b, Edge(g.ext.value, u.ext.value));
    }
  }

  /** In particular, distinct timestamps per scope are enough: any two delivery orders end with the
      same active flags and the same edges between the directory's rows. */
  lemma DistinctTimesConverge(t: Tables, owner: map<string, string>, log: set<Event>, es: seq<Event>, fs: seq<Event>)
    requires Log(t, owner, log) && Delivers(es, log) && Delivers(fs, log)
    requires forall e, f ::
      e in log && f in log && Touches(e.change).Some? && Touches(e.change) == Touches(f.change) && e.at == f.at ==>
        e == f
    ensures forall i :: 0 <= i < |t.users| ==> SameUser(Run(t, es), Run(t, fs), i)
    ensures forall g, u :: g in t.groups && u in t.users ==>
      ((g.id, u.id) in Run(t, es).edges <==> (g.id, u.id) in Run(t, fs).edges)
  {
    assert NewestAgree(t, log);
    OrderDoesNotMatter(t, owner, log);
    NewestDecides(t, owner, log, es, Active(""));
    NewestDecides(t, owner, log, fs, Active(""));
    SameBitsSameRows(t, Run(t, es), Run(t, fs), owner);
  }
}
