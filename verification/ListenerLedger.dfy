// What the last-writer-wins ledger guarantees over runs that mix inert and active periods.

module ListenerLedger {
  import opened Common
  import opened Listener

  datatype Delivery = Delivery(event: Event, instruction: Instruction)

  /** The tables after a run of deliveries, whatever they are and in whatever order they came. */
  function Run(t: Tables, ds: seq<Delivery>): Tables {
    if ds == [] then t
    else Deliver(Run(t, ds[..|ds| - 1]), ds[|ds| - 1].event, ds[|ds| - 1].instruction).0
  }

  /** Everything the listener keeps about users, groups and memberships. */
  function Rows(t: Tables): (seq<UserRow>, seq<GroupRow>, set<(Id, Id)>) {
    (t.users, t.groups, t.edges)
  }

  /** The scopes whose high-water mark a delivery advances. */
  function Advances(t: Tables, d: Delivery): set<Scope> {
    match d.instruction
    case Inert(known) => InertScopes(t, d.event.change, known)
    case Apply =>
      if (d.event.id.Some? && d.event.id.value in t.handled)
         || !IsNewestAcross(t.marks, EventScopes(t, d.event.change), d.event.at)
         || ApplyEvent(t, d.event.change, d.event.at, d.event.spare).1.Failed?
      then {}
      else EventScopes(t, d.event.change)
  }

  ghost predicate NoLower(before: map<Scope, Time>, after: map<Scope, Time>) {
    forall s :: s in before ==> s in after && before[s] <= after[s]
  }

  predicate SameLedger(t: Tables, next: Tables) {
    && next.marks == t.marks && next.handled == t.handled && next.hardDeletes == t.hardDeletes
    && next.userLinks == t.userLinks && next.groupLinks == t.groupLinks
  }

  lemma MakingAMemberKeepsTheLedger(t: Tables, u: UserData, g: GroupData, add: bool, spare: Id, user: Option<UserRow>,
      group: Option<GroupRow>, ru: Resolution, rg: Resolution)
    requires Or(u.name, u.idp).Some? && (g.key.Some? || g.name.Some?)
    ensures SameLedger(t, MakeMember(t, u, g, add, spare, user, group, ru, rg).0)
  {
  }

  lemma MembershipKeepsTheLedger(t: Tables, u: UserData, g: GroupData, add: bool, at: Option<Time>, spare: Id)
    ensures SameLedger(t, ChangeMembership(t, u, g, add, at, spare).0)
  {
    var userName := Or(u.name, u.idp);
    if userName.Some? && (g.key.Some? || g.name.Some?) {
      var ru, rg := Resolve(t.userLinks, u.dsync), Resolve(t.groupLinks, g.dsync);
      var user, group := FindUser(t.users, u.idp, userName, ru), FindGroup(t.groups, g.key, g.name, rg);
      MakingAMemberKeepsTheLedger(t, u, g, add, spare, user, group, ru, rg);
    }
  }

  lemma UpsertKeepsTheLedger(t: Tables, u: UserData)
    ensures SameLedger(t, UpsertUserFromEvent(t, u).0)
  {
  }

  lemma UserEventsKeepTheLedger(t: Tables, u: UserData)
    ensures SameLedger(t, UpsertUserFromEvent(t, u).0)
    ensures SameLedger(t, DeleteUserFromEvent(t, u).0)
  {
    UpsertKeepsTheLedger(t, u);
  }

  lemma ApplyKeepsTheLedger(t: Tables, c: Change, at: Option<Time>, spare: Id)
    ensures SameLedger(t, ApplyEvent(t, c, at, spare).0)
  {
    match c
    case UserUpsert(u) => UserEventsKeepTheLedger(t, u);
    case UserDelete(u) => UserEventsKeepTheLedger(t, u);
    case GroupUpsert(g) =>
    case GroupDelete(g) =>
    case Member(u, g, add) => MembershipKeepsTheLedger(t, u, g, add, at, spare);
    case Other =>
  }

  /** The marks after a delivery are those of the scopes it advances, recorded. */
  lemma DeliveryRecords(t: Tables, d: Delivery)
    ensures Deliver(t, d.event, d.instruction).0.marks == Recorded(t.marks, Advances(t, d), d.event.at)
  {
    if d.instruction.Apply? {
      ApplyKeepsTheLedger(t, d.event.change, d.event.at, d.event.spare);
      assert Recorded(t.marks, {}, d.event.at) == t.marks;
    }
  }

  lemma RecordingRaises(marks: map<Scope, Time>, scopes: set<Scope>, at: Option<Time>)
    ensures NoLower(marks, Recorded(marks, scopes, at))
    ensures at.Some? ==> forall s :: s in scopes ==>
      s in Recorded(marks, scopes, at) && at.value <= Recorded(marks, scopes, at)[s]
    ensures forall s :: s in Recorded(marks, scopes, at) && s !in scopes ==>
      s in marks && Recorded(marks, scopes, at)[s] == marks[s]
  {
  }

  /** One delivery. Inert: no row changes, yet the marks advance. Active: rows change only when the
      event is no duplicate and is at least as new as every mark of every scope it has. A handler
      error leaves the ledger as it was, so that a redelivery can repair it. */
  lemma OneDelivery(t: Tables, d: Delivery)
    ensures var (next, v) := Deliver(t, d.event, d.instruction);
      && NoLower(t.marks, next.marks)
      && (d.event.at.Some? ==> forall s :: s in Advances(t, d) ==> s in next.marks && d.event.at.value <= next.marks[s])
      && (forall s :: s in next.marks && s !in Advances(t, d) ==> s in t.marks && next.marks[s] == t.marks[s])
      && (Rows(next) != Rows(t) ==>
        d.instruction.Apply? && IsNewestAcross(t.marks, EventScopes(t, d.event.change), d.event.at)
                                    && !(d.event.id.Some? && d.event.id.value in t.handled))
      && (v.Failed? ==> next.marks == t.marks && next.handled == t.handled)
  {
    ApplyKeepsTheLedger(t, d.event.change, d.event.at, d.event.spare);
    DeliveryRecords(t, d);
    RecordingRaises(t.marks, Advances(t, d), d.event.at);
  }

  /** Over any run: the marks only grow. */
  lemma {:induction false} MarksOnlyGrow(t: Tables, ds: seq<Delivery>, k: nat)
    requires k <= |ds|
    ensures NoLower(Run(t, ds[..k]).marks, Run(t, ds).marks)
  {
    if k < |ds| {
      var shorter := ds[..|ds| - 1];
      assert shorter[..k] == ds[..k];
      MarksOnlyGrow(t, shorter, k);
      OneDelivery(Run(t, shorter), ds[|ds| - 1]);
    } else {
      assert ds[..k] == ds;
    }
  }

  /** Over any run mixing inert and active periods: a delivery that changes a row was made while
      active, and is at least as new as every earlier delivery that recorded one of its scopes,
      the ones recorded while inert included. */
  lemma LedgerGatesRows(t: Tables, ds: seq<Delivery>, last: Delivery, k: nat, scope: Scope)
    requires k < |ds|
    requires scope in Advances(Run(t, ds[..k]), ds[k])
    requires scope in EventScopes(Run(t, ds), last.event.change)
    requires ds[k].event.at.Some? && last.event.at.Some?
    requires Rows(Run(t, ds + [last])) != Rows(Run(t, ds))
    ensures last.instruction.Apply?
    ensures ds[k].event.at.value <= last.event.at.value
  {
    var longer := ds + [last];
    assert longer[..|longer| - 1] == ds;
    OneDelivery(Run(t, ds), last);
    var upTo := ds[..k + 1];
    assert upTo[..|upTo| - 1] == ds[..k];
    OneDelivery(Run(t, ds[..k]), ds[k]);
    MarksOnlyGrow(t, ds, k + 1);
  }

  /** An all-inert run changes no row, however long it is. */
  lemma {:induction false} InertRunTouchesNoRow(t: Tables, ds: seq<Delivery>)
    requires forall d :: d in ds ==> d.instruction.Inert?
    ensures Rows(Run(t, ds)) == Rows(t)
    ensures Run(t, ds).handled == t.handled
  {
    if ds != [] {
      InertRunTouchesNoRow(t, ds[..|ds| - 1]);
      assert ds[|ds| - 1] in ds;
    }
  }
}
