// The divergence ledger `native_write_failures` under live traffic and any number of
// overlapping reconciles, and the expirable lease that is meant to keep reconciles apart.

module SweepLedger {
  import opened Common

  type Key = string
  type Stamp = nat

  /** A row: is it a DELETE gap, how often it was seen, and which reconcile stamped it. */
  datatype Row = Row(deletes: bool, attempts: nat, stamp: Option<Stamp>)

  type Ledger = map<Key, Row>

  /** One statement on the ledger. `Fail` and `Settle` come from live traffic, the other three
      from the reconcile whose sweep token they carry. */
  datatype Statement =
    | Fail(key: Key, deletes: bool)
    | Settle(key: Key)
    | Mark(stamp: Stamp)
    | Repair(stamp: Stamp, key: Key)
    | Sweep(stamp: Stamp)

  predicate Sweepable(row: Row, stamp: Stamp) {
    row.stamp == Some(stamp) && !row.deletes
  }

  function Apply(l: Ledger, s: Statement): Ledger {
    match s
    case Fail(key, deletes) => l[key := Row(deletes, if key in l then l[key].attempts + 1 else 1, None)]
    case Settle(key) => l - {key}
    case Mark(stamp) => map k | k in l :: if l[k].stamp.None? then l[k].(stamp := Some(stamp)) else l[k]
    case Repair(stamp, key) => if key in l && Sweepable(l[key], stamp) then l - {key} else l
    case Sweep(stamp) => map k | k in l && !Sweepable(l[k], stamp) :: l[k]
  }

  /** The table and its five statements, as the database runs them. */
  class FailureTable {
    var rows: Ledger

    constructor ()
      ensures rows == map[]
    {
      rows := map[];
    }

    method RecordNativeWriteFailure(key: Key, deletes: bool)
      modifies this
      ensures rows == Apply(old(rows), Fail(key, deletes))
    {
      if key in rows {
        rows := rows[key := rows[key].(deletes := deletes, attempts := rows[key].attempts + 1, stamp := None)];
      } else {
        rows := rows[key := Row(deletes, 1, None)];
      }
    }

    method ClearNativeWriteFailure(key: Key)
      modifies this
      ensures rows == Apply(old(rows), Settle(key))
    {
      rows := rows - {key};
    }

    method MarkDivergencesForSweep(stamp: Stamp)
      modifies this
      ensures rows == Apply(old(rows), Mark(stamp))
    {
      var pending := rows.Keys;
      while pending != {}
        invariant pending <= old(rows).Keys == rows.Keys
        invariant forall k :: k in pending ==> rows[k] == old(rows)[k]
        invariant forall k :: k in rows && k !in pending ==> rows[k] == Apply(old(rows), Mark(stamp))[k]
        decreases pending
      {
        var k :| k in pending;
        if rows[k].stamp.None? {
          rows := rows[k := rows[k].(stamp := Some(stamp))];
        }
        pending := pending - {k};
      }
    }

    method ClearReplayedDivergenceForResource(stamp: Stamp, key: Key)
      modifies this
      ensures rows == Apply(old(rows), Repair(stamp, key))
    {
      if key in rows && rows[key].stamp == Some(stamp) && !rows[key].deletes {
        rows := rows - {key};
      }
    }

    method ClearReplayedDivergences(stamp: Stamp)
      modifies this
      ensures rows == Apply(old(rows), Sweep(stamp))
    {
      var swept := set k | k in rows && rows[k].stamp == Some(stamp) && !rows[k].deletes;
      rows := rows - swept;
    }
  }

  // ---------------------------------------------------------------- runs

  function After(l: Ledger, run: seq<Statement>): Ledger {
    if run == [] then l else Apply(After(l, run[..|run| - 1]), run[|run| - 1])
  }

  ghost predicate MarkedAt(l: Ledger, run: seq<Statement>, i: nat, stamp: Stamp, key: Key)
    requires i < |run|
  {
    run[i] == Mark(stamp) && key in After(l, run[..i]) && After(l, run[..i])[key].stamp.None?
  }

  ghost predicate FailsAfter(run: seq<Statement>, i: nat, key: Key) {
    exists j :: i < j < |run| && run[j].Fail? && run[j].key == key
  }

  /** Reconcile `stamp` marked this key, and live traffic has not failed on it since. */
  ghost predicate Claimed(l: Ledger, run: seq<Statement>, stamp: Stamp, key: Key) {
    exists i :: 0 <= i < |run| && MarkedAt(l, run, i, stamp, key) && !FailsAfter(run, i, key)
  }

  lemma ClaimedStep(l: Ledger, run: seq<Statement>, stamp: Stamp, key: Key)
    requires run != []
    ensures var k := |run| - 1;
      Claimed(l, run, stamp, key) <==>
        MarkedAt(l, run, k, stamp, key) || (Claimed(l, run[..k], stamp, key) && !(run[k].Fail? && run[k].key == key))
  {
    var k := |run| - 1;
    var before := run[..k];
    assert forall i :: 0 <= i < k ==> before[..i] == run[..i];
    assert forall i :: 0 <= i < k ==> (MarkedAt(l, run, i, stamp, key) <==> MarkedAt(l, before, i, stamp, key));
    forall i | 0 <= i < k
      ensures FailsAfter(run, i, key) <==> FailsAfter(before, i, key) || (run[k].Fail? && run[k].key == key)
    {
      if j :| i < j < k && before[j].Fail? && before[j].key == key {
        assert run[j].Fail? && run[j].key == key;
      }
      if j :| i < j < |run| && run[j].Fail? && run[j].key == key {
        assert j < k ==> before[j].Fail?;
      }
    }
  }

  /** On any run, retried marks included, a row carries a reconcile's stamp exactly when that reconcile
      marked it and no failure has been recorded on the key since; clears and re-creations in between
      included. */
  lemma {:induction false} StampMeansUntouched(l: Ledger, run: seq<Statement>, stamp: Stamp, key: Key)
    requires key in l ==> l[key].stamp != Some(stamp)
    requires key in After(l, run)
    ensures After(l, run)[key].stamp == Some(stamp) <==> Claimed(l, run, stamp, key)
    decreases |run|
  {
    if run != [] {
      var k := |run| - 1;
      ClaimedStep(l, run, stamp, key);
      if key in After(l, run[..k]) {
        StampMeansUntouched(l, run[..k], stamp, key);
      } else {
        assert run[k].Fail? && run[k].key == key;
      }
    } else {
      assert !Claimed(l, run, stamp, key);
    }
  }

  /** A reconcile deletes a row only if it marked that row itself, no failure was recorded on the
      key since its mark, and the row is not a DELETE gap; its final sweep deletes every such row. */
  lemma SweepsOnlyWhatItClaimed(l: Ledger, run: seq<Statement>, stamp: Stamp, key: Key, s: Statement)
    requires key in l ==> l[key].stamp != Some(stamp)
    requires key in After(l, run) && (s == Sweep(stamp) || s == Repair(stamp, key))
    ensures key !in Apply(After(l, run), s) <==> Claimed(l, run, stamp, key) && !After(l, run)[key].deletes
  {
    StampMeansUntouched(l, run, stamp, key);
  }

  /** Live traffic only: neither a failure recorded on this key, nor a settled write. */
  predicate Untouched(run: seq<Statement>, key: Key) {
    forall i :: 0 <= i < |run| ==> !(run[i].Fail? && run[i].key == key) && !(run[i].Settle? && run[i].key == key)
  }

  predicate NoneOf(run: seq<Statement>, stamp: Stamp) {
    forall i :: 0 <= i < |run| ==>
      !(run[i].Repair? && run[i].stamp == stamp) && !(run[i].Sweep? && run[i].stamp == stamp)
  }

  /** The price of that rule: a row a first reconcile marked and did not clear survives every
      later reconcile, clean or not, until live traffic touches its key again. */
  lemma {:induction false} LeftoverStampsOutliveReconciles(l: Ledger, run: seq<Statement>, first: Stamp, key: Key)
    requires key in l && l[key].stamp == Some(first)
    requires Untouched(run, key) && NoneOf(run, first)
    ensures key in After(l, run) && After(l, run)[key] == l[key]
    decreases |run|
  {
    if run != [] {
      LeftoverStampsOutliveReconciles(l, run[..|run| - 1], first, key);
    }
  }

  // ---------------------------------------------------------------- the reconcile lease

  const TTL: nat := 1800

  /** `reconcile_token` and `reconcile_started_at`. */
  datatype Lease = Free | Taken(token: Stamp, since: nat)

  datatype LeaseOp = Take(token: Stamp, now: nat) | Drop(token: Stamp, now: nat)

  predicate Grants(lease: Lease, now: nat) {
    lease.Free? || lease.since + TTL <= now
  }

  function Leased(lease: Lease, op: LeaseOp): Lease {
    match op
    case Take(token, now) => if Grants(lease, now) then Taken(token, now) else lease
    case Drop(token, _) => if lease.Taken? && lease.token == token then Free else lease
  }

  class ReconcileLease {
    var lease: Lease

    constructor ()
      ensures lease == Free
    {
      lease := Free;
    }

    /** One conditional update; whether it changed a row is the answer. */
    method ClaimReconcileRun(token: Stamp, now: nat) returns (claimed: bool)
      modifies this
      ensures lease == Leased(old(lease), Take(token, now))
      ensures claimed == Grants(old(lease), now)
    {
      claimed := lease.Free? || lease.since + TTL <= now;
      if claimed {
        lease := Taken(token, now);
      }
    }

    method ReleaseReconcileRun(token: Stamp, now: nat)
      modifies this
      ensures lease == Leased(old(lease), Drop(token, now))
    {
      if lease.Taken? && lease.token == token {
        lease := Free;
      }
    }
  }

  function LeaseAfter(lease: Lease, ops: seq<LeaseOp>): Lease {
    if ops == [] then lease else Leased(LeaseAfter(lease, ops[..|ops| - 1]), ops[|ops| - 1])
  }

  ghost predicate Clocked(ops: seq<LeaseOp>) {
    forall i, j :: 0 <= i < j < |ops| ==> ops[i].now <= ops[j].now
  }

  ghost predicate TookAt(lease: Lease, ops: seq<LeaseOp>, i: nat)
    requires i < |ops|
  {
    ops[i].Take? && Grants(LeaseAfter(lease, ops[..i]), ops[i].now)
  }

  /** The run that took the lease at `i` still has it, since then, or was superseded late. */
  ghost predicate HeldOrSuperseded(lease: Lease, ops: seq<LeaseOp>, i: nat)
    requires i < |ops|
  {
    || LeaseAfter(lease, ops) == Taken(ops[i].token, ops[i].now)
    || (exists j :: i < j < |ops| && ops[i].now + TTL <= ops[j].now)
  }

  lemma LeaseStep(lease: Lease, ops: seq<LeaseOp>, i: nat)
    requires Clocked(ops) && i < |ops| - 1 && HeldOrSuperseded(lease, ops[..|ops| - 1], i)
    requires !(ops[|ops| - 1].Drop? && ops[|ops| - 1].token == ops[i].token)
    ensures HeldOrSuperseded(lease, ops, i)
    ensures TookAt(lease, ops, |ops| - 1) ==> ops[i].now + TTL <= ops[|ops| - 1].now
  {
    var k := |ops| - 1;
    if j :| i < j < k && ops[..k][i].now + TTL <= ops[..k][j].now {
      assert ops[j].now <= ops[k].now;
    }
  }

  /** A second reconcile starts beside an unfinished first one only after the lease's lifetime. */
  lemma {:induction false} LeaseIsExclusiveWithinItsLifetime(lease: Lease, ops: seq<LeaseOp>, i: nat)
    requires Clocked(ops) && i < |ops| && TookAt(lease, ops, i)
    requires forall j :: i < j < |ops| && ops[j].Drop? ==> ops[j].token != ops[i].token
    ensures HeldOrSuperseded(lease, ops, i)
    ensures forall j :: i < j < |ops| && TookAt(lease, ops, j) ==> ops[i].now + TTL <= ops[j].now
    decreases |ops|
  {
    var k := |ops| - 1;
    if i < k {
      var before := ops[..k];
      assert forall j :: 0 <= j < k ==> before[..j] == ops[..j];
      LeaseIsExclusiveWithinItsLifetime(lease, before, i);
      LeaseStep(lease, ops, i);
      forall j | i < j < |ops| && TookAt(lease, ops, j) ensures ops[i].now + TTL <= ops[j].now {
        assert j < k ==> TookAt(lease, before, j);
      }
    }
  }
}
