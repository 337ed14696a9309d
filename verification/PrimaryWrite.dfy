// Addressed `workos-primary` writes, one at a time: PUT, PATCH and DELETE of one resource, the
// divergence ledger they keep, and the mapping a DELETE prunes.

module PrimaryWrite {
  import opened Common
  import opened Upstream
  import PP = PrimaryProtocol

  datatype Verb = Put | Patch | Delete

  /** What the IdP is answered by the WorkOS leg: a replace runs the mirror dance and answers
      for it, every other verb forwards one call. */
  datatype WorkosLeg = Replaced(ok: bool, answer: Answer) | Forwarded(answer: Answer)

  datatype Request = Request(
    verb: Verb, id: Id, spelled: bool,
    members: set<Id>, users: MappingTable,  // of a group write: the members it names, and the user mappings
    workos: WorkosLeg, native: Answer,
    legsThrow: bool,                        // the WorkOS leg's own reads threw
    ledger: PP.Sql, prune: PP.Sql,          // how the two database statements went
    workosGone: bool, nativeGone: bool)     // after a DELETE: is the row absent on that side

  /** A row of `native_write_failures`. */
  datatype Failure = Failure(verb: Verb, native: Answer, attempts: nat)

  datatype Response = Code(status: nat) | Rethrown

  datatype State = State(maps: MappingTable, ledger: map<Id, Failure>, retained: bool)

  function Reply(leg: WorkosLeg): nat {
    match leg
    case Replaced(ok, answer) => if ok then 200 else if answer.Status? && answer.code >= 400 then answer.code else 502
    case Forwarded(answer) => if answer.Status? then answer.code else 502
  }

  predicate WellFormed(r: Request) {
    && (r.verb.Delete? ==> r.members == {})
    && (r.workos.Replaced? <==> r.verb.Put?)
    && PP.Legal(r.ledger) && PP.Legal(r.prune)
  }

  // ---------------------------------------------------------------- what a request amounts to

  predicate WorkosTook(r: Request) {
    Success(Status(Reply(r.workos)))
  }

  predicate WorkosSettled(r: Request) {
    WorkosTook(r) || (r.verb.Delete? && Reply(r.workos) == 404)
  }

  /** Native took the write, or no longer holds what the request deletes. */
  predicate NativeSettled(r: Request) {
    Success(r.native) || (r.verb.Delete? && NotFound(r.native) && r.spelled)
  }

  predicate Incomplete(r: Request) {
    r.verb.Delete? && (IncompleteDelete(r.native) || IncompleteDelete(r.workos.answer))
  }

  /** The outcomes that touch the ledger: WorkOS has the write and native does not, or both are
      settled. They depend on the answers alone. */
  predicate Divergent(r: Request) {
    !Incomplete(r) && WorkosTook(r) && !NativeSettled(r)
  }

  predicate Agreed(r: Request) {
    !Incomplete(r) && WorkosSettled(r) && NativeSettled(r)
  }

  /** A DELETE that cannot tell that both legs, its ledger statement and its prune are over. */
  predicate Doubtful(r: Request) {
    || !CertainDelete(r.native) || !CertainDelete(r.workos.answer)
    || ((Divergent(r) || Agreed(r)) && !r.ledger.reply.Answered?)
    || (Prunable(r) && !r.prune.reply.Answered?)
  }

  predicate Prunable(r: Request) {
    r.verb.Delete? && Agreed(r) && r.ledger.reply.Answered?
  }

  /** The legs start: mapped, as are all members it names, and for a DELETE not blocked by a
      retained claim. */
  predicate Sends(s: State, r: Request) {
    r.id in s.maps && r.members <= r.users.Keys && !(r.verb.Delete? && s.retained)
  }

  predicate Reaches(s: State, r: Request) {
    Sends(s, r) && !r.legsThrow
  }

  predicate Diverges(s: State, r: Request) {
    Reaches(s, r) && Divergent(r)
  }

  predicate Settles(s: State, r: Request) {
    Reaches(s, r) && Agreed(r)
  }

  predicate Prunes(s: State, r: Request) {
    Reaches(s, r) && Prunable(r)
  }

  /** A DELETE that started its legs and cannot tell that all is over keeps its claim. */
  predicate Keeps(s: State, r: Request) {
    r.verb.Delete? && r.id in s.maps && !s.retained && (r.legsThrow || Doubtful(r))
  }

  function Recorded(ledger: map<Id, Failure>, r: Request): map<Id, Failure> {
    ledger[r.id := Failure(r.verb, r.native, if r.id in ledger then ledger[r.id].attempts + 1 else 1)]
  }

  /** The tables after one request that nothing overlaps. */
  function Serve(s: State, r: Request): State {
    State(
      if Prunes(s, r) && r.prune.applied then s.maps - {r.id} else s.maps,
      if Diverges(s, r) && r.ledger.applied then Recorded(s.ledger, r)
      else if Settles(s, r) && r.ledger.applied then s.ledger - {r.id}
      else s.ledger,
      s.retained || Keeps(s, r))
  }

  // ---------------------------------------------------------------- the code

  class PrimaryDirectory {
    var maps: MappingTable
    var failures: map<Id, Failure>
    var retained: bool

    ghost function Tables(): State
      reads this
    {
      State(maps, failures, retained)
    }

    constructor (maps: MappingTable)
      ensures Tables() == State(maps, map[], false)
    {
      this.maps := maps;
      failures := map[];
      retained := false;
    }

    method RecordNativeWriteFailure(r: Request) returns (ok: bool)
      modifies this`failures
      ensures failures == if r.ledger.applied then Recorded(old(failures), r) else old(failures)
      ensures ok == r.ledger.reply.Answered?
    {
      if r.ledger.applied {
        var attempts := if r.id in failures then failures[r.id].attempts + 1 else 1;
        failures := failures[r.id := Failure(r.verb, r.native, attempts)];
      }
      ok := r.ledger.reply.Answered?;
    }

    /** One addressed write. A DELETE takes the claim first and gives it back only when both
        legs, the ledger and the prune are known to be over. */
    method WorkosPrimaryWrite(r: Request) returns (response: Response)
      requires WellFormed(r)
      modifies this
      ensures Tables() == Serve(old(Tables()), r)
      ensures response.Code? && Success(Status(response.status)) ==> Settles(old(Tables()), r)
      ensures Settles(old(Tables()), r) && r.ledger.reply.Answered? ==>
        response == Code(if WorkosTook(r) then Reply(r.workos) else r.native.code)
      ensures !(r.members <= r.users.Keys) ==> response == Code(409) && Tables() == old(Tables())
      ensures Diverges(old(Tables()), r) && r.ledger.reply.Answered? ==>
        response == Code(if ClientError(r.native) then r.native.code else 502)
    {
      if r.verb.Delete? && retained {
        return Code(503);
      }
      var canRelease := false;
      if !(r.members <= r.users.Keys) {
        return Code(409);
      }
      if r.id !in maps {
        return Code(if Owned(maps, r.id) then 404 else 409);
      }
      if r.legsThrow {
        retained := retained || r.verb.Delete?;
        return Rethrown;
      }
      if r.verb.Delete? {
        canRelease := CertainDelete(r.native) && CertainDelete(r.workos.answer);
        if IncompleteDelete(r.native) || IncompleteDelete(r.workos.answer) {
          retained := !canRelease;
          return Code(502);
        }
      }
      var workosCommitted := Success(Status(Reply(r.workos)));
      var workosGone := r.verb.Delete? && Reply(r.workos) == 404;
      var nativeGone := r.verb.Delete? && NotFound(r.native) && r.spelled;
      if !Success(r.native) && !nativeGone {
        if workosCommitted {
          var ok := RecordNativeWriteFailure(r);
          if !ok {
            retained := retained || r.verb.Delete?;
            return Rethrown;
          }
        }
        retained := retained || (r.verb.Delete? && !canRelease);
        return Code(if ClientError(r.native) then r.native.code else 502);
      }
      if !workosCommitted && !workosGone {
        retained := retained || (r.verb.Delete? && !canRelease);
        return Code(Reply(r.workos));
      }
      if r.ledger.applied {
        failures := failures - {r.id};
      }
      if !r.ledger.reply.Answered? {
        retained := retained || r.verb.Delete?;
        return Rethrown;
      }
      if r.verb.Delete? {
        if r.prune.applied {
          maps := maps - {r.id};
        }
        if !r.prune.reply.Answered? {
          canRelease := false;
        }
        retained := !canRelease;
      }
      return Code(if workosGone then r.native.code else Reply(r.workos));
    }
  }

  // ---------------------------------------------------------------- main results

  /** What the two endpoints promise about a DELETE. A 404 on a path that does not spell the id
      byte for byte promises nothing. */
  predicate Honest(r: Request) {
    r.verb.Delete? ==>
      && (ProvesAbsent(r.workos.answer) ==> r.workosGone)
      && ((r.native == Status(200) || r.native == Status(204)) ==> r.nativeGone)
      && (NotFound(r.native) && r.spelled ==> r.nativeGone)
  }

  /** A DELETE removes its mapping only when the resource is absent on both sides. */
  lemma PruneNeedsBothAbsent(s: State, r: Request)
    requires WellFormed(r) && Honest(r) && Serve(s, r).maps != s.maps
    ensures r.verb.Delete? && r.workosGone && r.nativeGone && r.id in s.maps && Serve(s, r).maps == s.maps - {r.id}
  {
  }

  /** WorkOS accepted and native did not. An incomplete DELETE answer keeps mapping and claim and
      changes nothing else. Any other divergence is on record, or at least holds its claim, if and
      only if the ledger's INSERT took effect, the key or the claim stood before, or the request is
      a DELETE; for it runs after both legs, and only a DELETE holds a claim that can outlive it. */
  lemma AcceptedIsOnRecord(s: State, r: Request)
    requires WellFormed(r) && Reaches(s, r) && WorkosTook(r) && !NativeSettled(r)
    ensures Incomplete(r) ==> Serve(s, r) == s.(retained := true)
    ensures !Incomplete(r) ==> (r.id in Serve(s, r).ledger <==> r.ledger.applied || r.id in s.ledger)
    ensures !Incomplete(r) ==>
      ((r.id in Serve(s, r).ledger || Serve(s, r).retained) <==>
        (r.ledger.applied || r.id in s.ledger || s.retained || r.verb.Delete?))
    ensures !Incomplete(r) && r.ledger.applied ==>
      Serve(s, r).ledger[r.id].verb == r.verb && Serve(s, r).ledger[r.id].native == r.native
  {
  }

  /** The divergence nobody hears of: WorkOS replaced the resource, native failed, and the INSERT
      that should say so threw. No row, and no claim either. */
  lemma LostInsertLeavesNoTrace(maps: MappingTable, n: Id)
    requires n in maps
    ensures exists r: Request, s: State ::
      && WellFormed(r) && r.verb.Put? && r.id == n && s == State(maps, map[], false)
      && Reaches(s, r) && WorkosTook(r) && !NativeSettled(r) && Serve(s, r) == s
  {
    var r := Request(Put, n, true, {}, map[], Replaced(true, Status(200)), Status(500), false,
                     PP.Sql(false, PP.Threw), PP.Sql(false, PP.Threw), false, false);
    var s := State(maps, map[], false);
    assert WellFormed(r) && Reaches(s, r) && WorkosTook(r) && !NativeSettled(r) && Serve(s, r) == s;
  }

  /** The tables after a run of requests, one after the other. */
  function Run(s: State, rs: seq<Request>): State {
    if rs == [] then s else Serve(Run(s, rs[..|rs| - 1]), rs[|rs| - 1])
  }

  /** Request `i` is one of the key's own: native fell behind WorkOS, or both sides settled. */
  ghost predicate DivergedAt(s: State, rs: seq<Request>, i: nat, key: Id)
    requires i < |rs|
  {
    rs[i].id == key && Diverges(Run(s, rs[..i]), rs[i])
  }

  ghost predicate SettledAt(s: State, rs: seq<Request>, i: nat, key: Id)
    requires i < |rs|
  {
    rs[i].id == key && Settles(Run(s, rs[..i]), rs[i])
  }

  /** Native is behind WorkOS on this key: it was on record, or diverged, and no later request
      settled it on both sides. Only the answers of the two legs count. */
  ghost predicate Behind(s: State, rs: seq<Request>, key: Id)
    decreases |rs|
  {
    if rs == [] then key in s.ledger
    else
      var k := |rs| - 1;
      DivergedAt(s, rs, k, key) || (Behind(s, rs[..k], key) && !SettledAt(s, rs, k, key))
  }

  ghost function Divergences(s: State, rs: seq<Request>, key: Id): seq<bool> {
    seq(|rs|, i requires 0 <= i < |rs| => DivergedAt(s, rs, i, key))
  }

  ghost function Settlements(s: State, rs: seq<Request>, key: Id): seq<bool> {
    seq(|rs|, i requires 0 <= i < |rs| => SettledAt(s, rs, i, key))
  }

  ghost predicate Stands(before: bool, diverged: seq<bool>, settled: seq<bool>)
    requires |diverged| == |settled|
  {
    || (before && forall j :: 0 <= j < |settled| ==> !settled[j])
    || (exists i :: 0 <= i < |diverged| && diverged[i] && forall j :: i < j < |settled| ==> !settled[j])
  }

  lemma StandsReads(s: State, rs: seq<Request>, key: Id)
    ensures Stands(key in s.ledger, Divergences(s, rs, key), Settlements(s, rs, key)) <==>
      || (key in s.ledger && forall j :: 0 <= j < |rs| ==> !SettledAt(s, rs, j, key))
      || (exists i :: 0 <= i < |rs| && DivergedAt(s, rs, i, key) && forall j :: i < j < |rs| ==>
        !SettledAt(s, rs, j, key))
  {
    var d, e := Divergences(s, rs, key), Settlements(s, rs, key);
    assert forall i :: 0 <= i < |rs| ==> d[i] == DivergedAt(s, rs, i, key) && e[i] == SettledAt(s, rs, i, key);
  }

  lemma LastOne(before: bool, diverged: seq<bool>, settled: seq<bool>)
    requires |diverged| == |settled| && diverged != []
    ensures var k := |diverged| - 1;
      Stands(before, diverged, settled) <==> diverged[k] || (Stands(before, diverged[..k], settled[..k]) && !settled[k])
  {
    var k := |diverged| - 1;
    if Stands(before, diverged[..k], settled[..k]) && !settled[k] {
      if i :| 0 <= i < k && diverged[..k][i] && (forall j :: i < j < k ==> !settled[..k][j]) {
        assert diverged[i];
      }
    }
    if i :| 0 <= i < |diverged| && diverged[i] && (forall j :: i < j < |settled| ==> !settled[j]) {
      assert i < k ==> diverged[..k][i];
    }
  }

  lemma SameSoFar(s: State, rs: seq<Request>, key: Id)
    requires rs != []
    ensures Divergences(s, rs, key)[..|rs| - 1] == Divergences(s, rs[..|rs| - 1], key)
    ensures Settlements(s, rs, key)[..|rs| - 1] == Settlements(s, rs[..|rs| - 1], key)
  {
    assert forall i :: 0 <= i < |rs| - 1 ==> rs[..|rs| - 1][..i] == rs[..i];
  }

  lemma {:induction false} BehindStands(s: State, rs: seq<Request>, key: Id)
    ensures Behind(s, rs, key) <==> Stands(key in s.ledger, Divergences(s, rs, key), Settlements(s, rs, key))
    decreases |rs|
  {
    if rs != [] {
      BehindStands(s, rs[..|rs| - 1], key);
      SameSoFar(s, rs, key);
      LastOne(key in s.ledger, Divergences(s, rs, key), Settlements(s, rs, key));
    }
  }

  /** The same, read off the positions in the run. */
  lemma BehindSinceWhen(s: State, rs: seq<Request>, key: Id)
    ensures Behind(s, rs, key) <==>
      || (key in s.ledger && forall j :: 0 <= j < |rs| ==> !SettledAt(s, rs, j, key))
      || (exists i :: 0 <= i < |rs| && DivergedAt(s, rs, i, key) && forall j :: i < j < |rs| ==>
        !SettledAt(s, rs, j, key))
  {
    BehindStands(s, rs, key);
    StandsReads(s, rs, key);
  }

  /** The key's last divergence or settlement came when the ledger said otherwise, and its own
      statement, the INSERT or the DELETE on the ledger, did not take effect. */
  ghost predicate LastStatementLost(s: State, rs: seq<Request>, key: Id)
    decreases |rs|
  {
    rs != [] &&
      var k := |rs| - 1;
      if DivergedAt(s, rs, k, key) then !rs[k].ledger.applied && key !in Run(s, rs[..k]).ledger
      else if SettledAt(s, rs, k, key) then !rs[k].ledger.applied && key in Run(s, rs[..k]).ledger
      else LastStatementLost(s, rs[..k], key)
  }

  /** On every run without overlap: the ledger has a row for exactly the keys native is behind on, if
      and only if the statement of the key's last divergence or settlement was not lost. What becomes
      of that when requests overlap is in `PrimaryLedger`. */
  lemma {:induction false} LedgerTellsTheTruth(s: State, rs: seq<Request>, key: Id)
    requires forall i :: 0 <= i < |rs| ==> WellFormed(rs[i])
    ensures (key in Run(s, rs).ledger <==> Behind(s, rs, key)) <==> !LastStatementLost(s, rs, key)
    decreases |rs|
  {
    if rs != [] {
      LedgerTellsTheTruth(s, rs[..|rs| - 1], key);
    }
  }

  /** In particular, on a run without lost ledger statements a row stands until both sides settle. */
  lemma {:induction false} NoneLost(s: State, rs: seq<Request>, key: Id)
    requires forall i :: 0 <= i < |rs| ==> rs[i].ledger.applied
    ensures !LastStatementLost(s, rs, key)
    decreases |rs|
  {
    if rs != [] {
      NoneLost(s, rs[..|rs| - 1], key);
    }
  }

  /** The interleaving model ends a DELETE the same way. */
  lemma ProtocolEndsDeletesAlike(s: State, r: Request)
    requires WellFormed(r) && r.verb.Delete? && Reaches(s, r)
    ensures var p := PP.DeleteEnd(r.id, s.maps[r.id], r.spelled, r.workos.answer, r.native);
      && (p.DeletePrune? <==> Settles(s, r))
      && (p.Retained? ==> Keeps(s, r))
      && (p.Release? && r.ledger.reply.Answered? ==> !Keeps(s, r))
  {
  }
}
