// The decision at the end of a `workos-primary` create: release the claim, or keep it.

module PrimaryCreate {
  import opened Common
  import opened Upstream
  import PP = PrimaryProtocol

  // ---------------------------------------------------------------- the WorkOS leg

  /** One answered call of the mirror leg, with the shared state at the time of the answer. */
  datatype LegCall = LegCall(s: PP.State, answer: Answer, id: Option<Id>, echoed: bool)

  predicate LegRuns(leg: PP.Leg, calls: seq<LegCall>)
    decreases |calls|
  {
    calls == [] ||
    (var c := calls[0];
     PP.Faithful(c.s, leg, c.answer, c.id) && LegRuns(PP.NextLeg(c.s, leg, c.answer, c.id, c.echoed), calls[1..]))
  }

  function LegEnd(leg: PP.Leg, calls: seq<LegCall>): PP.Leg
    requires LegRuns(leg, calls)
    decreases |calls|
  {
    if calls == [] then leg
    else LegEnd(PP.NextLeg(calls[0].s, leg, calls[0].answer, calls[0].id, calls[0].echoed), calls[1..])
  }

  /** The WorkOS row a POST of this leg made, or may still make. */
  function Posted(leg: PP.Leg, calls: seq<LegCall>): Option<Id>
    requires LegRuns(leg, calls)
    decreases |calls|
  {
    if calls == [] then None
    else
      var c := calls[0];
      if leg.LegPost? && c.id.Some? then c.id
      else Posted(PP.NextLeg(c.s, leg, c.answer, c.id, c.echoed), calls[1..])
  }

  /** A leg that ends refused wrote nothing; a leg that ends well and posted is linked to that row. */
  lemma {:induction false} LegTellsWhatItPosted(leg: PP.Leg, calls: seq<LegCall>)
    requires LegRuns(leg, calls)
    ensures var end, row := LegEnd(leg, calls), Posted(leg, calls);
      && (end.LegFailed? && Refused(end.answer) ==> row.None?)
      && (end.LegOk? && row.Some? ==> leg.LegOk? || end.mapping.workosId == row.value)
      && (end.LegOk? && end.created.Some? ==> leg.LegOk? || row == end.created)
    decreases |calls|
  {
    if calls != [] {
      var c := calls[0];
      var next := PP.NextLeg(c.s, leg, c.answer, c.id, c.echoed);
      LegTellsWhatItPosted(next, calls[1..]);
    }
  }

  // ---------------------------------------------------------------- the native leg

  /** The POST to native. `made` is the native row it made or may still make. */
  datatype NativePost = NativePost(answer: Answer, echoed: Option<Id>, made: Option<Id>)

  datatype NativeCreateLeg = NativeCreateLeg(answer: Answer, error: bool, id: Option<Id>)

  predicate HonestPost(p: NativePost) {
    && (Refused(p.answer) ==> p.made.None?)
    && (p.made.Some? && Success(p.answer) && p.echoed.Some? ==> p.echoed == p.made)
  }

  /** A 409 is resolved by the unique attribute, and adopted only when the row is attributable. */
  function NativeCreate(p: NativePost, lookup: Option<Id>, attributable: bool): NativeCreateLeg {
    if Success(p.answer) then NativeCreateLeg(p.answer, p.echoed.None?, p.echoed)
    else if p.answer.NoAnswer? then NativeCreateLeg(p.answer, true, None)
    else if p.answer != Status(409) then NativeCreateLeg(p.answer, false, None)
    else if lookup.None? || !attributable then NativeCreateLeg(p.answer, true, None)
    else NativeCreateLeg(p.answer, false, lookup)
  }

  predicate NativeRefused(n: NativeCreateLeg) {
    n.id.None? && !n.error && DefinitiveRejection(n.answer)
  }

  // ---------------------------------------------------------------- one create

  /** `Proceeds`: whether the create has a mint id, and the resource whose retry it must be. */
  datatype Preflight = Refuses(status: nat) | Throws | Proceeds(minted: bool, claimed: Option<Id>)

  /** Everything outside the create decides: preflight, both legs, compensation, database. */
  datatype Inputs = Inputs(
    preflight: Preflight,
    post: NativePost, lookup: Option<Id>, attributable: bool,
    start: PP.Leg, calls: seq<LegCall>,          // the mirror leg, when it runs
    createdIsMapped: Option<bool>,               // None: that read threw
    rollback: Answer, gone: bool,                // the compensating DELETE, and whether the row is gone
    cleared: bool, recorded: bool,               // ledger statements: false when they threw
    upsert: PP.Sql, tail: bool)                  // the mapping statement, and what follows it

  datatype Response = Code(status: nat) | Rethrown

  /** What this request leaves behind on each side, and the mapping it persisted. */
  datatype Left = Left(native: Option<Id>, workos: Option<Id>, link: Option<(Id, Id)>)

  datatype Outcome = Outcome(response: Response, release: bool, left: Left)

  predicate Honest(x: Inputs) {
    && HonestPost(x.post)
    && PP.Calling(x.start) && LegRuns(x.start, x.calls) && !PP.Calling(LegEnd(x.start, x.calls))
    && (ProvesAbsent(x.rollback) ==> x.gone)
    && (x.upsert.reply.Answered? ==> x.upsert.applied)
  }

  function Native(x: Inputs): NativeCreateLeg {
    NativeCreate(x.post, x.lookup, x.attributable)
  }

  /** The WorkOS leg runs at once under a fresh mint, else once native has named the resource. */
  predicate Mirrors(x: Inputs) {
    x.preflight.Proceeds? &&
    ((x.preflight.minted && x.preflight.claimed.None?)
     || (Native(x).id.Some? && (x.preflight.claimed.None? || Native(x).id == x.preflight.claimed)))
  }

  function Mirror(x: Inputs): Option<PP.Leg>
    requires Honest(x)
  {
    if Mirrors(x) then Some(LegEnd(x.start, x.calls)) else None
  }

  function WorkosPost(x: Inputs): Option<Id>
    requires Honest(x)
  {
    if Mirrors(x) then Posted(x.start, x.calls) else None
  }

  // ---------------------------------------------------------------- when the claim is released

  predicate BothRefused(x: Inputs)
    requires Honest(x)
  {
    NativeRefused(Native(x)) && match Mirror(x)
    case None => true
    case Some(leg) => leg.LegFailed? && DefinitiveRejection(leg.answer)
  }

  /** Native refused, and the WorkOS row is this request's own, fresh and unmapped. */
  predicate Compensates(x: Inputs)
    requires Honest(x)
  {
    && NativeRefused(Native(x))
    && Mirror(x).Some? && Mirror(x).value.LegOk? && Mirror(x).value.created.Some?
    && x.createdIsMapped == Some(false)
  }

  predicate Compensated(x: Inputs)
    requires Honest(x)
  {
    Compensates(x) && (Success(x.rollback) || NotFound(x.rollback)) && x.cleared
  }

  predicate LinksBoth(x: Inputs)
    requires Honest(x)
  {
    x.preflight.Proceeds? && Native(x).id.Some? && Mirror(x).Some? && Mirror(x).value.LegOk?
    && (x.preflight.claimed.None? || x.preflight.claimed == Native(x).id)
  }

  predicate Releases(x: Inputs)
    requires Honest(x)
  {
    || !x.preflight.Proceeds?
    || BothRefused(x)
    || Compensated(x)
    || (LinksBoth(x) && x.upsert.reply.Answered? && x.tail)
  }

  function LeftBy(x: Inputs): Left
    requires Honest(x)
  {
    if !x.preflight.Proceeds? then Left(None, None, None)
    else Left(x.post.made,
              if Compensates(x) && x.gone then None else WorkosPost(x),
              if LinksBoth(x) && x.upsert.applied then Some((Native(x).id.value, Mirror(x).value.mapping.workosId))
                else None)
  }

  /** Nothing of this request is left on either side, or one mapping accounts for all of it. */
  predicate Accounted(left: Left) {
    match left.link
    case None => left.native.None? && left.workos.None?
    case Some((n, w)) =>
      (left.native.Some? ==> left.native.value == n) && (left.workos.Some? ==> left.workos.value == w)
  }

  // ---------------------------------------------------------------- the code

  function NativeFailure(native: NativeCreateLeg): Response {
    if ClientError(native.answer) then Code(native.answer.code) else Code(502)
  }

  /** An unreleased claim overrides whatever the request would have answered. */
  function Finish(response: Response, releaseClaim: bool, left: Left): Outcome {
    Outcome(if releaseClaim then response else Code(502), releaseClaim, left)
  }

  /** The answer, the claim and what is left are those of the outcomes of both legs. */
  ghost predicate Decided(x: Inputs, out: Outcome)
    requires Honest(x)
  {
    && out.release == Releases(x) && out.left == LeftBy(x)
    && (!out.release ==> out.response == Code(502) || out.response == Rethrown)
    && (BothRefused(x) || Compensated(x) ==> x.preflight.Proceeds? ==> out.response == Code(x.post.answer.code))
    && (x.preflight.Proceeds? ==> (out.response == Code(201) <==> LinksBoth(x) && out.release))
  }

  method CreateClaimed(x: Inputs) returns (out: Outcome)
    requires Honest(x)
    ensures Decided(x, out)
  {
    if x.preflight.Refuses? {
      return Finish(Code(x.preflight.status), true, Left(None, None, None));
    }
    if x.preflight.Throws? {
      return Finish(Code(503), true, Left(None, None, None));
    }
    if Native(x).id.None? {
      out := EndUnnamed(x);
    } else {
      out := EndNamed(x);
    }
  }

  /** Native gave no id: compensate what WorkOS accepted, or keep the claim. */
  method EndUnnamed(x: Inputs) returns (out: Outcome)
    requires Honest(x) && x.preflight.Proceeds? && Native(x).id.None?
    ensures Decided(x, out)
  {
    var native, mirror := Native(x), Mirror(x);
    var left := Left(x.post.made, WorkosPost(x), None);
    var workosOk := mirror.Some? && mirror.value.LegOk?;
    var releaseClaim :=
      !native.error && DefinitiveRejection(native.answer)
      && (mirror.None? || (!workosOk && DefinitiveRejection(mirror.value.answer)));
    if !native.error && DefinitiveRejection(native.answer) && workosOk && mirror.value.created.Some? {
      if x.createdIsMapped.None? {
        return Outcome(Rethrown, false, left);
      }
      if !x.createdIsMapped.value {
        if x.gone {
          left := left.(workos := None);
        }
        if (Success(x.rollback) || NotFound(x.rollback)) && x.cleared {
          releaseClaim := true;
          return Finish(NativeFailure(native), releaseClaim, left);
        }
      }
    }
    if workosOk && !x.recorded {
      return Outcome(Rethrown, false, left);
    }
    out := Finish(NativeFailure(native), releaseClaim, left);
  }

  /** Native named the resource: link both rows, or keep the claim. */
  method EndNamed(x: Inputs) returns (out: Outcome)
    requires Honest(x) && x.preflight.Proceeds? && Native(x).id.Some?
    ensures Decided(x, out)
  {
    var native, mirror := Native(x), Mirror(x);
    var left := Left(x.post.made, WorkosPost(x), None);
    if x.preflight.claimed.Some? && x.preflight.claimed != native.id {
      return Finish(Code(409), false, left);
    }
    if !(mirror.Some? && mirror.value.LegOk?) {
      return Finish(Code(502), false, left);
    }
    if x.upsert.applied {
      left := left.(link := Some((native.id.value, mirror.value.mapping.workosId)));
    }
    if !x.upsert.reply.Answered? || !x.tail {
      return Outcome(Rethrown, false, left);
    }
    out := Finish(Code(201), true, left);
  }

  // ---------------------------------------------------------------- main results

  /** A create releases its claim only when nothing it wrote is unaccounted for. The one
      exception: a compensating DELETE that was accepted while its row is still there. */
  lemma ReleaseIsAccounted(x: Inputs)
    requires Honest(x) && Releases(x)
    ensures Accounted(LeftBy(x)) <==> !(Compensated(x) && !x.gone)
  {
    LegTellsWhatItPosted(x.start, x.calls);
  }

  /** The compensation is sound for every honest WorkOS endpoint exactly when its DELETE was
      answered 200, 204 or 404. The code accepts every 2xx. */
  lemma CompensationNeedsProof(x: Inputs)
    requires Honest(x) && Compensated(x)
    ensures (forall gone :: Honest(x.(gone := gone)) ==> Accounted(LeftBy(x.(gone := gone)))) <==>
      ProvesAbsent(x.rollback)
  {
    var still := x.(gone := false);
    if !ProvesAbsent(x.rollback) {
      assert Honest(still) && Compensated(still);
      ReleaseIsAccounted(still);
    }
    forall gone | Honest(x.(gone := gone)) && ProvesAbsent(x.rollback) ensures Accounted(LeftBy(x.(gone := gone))) {
      ReleaseIsAccounted(x.(gone := gone));
    }
  }

  /** It happens: WorkOS makes row `e`, native refuses with a 400, and the compensating DELETE is
      accepted with a 202 while the row stays. The claim goes, the row is left without a mapping. */
  lemma AcceptedCompensationLeavesARow(e: Id)
    ensures exists x: Inputs ::
      && Honest(x) && Releases(x) && Compensated(x) && x.rollback == Status(202)
      && LeftBy(x) == Left(None, Some(e), None) && !Accounted(LeftBy(x))
  {
    var s := PP.State(PostCreate, Some(1), map[], {}, map[], {}, {}, map[], {});
    var missed, made := LegCall(s, Status(404), None, false), LegCall(s, Status(201), Some(e), true);
    var x := Inputs(Proceeds(true, None), NativePost(Status(400), None, None), None, false,
                    PP.LegPut(e, e, MigratedId), [missed, made], Some(false), Status(202), false, true, true,
                    PP.Sql(false, PP.Threw), false);
    var post, ended := PP.LegPost(e), PP.LegOk(Mapping(e, MigratedId), Some(e));
    assert PP.NextLeg(s, x.start, Status(404), None, false) == post &&
      PP.NextLeg(s, post, Status(201), Some(e), true) == ended;
    assert x.calls[1..] == [made] && [made][1..] == [];
    assert LegRuns(ended, []) && LegRuns(post, [made]) && LegRuns(x.start, x.calls);
    assert LegEnd(post, [made]) == ended && LegEnd(x.start, x.calls) == ended;
    assert Posted(post, [made]) == Some(e) by {
      assert [made][0] == made;
    }
    assert Posted(x.start, x.calls) == Some(e);
    assert Honest(x) && Compensated(x);
  }

  /** The interleaving model takes this decision: same release, same compensation, same mapping. */
  lemma ProtocolDecidesAlike(x: Inputs, s: PP.State)
    requires Honest(x) && x.preflight.Proceeds?
    requires Mirror(x).Some? && Mirror(x).value.LegOk? && Mirror(x).value.created.Some? ==>
      x.createdIsMapped == Some(Owners(s.maps, Mirror(x).value.created.value) != {})
    ensures var p := PP.CreateEnd(s, PP.NativeLeg(Native(x).id, NativeRefused(Native(x))), Mirror(x));
      && (p.Release? <==> BothRefused(x))
      && (p.CreateUndo? <==> Compensates(x))
      && (p.CreateUndo? ==> Some(p.row) == WorkosPost(x))
      && (p.CreateRecord? <==> LinksBoth(x))
      && (p.CreateRecord? ==> p.n == Native(x).id.value && p.next.workosId == Mirror(x).value.mapping.workosId)
  {
    LegTellsWhatItPosted(x.start, x.calls);
  }
}
