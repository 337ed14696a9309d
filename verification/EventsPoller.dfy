// Polling the ordered Events API behind a persisted cursor, with a bounded number of attempts
// for an event whose handler fails.

module EventsPoller {
  import opened Common

  const MAX_EVENT_ATTEMPTS := 5

  datatype Retry = Retry(id: Id, count: nat)

  /** What a crash leaves: the two config rows, the events handled without error, and the events
      with an abandonment record. */
  datatype Saved = Saved(cursor: Option<Id>, retry: Option<Retry>, settled: set<Id>, abandoned: set<Id>)

  datatype PollResult = Polled(processed: nat) | Threw

  ghost predicate Distinct(log: seq<Id>) {
    forall i, j :: 0 <= i < j < |log| ==> log[i] != log[j]
  }

  /** How many events of the log are at or before the cursor. */
  function Position(log: seq<Id>, cursor: Option<Id>): (p: nat)
    ensures p <= |log|
    ensures p > 0 ==> cursor == Some(log[p - 1])
    ensures cursor.Some? && cursor.value in log ==> p > 0
  {
    if log == [] || cursor.None? then 0
    else if log[|log| - 1] == cursor.value then |log|
    else Position(log[..|log| - 1], cursor)
  }

  lemma {:induction false} PositionOf(log: seq<Id>, i: nat)
    requires Distinct(log) && i < |log|
    ensures Position(log, Some(log[i])) == i + 1
  {
    var n := |log| - 1;
    if i < n {
      assert log[..n][i] == log[i];
      PositionOf(log[..n], i);
    }
  }

  predicate Passed(s: Saved, id: Id) {
    id in s.settled || id in s.abandoned
  }

  /** Nothing at or before the cursor is lost: it was handled, or given up on record. */
  ghost predicate Safe(log: seq<Id>, s: Saved) {
    PassedTo(log, Position(log, s.cursor), s)
  }

  ghost predicate PassedTo(log: seq<Id>, p: nat, s: Saved)
    requires p <= |log|
  {
    forall i :: 0 <= i < p ==> Passed(s, log[i])
  }

  /** More is settled or given up; the cursor has not moved. */
  predicate Grows(s: Saved, next: Saved) {
    s.settled <= next.settled && s.abandoned <= next.abandoned && s.cursor == next.cursor
  }

  lemma GrowingStaysSafe(log: seq<Id>, s: Saved, next: Saved, p: nat)
    requires Grows(s, next) && p <= |log|
    ensures Safe(log, s) ==> Safe(log, next)
    ensures PassedTo(log, p, s) ==> PassedTo(log, p, next)
    ensures PassedTo(log, p, s) && p < |log| && Passed(next, log[p]) ==> PassedTo(log, p + 1, next)
  {
  }

  /** The attempts an event still unpassed has used up. */
  function Attempts(s: Saved, id: Id): nat {
    if s.retry.Some? && s.retry.value.id == id then s.retry.value.count else 0
  }

  /** The next event is the one at `p`: it and those behind it are unpassed, the retry state is
      about it, and it tells the truth. */
  ghost predicate InStepAt(log: seq<Id>, p: nat, s: Saved, failures: map<Id, nat>) {
    && (forall j :: p <= j < |log| ==> !Passed(s, log[j]))
    && (s.retry.Some? ==> p < |log| && s.retry.value.id == log[p] && s.retry.value.count < MAX_EVENT_ATTEMPTS)
    && (forall id :: Failures(failures, id) <= MAX_EVENT_ATTEMPTS)
    && (forall id :: id in s.abandoned ==> Failures(failures, id) == MAX_EVENT_ATTEMPTS)
    && (forall id :: !Passed(s, id) ==> Failures(failures, id) == Attempts(s, id))
  }

  /** One more event is handled; one more attempt failed, and another will follow, or was the last. */
  lemma HandledInStep(log: seq<Id>, i: nat, s: Saved, failures: map<Id, nat>, next: Saved)
    requires Distinct(log) && i < |log| && InStepAt(log, i, s, failures)
    requires next == s.(settled := s.settled + {log[i]}, retry := None)
    ensures InStepAt(log, i + 1, next, failures)
  {
  }

  lemma FailedInStep(log: seq<Id>, i: nat, s: Saved, failures: map<Id, nat>, next: Saved, now: map<Id, nat>)
    requires Distinct(log) && i < |log| && InStepAt(log, i, s, failures)
    requires forall x :: Failures(now, x) == Failures(failures, x) + (if x == log[i] then 1 else 0)
    ensures Failures(now, log[i]) == Attempts(s, log[i]) + 1 <= MAX_EVENT_ATTEMPTS
    ensures Attempts(s, log[i]) + 1 < MAX_EVENT_ATTEMPTS &&
      next == s.(retry := Some(Retry(log[i], Attempts(s, log[i]) + 1)))
      ==> InStepAt(log, i, next, now)
    ensures Attempts(s, log[i]) + 1 == MAX_EVENT_ATTEMPTS &&
      next == s.(retry := None, abandoned := s.abandoned + {log[i]})
      ==> InStepAt(log, i + 1, next, now)
  {
  }

  /** Where polls that always ran to their end leave things. */
  ghost predicate InStep(log: seq<Id>, s: Saved, failures: map<Id, nat>) {
    (s.cursor.Some? ==> s.cursor.value in log) && InStepAt(log, Position(log, s.cursor), s, failures)
  }

  /** The event handed over last failed, has attempts left, and is still ahead of the cursor. */
  ghost predicate Waiting(log: seq<Id>, reached: nat, s: Saved) {
    && 0 < reached <= |log| && Position(log, s.cursor) == reached - 1
    && s.retry.Some? && s.retry.value.id == log[reached - 1] && s.retry.value.count < MAX_EVENT_ATTEMPTS
  }

  ghost predicate AllSafe(log: seq<Id>, journal: seq<Saved>) {
    forall s :: s in journal ==> Safe(log, s)
  }

  function Failures(failures: map<Id, nat>, id: Id): nat {
    if id in failures then failures[id] else 0
  }

  /** Retention trims the log from the front and new events come in at the end; neither unsettles
      what lies behind the cursor. */
  lemma StaysSafe(log: seq<Id>, trimmed: nat, added: seq<Id>, s: Saved)
    requires Distinct(log + added) && trimmed <= |log|
    requires Safe(log, s) && (s.cursor.Some? ==> s.cursor.value in log)
    ensures Safe(log[trimmed..] + added, s)
  {
    var next := log[trimmed..] + added;
    var p, q := Position(log, s.cursor), Position(next, s.cursor);
    assert forall i :: 0 <= i < |next| ==> next[i] == (log + added)[i + trimmed];
    if q > 0 {
      assert (log + added)[p - 1] == (log + added)[q - 1 + trimmed];
      assert forall i :: 0 <= i < q ==> next[i] == log[i + trimmed];
    }
  }

  /** New events at the end of the log leave the poller in step. */
  lemma StaysInStep(log: seq<Id>, added: seq<Id>, s: Saved, failures: map<Id, nat>)
    requires Distinct(log + added) && InStep(log, s, failures)
    requires forall id :: id in added ==> !Passed(s, id)
    ensures InStep(log + added, s, failures)
  {
    var p, next := Position(log, s.cursor), log + added;
    if p > 0 {
      assert next[p - 1] == log[p - 1];
      PositionOf(next, p - 1);
    }
    assert Position(next, s.cursor) == p;
    assert forall j :: |log| <= j < |next| ==> next[j] in added;
  }

  /** `now` is `was` followed by the events from `a` to `b`, in log order. */
  ghost predicate InOrder(log: seq<Id>, was: seq<Id>, a: nat, b: nat, now: seq<Id>) {
    a <= b <= |log| && now == was + log[a..b]
  }

  lemma OrderGoesOn(log: seq<Id>, was: seq<Id>, a: nat, b: nat, mid: seq<Id>, c: nat, now: seq<Id>)
    requires InOrder(log, was, a, b, mid) && InOrder(log, mid, b, c, now)
    ensures InOrder(log, was, a, c, now)
  {
    assert log[a..b] + log[b..c] == log[a..c];
  }

  class Poller {
    const handler: (nat, Id) -> bool       // whether the handler throws, call by call
    var calls: nat
    var cursor: Option<Id>                 // native.events_cursor
    var retry: Option<Retry>               // native.events_retry
    ghost var settled: set<Id>
    ghost var abandoned: set<Id>
    ghost var failures: map<Id, nat>
    ghost var handedOver: seq<Id>
    ghost var journal: seq<Saved>          // every state a crash of the current poll could leave

    ghost function State(): Saved
      reads this
    {
      Saved(cursor, retry, settled, abandoned)
    }

    method SetRetry(next: Option<Retry>)
      modifies this`retry, this`journal
      ensures State() == old(State()).(retry := next) && journal == old(journal) + [State()]
    {
      retry := next;
      journal := journal + [State()];
    }

    method AdvanceCursor(id: Option<Id>, from: Option<Id>)
      requires from == cursor
      modifies this`cursor, this`journal
      ensures State() == old(State()).(cursor := if id.Some? then id else old(cursor))
      ensures journal == old(journal) || journal == old(journal) + [State()]
    {
      if id.Some? && id != from {
        cursor := id;
        journal := journal + [State()];
      }
    }

    method RecordAbandoned(id: Id)
      modifies this`abandoned, this`journal
      ensures State() == old(State()).(abandoned := old(abandoned) + {id}) && journal == old(journal) + [State()]
    {
      abandoned := abandoned + {id};
      journal := journal + [State()];
    }

    method ProcessDsyncEvent(id: Id) returns (failed: bool)
      modifies this`calls, this`settled, this`failures, this`handedOver, this`journal
      ensures handedOver == old(handedOver) + [id]
      ensures State() == old(State()).(settled := if failed then old(settled) else old(settled) + {id})
      ensures forall x :: Failures(failures, x) == Failures(old(failures), x) + (if failed && x == id then 1 else 0)
      ensures !failed ==> failures == old(failures)
      ensures journal == old(journal) + [State()]
    {
      failed := handler(calls, id);
      calls := calls + 1;
      handedOver := handedOver + [id];
      if failed {
        failures := failures[id := Failures(failures, id) + 1];
      } else {
        settled := settled + {id};
      }
      journal := journal + [State()];
    }

    /** One event: handled, given up after its last attempt, or left to wait for another. */
    method HandOver(log: seq<Id>, i: nat) returns (waits: bool, ok: bool)
      requires Distinct(log) && i < |log| && Safe(log, State()) && AllSafe(log, journal)
      modifies this`calls, this`retry, this`settled, this`abandoned, this`failures, this`handedOver, this`journal
      ensures handedOver == old(handedOver) + [log[i]]
      ensures Grows(old(State()), State()) && (!waits ==> Passed(State(), log[i]))
      ensures AllSafe(log, journal)
      ensures waits ==> retry.Some? && retry.value.id == log[i] && retry.value.count < MAX_EVENT_ATTEMPTS
      ensures old(InStepAt(log, i, State(), failures)) ==> InStepAt(log, if waits then i else i + 1, State(), failures)
    {
      ghost var before, was := State(), failures;
      var id := log[i];
      var isRetry := retry.Some? && retry.value.id == id;
      var failed := ProcessDsyncEvent(id);
      if !failed {
        if isRetry {
          SetRetry(None);
        }
        if InStepAt(log, i, before, was) {
          HandledInStep(log, i, before, was, State());
        }
        return false, true;
      }
      var attempts := if isRetry then retry.value.count + 1 else 1;
      if attempts < MAX_EVENT_ATTEMPTS {
        SetRetry(Some(Retry(id, attempts)));
      } else {
        SetRetry(None);
        RecordAbandoned(id);
      }
      if InStepAt(log, i, before, was) {
        FailedInStep(log, i, before, was, State(), failures);
      }
      return attempts < MAX_EVENT_ATTEMPTS, false;
    }

    /** Where a page that began at `pos` stands: `i` events are done with, `reached` handed over. */
    ghost predicate OnPage(log: seq<Id>, was: seq<Id>, pos: nat, i: nat, reached: nat, inStep: bool)
      requires i <= |log|
      reads this
    {
      && Safe(log, State()) && AllSafe(log, journal) && PassedTo(log, i, State())
      && InOrder(log, was, pos, reached, handedOver)
      && (inStep ==> InStepAt(log, i, State(), failures))
    }

    method NextOfPage(log: seq<Id>, i: nat, ghost was: seq<Id>, ghost pos: nat, ghost inStep: bool)
      returns (waits: bool, ok: bool)
      requires Distinct(log) && i < |log| && OnPage(log, was, pos, i, i, inStep)
      modifies this`calls, this`retry, this`settled, this`abandoned, this`failures, this`handedOver, this`journal
      ensures OnPage(log, was, pos, if waits then i else i + 1, i + 1, inStep)
      ensures waits ==> retry.Some? && retry.value.id == log[i] && retry.value.count < MAX_EVENT_ATTEMPTS
    {
      ghost var handed, before := handedOver, State();
      waits, ok := HandOver(log, i);
      GrowingStaysSafe(log, before, State(), i);
      assert log[i..i + 1] == [log[i]];
      OrderGoesOn(log, was, pos, i, handed, i + 1, handedOver);
    }

    /** One page, front to back: each event is done with before the next is looked at. */
    method ProcessPage(log: seq<Id>, pos: nat, end: nat) returns (stopped: bool, processed: nat, ghost reached: nat)
      requires Distinct(log) && pos <= end <= |log| && pos == Position(log, cursor)
      requires Safe(log, State()) && AllSafe(log, journal) && (cursor.Some? ==> cursor.value in log)
      modifies this
      ensures AllSafe(log, journal)
      ensures reached <= end && InOrder(log, old(handedOver), pos, reached, handedOver)
      ensures Safe(log, State()) && (cursor.Some? ==> cursor.value in log)
      ensures if stopped then pos < reached && Waiting(log, reached, State())
        else reached == end == Position(log, cursor)
      ensures old(InStep(log, State(), failures)) ==> InStep(log, State(), failures)
    {
      ghost var inStep := InStep(log, State(), failures);
      processed, stopped, reached := 0, false, pos;
      var lastProcessed, i := cursor, pos;
      while i < end && !stopped
        invariant pos <= i <= end && cursor == old(cursor) && reached == if stopped then i + 1 else i
        invariant lastProcessed == (if i == pos then old(cursor) else Some(log[i - 1]))
        invariant OnPage(log, old(handedOver), pos, i, reached, inStep)
        invariant stopped ==>
          i < end && retry.Some? && retry.value.id == log[i] && retry.value.count < MAX_EVENT_ATTEMPTS
        decreases end - i, if stopped then 0 else 1
      {
        var waits, ok := NextOfPage(log, i, old(handedOver), pos, inStep);
        reached := i + 1;
        if waits {
          stopped := true;
        } else {
          if ok {
            processed := processed + 1;
          }
          lastProcessed := Some(log[i]);
          i := i + 1;
        }
      }
      FinishPage(log, old(handedOver), pos, i, reached, inStep, lastProcessed);
    }

    method FinishPage(log: seq<Id>, ghost was: seq<Id>, ghost pos: nat, ghost i: nat, ghost reached: nat,
          ghost inStep: bool,
        lastProcessed: Option<Id>)
      requires Distinct(log) && i <= |log| && OnPage(log, was, pos, i, reached, inStep) &&
        (cursor.Some? ==> cursor.value in log)
      requires if lastProcessed == cursor then Position(log, cursor) == i
        else i > 0 && lastProcessed == Some(log[i - 1])
      modifies this`cursor, this`journal
      ensures AllSafe(log, journal) && Safe(log, State()) && (cursor.Some? ==> cursor.value in log)
      ensures InOrder(log, was, pos, reached, handedOver) && Position(log, cursor) == i
      ensures inStep ==> InStep(log, State(), failures)
    {
      MoveTo(log, i, lastProcessed);
    }

    /** The cursor follows the last event that is done with. */
    method MoveTo(log: seq<Id>, ghost i: nat, lastProcessed: Option<Id>)
      requires Distinct(log) && i <= |log| && (cursor.Some? ==> cursor.value in log)
      requires if lastProcessed == cursor then Position(log, cursor) == i
        else i > 0 && lastProcessed == Some(log[i - 1])
      requires AllSafe(log, journal) && PassedTo(log, i, State())
      modifies this`cursor, this`journal
      ensures State() == old(State()).(cursor := lastProcessed) && Position(log, cursor) == i
      ensures old(InStepAt(log, i, State(), failures)) ==> InStep(log, State(), failures)
      ensures Safe(log, State()) && (cursor.Some? ==> cursor.value in log)
      ensures AllSafe(log, journal)
    {
      if i > 0 && lastProcessed != cursor {
        PositionOf(log, i - 1);
      }
      AdvanceCursor(lastProcessed, cursor);
    }

    /** Pages until the log is exhausted, an event has to wait for its retry, or a call fails. A
        cursor the API does not know is dropped and the history replayed. `up` says which of this
        poll's calls the API answers. */
    method PollDsyncEventsOnce(log: seq<Id>, limit: nat, up: nat -> bool)
      returns (result: PollResult, ghost reached: nat)
      requires Distinct(log) && limit >= 1 && Safe(log, State())
      modifies this
      ensures AllSafe(log, journal) && Safe(log, State())
      ensures InOrder(log, old(handedOver), Position(log, old(cursor)), reached, handedOver)
      ensures old(InStep(log, State(), failures)) ==> InStep(log, State(), failures)
      ensures result.Polled? ==> Waiting(log, reached, State()) || reached == |log| == Position(log, cursor)
    {
      var processed, fetches := 0, 0;
      ghost var start, inStep := Position(log, cursor), InStep(log, State(), failures);
      journal := [State()];
      reached := start;
      while true
        invariant AllSafe(log, journal) && Safe(log, State())
        invariant reached == Position(log, cursor) && InOrder(log, old(handedOver), start, reached, handedOver)
        invariant inStep ==> InStep(log, State(), failures)
        decreases |log| - reached, if cursor.Some? && cursor.value !in log then 1 else 0
      {
        if !up(fetches) {
          return Threw, reached;
        }
        fetches := fetches + 1;
        if cursor.Some? && cursor.value !in log {
          DropCursor(log);
          continue;
        }
        var pos := Position(log, cursor);
        var end := if pos + limit < |log| then pos + limit else |log|;
        ghost var handed := handedOver;
        var stopped, n;
        stopped, n, reached := ProcessPage(log, pos, end);
        OrderGoesOn(log, old(handedOver), start, pos, handed, reached, handedOver);
        processed := processed + n;
        if stopped || end == |log| {
          return Polled(processed), reached;
        }
      }
    }

    method DropCursor(log: seq<Id>)
      requires cursor.Some? && cursor.value !in log
      modifies this`cursor, this`journal
      ensures State() == old(State()).(cursor := None) && journal == old(journal) + [State()]
      ensures Position(log, cursor) == Position(log, old(cursor)) == 0 && Safe(log, State())
    {
      cursor := None;
      journal := journal + [State()];
    }
  }
}
