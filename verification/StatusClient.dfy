// How a listener learns whether to apply an event: the proxy's status endpoint behind a TTL
// cache, conditional requests and a failure backoff, with a confirmation before an event is
// ignored for good.

module StatusClient {
  import opened Common

  const TTL_MS := 5_000

  datatype Mode = Passthrough | DualWrite | WorkosPrimary | WorkosOnly

  /** The parts of a directory row the endpoint serves. */
  datatype Version = Version(mode: Mode, workosId: string, updatedAt: string)

  /** As received; an older bridge sends no instruction. */
  datatype Status = Status(mode: Mode, apply: Option<bool>)

  /** `validatedAt` is the clock when the request that confirmed the entry was started. */
  datatype Entry = Entry(status: Status, etag: string, validatedAt: nat)

  datatype Client = Client(cache: Option<Entry>, failedUntil: nat)

  // ---------------------------------------------------------------- the endpoint

  function AppliesDsyncEvents(mode: Mode): bool {
    mode.WorkosOnly?
  }

  function ModeName(mode: Mode): string {
    match mode
    case Passthrough => "passthrough"
    case DualWrite => "dual-write"
    case WorkosPrimary => "workos-primary"
    case WorkosOnly => "workos-only"
  }

  function ETag(v: Version): string {
    ModeName(v.mode) + ":" + ETagTail(v)
  }

  function ETagTail(v: Version): string {
    v.workosId + ":" + v.updatedAt + ":apply=" + (if AppliesDsyncEvents(v.mode) then "1" else "0")
  }

  function Served(v: Version): Status {
    Status(v.mode, Some(AppliesDsyncEvents(v.mode)))
  }

  lemma BeforeTheColon(m: string, r: string, n: string, q: string)
    requires ':' !in m && ':' !in n && m + ":" + r == n + ":" + q
    ensures m == n
  {
    var a := m + ":" + r;
    assert a[|m|] == ':' && (n + ":" + q)[|n|] == ':';
    assert forall i :: 0 <= i < |m| ==> a[i] == m[i] && m[i] in m;
    assert forall i :: 0 <= i < |n| ==> a[i] == n[i] && n[i] in n;
    assert |m| == |n|;
    assert m == a[..|m|];
  }

  lemma OneModePerName(m: Mode, n: Mode)
    requires ModeName(m) == ModeName(n)
    ensures m == n
  {
    assert ModeName(m)[0] == ModeName(n)[0] && |ModeName(m)| == |ModeName(n)|;
  }

  /** A 304 never withholds a changed instruction, nor a changed mode. */
  lemma SameETagSameInstruction(v: Version, w: Version)
    requires ETag(v) == ETag(w)
    ensures Served(v) == Served(w)
  {
    BeforeTheColon(ModeName(v.mode), ETagTail(v), ModeName(w.mode), ETagTail(w));
    OneModePerName(v.mode, w.mode);
  }

  // ---------------------------------------------------------------- one read

  predicate IsUsable(e: Entry, now: nat, since: Option<nat>) {
    now < e.validatedAt + TTL_MS && (since.None? || since.value <= e.validatedAt)
  }

  /** What a read meets. `ready`: there is a base URL and a token. `answer`: what the origin is when
      the request reaches it; None if it fails. */
  datatype Attempt = Attempt(now: nat, ready: bool, answer: Option<Version>)

  /** The origin gets to confirm or correct the cache. */
  predicate Reaches(c: Client, t: Attempt) {
    c.failedUntil <= t.now && t.ready && t.answer.Some?
  }

  function Read(c: Client, t: Attempt, since: Option<nat>): (Client, Option<Status>) {
    if c.cache.Some? && IsUsable(c.cache.value, t.now, since) then (c, Some(c.cache.value.status))
    else
      var stale := if since.Some? && c.cache.Some? then Some(c.cache.value.status) else None;
      if t.now < c.failedUntil || !t.ready then (c, stale)
      else if t.answer.None? then (c.(failedUntil := t.now + TTL_MS), stale)
      else if c.cache.Some? && c.cache.value.etag != "" && c.cache.value.etag == ETag(t.answer.value) then
        (c.(cache := Some(c.cache.value.(validatedAt := t.now))), Some(c.cache.value.status))
      else
        (c.(cache := Some(Entry(Served(t.answer.value), ETag(t.answer.value), t.now))), Some(Served(t.answer.value)))
  }

  function InstructionFrom(rowMode: Mode, status: Option<Status>): bool {
    if status.None? then rowMode.WorkosOnly?
    else if status.value.apply.Some? then status.value.apply.value
    else status.value.mode.WorkosOnly?
  }

  /** Apply at once; ignore only on a status confirmed since the event arrived, if one can be had. */
  function Instruct(c: Client, arrivedAt: nat, rowMode: Mode, first: Attempt, second: Attempt): (Client, bool) {
    var (c1, status) := Read(c, first, None);
    if InstructionFrom(rowMode, status) then (c1, true)
    else
      var (c2, confirmed) := Read(c1, second, Some(arrivedAt));
      (c2, InstructionFrom(rowMode, confirmed))
  }

  class StatusReader {
    var cache: Option<Entry>
    var failedUntil: nat

    function State(): Client
      reads this
    {
      Client(cache, failedUntil)
    }

    method FetchDirectoryStatus(t: Attempt, validatedSince: Option<nat>) returns (status: Option<Status>)
      modifies this
      ensures (State(), status) == Read(old(State()), t, validatedSince)
    {
      var cached := cache;
      if cached.Some? && IsUsable(cached.value, t.now, validatedSince) {
        return Some(cached.value.status);
      }
      var staleAnswer := if validatedSince.None? || cached.None? then None else Some(cached.value.status);
      if failedUntil > t.now || !t.ready {
        return staleAnswer;
      }
      if t.answer.None? {
        failedUntil := t.now + TTL_MS;
        return staleAnswer;
      }
      var ifNoneMatch := if cached.Some? && cached.value.etag != "" then Some(cached.value.etag) else None;
      if ifNoneMatch == Some(ETag(t.answer.value)) {
        cache := Some(cached.value.(validatedAt := t.now));
        return Some(cached.value.status);
      }
      cache := Some(Entry(Served(t.answer.value), ETag(t.answer.value), t.now));
      status := Some(Served(t.answer.value));
    }

    method DsyncInstruction(arrivedAt: nat, rowMode: Mode, first: Attempt, second: Attempt) returns (apply: bool)
      modifies this
      ensures (State(), apply) == Instruct(old(State()), arrivedAt, rowMode, first, second)
    {
      var status := FetchDirectoryStatus(first, None);
      apply := InstructionFrom(rowMode, status);
      if apply {
        return;
      }
      status := FetchDirectoryStatus(second, Some(arrivedAt));
      apply := InstructionFrom(rowMode, status);
    }
  }

  // ---------------------------------------------------------------- across the cutover

  /** The directory row over time, and the clock; both move along the same instants. */
  datatype History = History(row: nat -> Version, clock: nat -> nat)

  ghost predicate ClockRuns(h: History) {
    forall i: nat, j: nat :: i <= j ==> h.clock(i) <= h.clock(j)
  }

  /** This is what the origin would have served at instant `seen`, on a request begun at `asked`. */
  ghost predicate Witnessed(h: History, e: Entry, asked: nat, seen: nat) {
    && asked <= seen && e.validatedAt == h.clock(asked)
    && e.status == Served(h.row(seen)) && e.etag == ETag(h.row(seen))
  }

  /** The cache holds nothing the origin did not say. */
  ghost predicate Honest(h: History, c: Client, upTo: nat) {
    c.cache.Some? ==> exists asked: nat, seen: nat :: seen <= upTo && Witnessed(h, c.cache.value, asked, seen)
  }

  /** A read begun at instant `asked` that reaches the origin, if it does, at instant `seen`. */
  predicate Happens(h: History, t: Attempt, asked: nat, seen: nat) {
    asked <= seen && t.now == h.clock(asked) && (t.answer.Some? ==> t.answer.value == h.row(seen))
  }

  lemma ReadsStayHonest(h: History, c: Client, t: Attempt, since: Option<nat>, asked: nat, seen: nat)
    requires Honest(h, c, asked) && Happens(h, t, asked, seen)
    ensures Honest(h, Read(c, t, since).0, seen)
    ensures var (next, status) := Read(c, t, since);
      Reaches(c, t) && !(c.cache.Some? && IsUsable(c.cache.value, t.now, since)) ==> status == Some(Served(h.row(seen)))
  {
    var next := Read(c, t, since).0;
    if c.cache.Some? {
      var i: nat, o: nat :| o <= asked && Witnessed(h, c.cache.value, i, o);
      if t.answer.Some? && ETag(t.answer.value) == c.cache.value.etag {
        SameETagSameInstruction(h.row(o), h.row(seen));
      }
      assert Witnessed(h, next.cache.value, asked, seen) || next.cache == c.cache;
    } else if next.cache.Some? {
      assert Witnessed(h, next.cache.value, asked, seen);
    }
  }

  predicate SaysInert(c: Client) {
    c.cache.Some? && !InstructionFrom(WorkosPrimary, Some(c.cache.value.status))
  }

  /** The first answer comes from a cache that still says to stay inert. */
  predicate CachedInert(c: Client, now: nat) {
    SaysInert(c) && IsUsable(c.cache.value, now, None)
  }

  /** What one event is told, when its second read finds the cache as other deliveries left it. */
  predicate Applied(c: Client, later: Client, arrivedAt: nat, rowMode: Mode, first: Attempt, second: Attempt) {
    || InstructionFrom(rowMode, Read(c, first, None).1)
    || InstructionFrom(rowMode, Read(later, second, Some(arrivedAt)).1)
  }

  /** Undisturbed, this is the instruction of the two reads. */
  lemma UndisturbedIsInstruct(c: Client, arrivedAt: nat, rowMode: Mode, first: Attempt, second: Attempt)
    ensures Instruct(c, arrivedAt, rowMode, first, second).1 ==
      Applied(c, Read(c, first, None).0, arrivedAt, rowMode, first, second)
  {
  }

  /** When an event of a workos-only directory is ignored: the cache says inert at both reads, and at
      the second either it cannot be confirmed or it passes for confirmed. */
  predicate Lost(c: Client, later: Client, arrivedAt: nat, first: Attempt, second: Attempt) {
    && CachedInert(c, first.now) && SaysInert(later)
    && (!Reaches(later, second) || IsUsable(later.cache.value, second.now, Some(arrivedAt)))
  }

  /** From the instant the change was committed to WorkOS until the listener has decided, the
      directory is in workos-only. Whatever honest cache either read finds, the event is applied
      unless it is lost in the one way above; and an entry that passes for confirmed then was asked
      for within the very clock tick of the arrival. */
  lemma IgnoredExactlyWhen(h: History, c: Client, later: Client, committed: nat, arrived: nat,
      a1: nat, s1: nat, a2: nat, s2: nat, first: Attempt, second: Attempt)
    requires ClockRuns(h) && committed <= arrived <= a1 <= s1 <= a2 <= s2
    requires forall i: nat :: committed <= i <= s2 ==> h.row(i).mode == WorkosOnly
    requires Honest(h, c, a1) && Happens(h, first, a1, s1) && Honest(h, later, a2) && Happens(h, second, a2, s2)
    ensures Applied(c, later, h.clock(arrived), WorkosOnly, first, second) <==>
      !Lost(c, later, h.clock(arrived), first, second)
    ensures Lost(c, later, h.clock(arrived), first, second) &&
      IsUsable(later.cache.value, second.now, Some(h.clock(arrived)))
      ==> later.cache.value.validatedAt == h.clock(arrived)
  {
    OneReadApplies(h, c, first, None, a1, s1);
    OneReadApplies(h, later, second, Some(h.clock(arrived)), a2, s2);
    if SaysInert(later) {
      InertWasAskedBefore(h, later, arrived, a2);
    }
  }

  /** A read that reaches a workos-only origin applies; one that does not may fall back on what its
      cache says, if it has to be confirmed, and else on the mode of the row. */
  lemma OneReadApplies(h: History, c: Client, t: Attempt, since: Option<nat>, asked: nat, seen: nat)
    requires h.row(seen).mode == WorkosOnly && Honest(h, c, asked) && Happens(h, t, asked, seen)
    ensures InstructionFrom(WorkosOnly, Read(c, t, since).1) <==>
      !(SaysInert(c) && (IsUsable(c.cache.value, t.now, since) || (since.Some? && !Reaches(c, t))))
  {
    ReadsStayHonest(h, c, t, since, asked, seen);
  }

  /** A cached "stay inert" was asked for before the directory was in workos-only. */
  lemma InertWasAskedBefore(h: History, c: Client, arrived: nat, upTo: nat)
    requires ClockRuns(h) && Honest(h, c, upTo) && SaysInert(c)
    requires forall i: nat :: arrived <= i <= upTo ==> h.row(i).mode == WorkosOnly
    ensures c.cache.value.validatedAt <= h.clock(arrived)
  {
    var asked: nat, seen: nat :| seen <= upTo && Witnessed(h, c.cache.value, asked, seen);
    assert h.row(seen).mode != WorkosOnly;
    assert asked <= arrived;
  }

  /** That loss is real: the clock stands still while an honest cache is filled, the directory is
      flipped, the change is committed and the event arrives. */
  lemma LostWithinOneTick(before: Version, after: Version)
    requires !AppliesDsyncEvents(before.mode) && after.mode == WorkosOnly
    ensures exists h: History, c: Client, first: Attempt, second: Attempt ::
      && ClockRuns(h) && Honest(h, c, 2) && Happens(h, first, 2, 2) && Happens(h, second, 2, 2) && Reaches(c, second)
      && (forall i: nat :: 2 <= i ==> h.row(i) == after)
      && !Instruct(c, h.clock(2), WorkosOnly, first, second).1
  {
    var h := History(i => if i < 2 then before else after, i => 0);
    var c := Client(Some(Entry(Served(before), ETag(before), 0)), 0);
    var t := Attempt(0, true, Some(after));
    assert Witnessed(h, c.cache.value, 0, 0);
    assert Happens(h, t, 2, 2) && Reaches(c, t);
    assert !Instruct(c, h.clock(2), WorkosOnly, t, t).1;
  }

  /** If the endpoint answers, and the flip to workos-only is not within the clock tick of the
      event's arrival, no event of a write committed in workos-only is ignored. */
  lemma NothingLostAtCutover(h: History, c: Client, later: Client, flip: nat, committed: nat, arrived: nat,
      a1: nat, s1: nat, a2: nat, s2: nat, first: Attempt, second: Attempt)
    requires ClockRuns(h) && flip <= committed <= arrived <= a1 <= s1 <= a2 <= s2
    requires forall i: nat :: flip <= i <= s2 ==> h.row(i).mode == WorkosOnly
    requires forall i: nat :: i < flip ==> h.clock(i) < h.clock(arrived)
    requires Honest(h, c, a1) && Happens(h, first, a1, s1) && Honest(h, later, a2) && Happens(h, second, a2, s2)
    requires Reaches(later, second)
    ensures Applied(c, later, h.clock(arrived), WorkosOnly, first, second)
  {
    IgnoredExactlyWhen(h, c, later, committed, arrived, a1, s1, a2, s2, first, second);
    assert SaysInert(later) ==> later.cache.value.validatedAt < h.clock(arrived);
  }
}
