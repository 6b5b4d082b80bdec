/** The provider limiter of providers/rate_limit.py: reactive block, proactive window, and
    the retry loop. Other callers of the same limiter run at every await; they are modelled
    by Interleave, which performs any number of their steps. */
module ProviderRetry {
  import opened Base
  import opened Time
  import opened SlidingWindow

  /** The exception classes the retry loop tells apart. */
  datatype UpstreamError =
    | RateLimitError
    | HttpStatusError(status: int)
    | ApiConnectionError
    | PlainApiError
    | ApiSubclassError(code: Option<int>)
    | OtherError

  datatype Outcome = Ok(value: int) | Err(error: UpstreamError)

  predicate UpstreamHttpRetryable(code: int) {
    code == 408 || code == 429 || 500 <= code <= 599
  }

  /** Whatever it is read from, a status to retry on is one of the transient ones. */
  function RetryableUpstreamStatus(e: UpstreamError): (status: Option<int>)
    ensures status.Some? ==> UpstreamHttpRetryable(status.value)
  {
    match e
    case RateLimitError => Some(429)
    case HttpStatusError(status) => if UpstreamHttpRetryable(status) then Some(status) else None
    case ApiConnectionError => Some(408)
    case PlainApiError => Some(500)
    case ApiSubclassError(Some(code)) => if 500 <= code <= 599 then Some(code) else None
    case ApiSubclassError(None) => None
    case OtherError => None
  }

  /** The HTTP status an error carries itself. */
  function CarriedStatus(e: UpstreamError): Option<int> {
    match e
    case RateLimitError => Some(429)
    case HttpStatusError(status) => Some(status)
    case ApiSubclassError(code) => code
    case _ => None
  }

  /** An error with a status is retried iff the status is transient and, inside a subclass of the
      API client's error, a 5xx; an error without one iff its class says so. */
  lemma RetriedIff(e: UpstreamError)
    ensures match CarriedStatus(e)
            case Some(c) =>
              RetryableUpstreamStatus(e)
              == if UpstreamHttpRetryable(c) && (e.ApiSubclassError? ==> 500 <= c <= 599) then Some(c) else None
            case None => RetryableUpstreamStatus(e).Some? <==> e.ApiConnectionError? || e.PlainApiError?
  {
  }

  /** The statuses themselves: 408, 429 and everything from 500 to 599; in an API subclass 5xx only. */
  lemma RetriedStatuses(status: int)
    ensures Retryable(Err(HttpStatusError(status))) <==> status == 408 || status == 429 || status / 100 == 5
    ensures Retryable(Err(ApiSubclassError(Some(status)))) <==> status / 100 == 5
    ensures Retryable(Err(RateLimitError)) && Retryable(Err(ApiConnectionError)) && Retryable(Err(PlainApiError))
    ensures !Retryable(Err(ApiSubclassError(None))) && !Retryable(Err(OtherError))
  {
  }

  /** So one status can meet two fates, depending on the class that carries it: exactly 408 and 429. */
  lemma SameFateIff(status: int)
    ensures Retryable(Err(HttpStatusError(status))) == Retryable(Err(ApiSubclassError(Some(status))))
       <==> status != 408 && status != 429
  {
  }

  lemma TimeoutStatusMeetsTwoFates()
    ensures Retryable(Err(HttpStatusError(408))) && !Retryable(Err(ApiSubclassError(Some(408))))
  {
  }

  predicate Retryable(o: Outcome) {
    o.Err? && RetryableUpstreamStatus(o.error).Some?
  }

  datatype Policy = Policy(baseDelay: real, maxDelay: real, jitter: real)

  function Pow2(n: nat): real {
    if n == 0 then 1.0 else 2.0 * Pow2(n - 1)
  }

  function BaseBackoff(p: Policy, attempt: nat): real {
    var d := p.baseDelay * Pow2(attempt);
    if d <= p.maxDelay then d else p.maxDelay
  }

  /** A delay the loop may draw after failure number `attempt`. */
  predicate IsBackoff(p: Policy, attempt: nat, delay: real) {
    var extra := delay - BaseBackoff(p, attempt);
    if p.jitter >= 0.0 then 0.0 <= extra <= p.jitter else p.jitter <= extra <= 0.0
  }

  /** One call of the wrapped function; `slot` is its position in the shared grant history
      and `delay` the backoff slept after it. */
  datatype Try = Try(start: real, slot: nat, ended: real, outcome: Outcome, delay: real)

  datatype RunResult = Returned(value: int) | Raised(error: UpstreamError) | NeverAttempted | StillWaiting

  /** Every try but the last failed retryably, and the next one kept its distance. */
  ghost predicate Paced(p: Policy, tries: seq<Try>) {
    && (forall a :: 0 <= a < |tries| ==> tries[a].start <= tries[a].ended)
    && (forall a :: 0 <= a < |tries| - 1 ==>
          && Retryable(tries[a].outcome) && IsBackoff(p, a, tries[a].delay)
          && tries[a].ended <= tries[a + 1].start
          && tries[a].ended + tries[a].delay <= tries[a + 1].start)
  }

  /** Each try used its own slot of the grant history, at the moment it started. */
  ghost predicate Slotted(tries: seq<Try>, first: nat, granted: seq<real>) {
    && (forall a :: 0 <= a < |tries| ==> first <= tries[a].slot < |granted| && granted[tries[a].slot] == tries[a].start)
    && (forall a, b :: 0 <= a < b < |tries| ==> tries[a].slot < tries[b].slot)
  }

  /** What the caller gets, read off the tries alone. */
  ghost predicate Decides(tries: seq<Try>, maxRetries: int, r: RunResult) {
    var n := |tries|;
    match r
    case Returned(v) => n > 0 && tries[n - 1].outcome == Ok(v)
    case Raised(e) =>
      && n > 0 && tries[n - 1].outcome == Err(e)
      && (RetryableUpstreamStatus(e).None? || n == 1 + maxRetries)
    case NeverAttempted => n == 0 && maxRetries < 0
    case StillWaiting => n <= maxRetries && (n > 0 ==> Retryable(tries[n - 1].outcome))
  }

  /** The attempt budget: never more than 1 + maxRetries calls, and with a non-negative budget
      the run ends by value, by first non-retryable error, or by the last retryable one. */
  lemma AttemptBudget(p: Policy, tries: seq<Try>, maxRetries: int, r: RunResult)
    requires Paced(p, tries) && Decides(tries, maxRetries, r) && |tries| <= 1 + maxRetries
    requires r.Returned? || r.Raised?
    ensures forall a :: 0 <= a < |tries| ==>
              (a < |tries| - 1 <==> Retryable(tries[a].outcome) && a < maxRetries)
  {
    var last := tries[|tries| - 1];
    if Retryable(last.outcome) {
      assert r == Raised(last.outcome.error);
      assert |tries| == 1 + maxRetries;
    }
  }

  function TotalDelay(tries: seq<Try>, n: nat): real
    requires n <= |tries|
  {
    if n == 0 then 0.0 else TotalDelay(tries, n - 1) + tries[n - 1].delay
  }

  /** The tries are at least the whole backoff apart. */
  lemma {:induction false} BackoffElapses(p: Policy, tries: seq<Try>, n: nat)
    requires Paced(p, tries) && n < |tries|
    ensures tries[0].start + TotalDelay(tries, n) <= tries[n].start
  {
    if n > 0 {
      BackoffElapses(p, tries, n - 1);
      assert Retryable(tries[n - 1].outcome);
    }
  }

  lemma {:induction false} PowersGrow(a: nat, b: nat)
    requires a <= b
    ensures 1.0 <= Pow2(a) <= Pow2(b)
  {
    if b > a {
      PowersGrow(a, b - 1);
    } else if a > 0 {
      PowersGrow(a - 1, a - 1);
    }
  }

  /** The first n capped backoffs, without jitter. */
  function BackoffSum(p: Policy, n: nat): real {
    if n == 0 then 0.0 else BackoffSum(p, n - 1) + BaseBackoff(p, n - 1)
  }

  function Multiple(n: nat, x: real): real {
    if n == 0 then 0.0 else Multiple(n - 1, x) + x
  }

  lemma DelayBounds(p: Policy, tries: seq<Try>, a: nat)
    requires Paced(p, tries) && a < |tries| - 1 && p.jitter >= 0.0
    ensures BaseBackoff(p, a) <= tries[a].delay <= BaseBackoff(p, a) + p.jitter
    ensures BaseBackoff(p, a) <= p.maxDelay
    ensures p.baseDelay * Pow2(a) <= p.maxDelay ==> BaseBackoff(p, a) == p.baseDelay * Pow2(a)
  {
    assert Retryable(tries[a].outcome) && IsBackoff(p, a, tries[a].delay);
  }

  /** Whatever the tries were, the total backoff is the capped geometric sum plus at most one
      jitter a retry. */
  lemma {:induction false} TotalBackoff(p: Policy, tries: seq<Try>, n: nat)
    requires Paced(p, tries) && n < |tries| && p.jitter >= 0.0
    ensures BackoffSum(p, n) <= TotalDelay(tries, n) <= BackoffSum(p, n) + Multiple(n, p.jitter)
    ensures BackoffSum(p, n) <= Multiple(n, p.maxDelay)
  {
    if n > 0 {
      TotalBackoff(p, tries, n - 1);
      DelayBounds(p, tries, n - 1);
    }
  }

  lemma PowerStep(b: real, n: nat)
    requires n > 0
    ensures b * (Pow2(n) - 1.0) == b * (Pow2(n - 1) - 1.0) + b * Pow2(n - 1)
  {
    var q := Pow2(n - 1);
    assert b * (2.0 * q) == b * q + b * q;
  }

  predicate Uncapped(p: Policy, attempt: nat) {
    p.baseDelay * Pow2(attempt) <= p.maxDelay
  }

  lemma UncappedBefore(p: Policy, attempt: nat)
    requires p.baseDelay >= 0.0 && attempt > 0 && Uncapped(p, attempt)
    ensures Uncapped(p, attempt - 1)
  {
    var q := Pow2(attempt - 1);
    PowersGrow(attempt - 1, attempt - 1);
    assert p.baseDelay * (2.0 * q) == p.baseDelay * q + p.baseDelay * q;
    assert p.baseDelay * q >= 0.0;
  }

  /** As long as the cap is not reached the sum has the closed form base * (2^n - 1). */
  lemma {:induction false} BackoffClosedForm(p: Policy, n: nat)
    requires p.baseDelay >= 0.0 && (n > 0 ==> Uncapped(p, n - 1))
    ensures BackoffSum(p, n) == p.baseDelay * (Pow2(n) - 1.0)
  {
    if n > 0 {
      PowerStep(p.baseDelay, n);
      if n > 1 {
        UncappedBefore(p, n - 1);
      }
      BackoffClosedForm(p, n - 1);
    }
  }

  lemma PacedAppend(p: Policy, tries: seq<Try>, t: Try)
    requires Paced(p, tries) && t.start <= t.ended
    requires tries != [] ==> ReadyAt(p, tries, t.start)
    ensures Paced(p, tries + [t])
  {
    var more := tries + [t];
    forall a | 0 <= a < |more| - 1
      ensures && Retryable(more[a].outcome) && IsBackoff(p, a, more[a].delay)
              && more[a].ended <= more[a + 1].start
              && more[a].ended + more[a].delay <= more[a + 1].start
    {
      if a < |tries| - 1 {
        assert Retryable(tries[a].outcome) && more[a + 1] == tries[a + 1];
      }
    }
  }

  /** The last try failed retryably and its backoff is over by `now`. */
  ghost predicate ReadyAt(p: Policy, tries: seq<Try>, now: real)
    requires tries != []
  {
    var last := tries[|tries| - 1];
    && Retryable(last.outcome) && IsBackoff(p, |tries| - 1, last.delay)
    && last.ended <= now && last.ended + last.delay <= now
  }

  lemma SlottedAppend(tries: seq<Try>, t: Try, first: nat, before: seq<real>, after: seq<real>)
    requires Slotted(tries, first, before) && before <= after && first <= |before|
    requires |before| <= t.slot < |after| && after[t.slot] == t.start
    ensures Slotted(tries + [t], first, after)
  {
  }

  /** With the shipped policy the four retries spend between 30 and 34 seconds in backoff. */
  lemma DefaultBackoffBudget(tries: seq<Try>)
    requires Paced(Policy(2.0, 60.0, 1.0), tries) && |tries| == 5
    ensures 30.0 <= TotalDelay(tries, 4) <= 34.0
  {
    var p := Policy(2.0, 60.0, 1.0);
    assert Pow2(1) == 2.0 && Pow2(2) == 4.0 && Pow2(3) == 8.0 && Pow2(4) == 16.0;
    TotalBackoff(p, tries, 4);
    BackoffClosedForm(p, 4);
    assert Multiple(1, 1.0) == 1.0 && Multiple(2, 1.0) == 2.0 && Multiple(3, 1.0) == 3.0;
  }

  lemma {:induction false} SlotsSpread(tries: seq<Try>, first: nat, h: seq<real>, a: nat, k: nat)
    requires Slotted(tries, first, h) && a + k < |tries|
    ensures tries[a + k].slot >= tries[a].slot + k
  {
    if k > 0 {
      SlotsSpread(tries, first, h, a, k - 1);
      assert tries[a + (k - 1)].slot < tries[a + k].slot;
    }
  }

  /** The tries of one call, sharing the history with every other caller, still obey the window
      bound: any limit + 1 of them span at least one window. */
  lemma TriesRespectWindow(limit: int, span: real, tries: seq<Try>, first: nat, h: seq<real>, a: nat)
    requires limit > 0 && span > 0.0 && Sorted(h) && Spaced(limit, span, h) && Slotted(tries, first, h)
    requires a + limit < |tries|
    ensures tries[a + limit].start - tries[a].start >= span
  {
    SlotsSpread(tries, first, h, a, limit);
    var s, t := tries[a].slot, tries[a + limit].slot;
    assert h[s + limit] - h[s] >= span && h[s + limit] <= h[t];
  }

  /** How the loop leaves after an outcome: with a value, with a final error, or not at all. */
  function Settled(o: Outcome, lastTry: bool): (r: Option<RunResult>)
    ensures r.None? <==> Retryable(o) && !lastTry
  {
    match o
    case Ok(v) => Some(Returned(v))
    case Err(e) => if RetryableUpstreamStatus(e).None? || lastTry then Some(Raised(e)) else None
  }

  /** What the loop has established when it may try again. */
  ghost predicate Progress(p: Policy, tries: seq<Try>, limited: bool, first: nat, h: seq<real>, now: real) {
    && Paced(p, tries) && (limited ==> Slotted(tries, first, h))
    && (tries != [] ==> ReadyAt(p, tries, now))
  }

  lemma TryRecorded(p: Policy, tries: seq<Try>, t: Try, limited: bool, first: nat, before: seq<real>,
      after: seq<real>, now: real)
    requires Progress(p, tries, limited, first, before, now) && now <= t.start <= t.ended
    requires limited ==> before <= after && first <= |before| <= t.slot < |after| && after[t.slot] == t.start
    ensures Paced(p, tries + [t]) && (limited ==> Slotted(tries + [t], first, after))
  {
    PacedAppend(p, tries, t);
    if limited {
      SlottedAppend(tries, t, first, before, after);
    }
  }

  /** A reactive block up to at least `until` was set in between. */
  ghost predicate BlockSet(before: seq<real>, after: seq<real>, until: real) {
    exists i :: |before| <= i < |after| && until <= after[i]
  }

  // All calls of all callers together.

  function SlotsIn(h: seq<real>, lo: real, hi: real): set<nat> {
    set i: nat | i < |h| && lo < h[i] <= hi
  }

  lemma {:induction false} SlotsCounted(h: seq<real>, lo: real, hi: real)
    ensures |SlotsIn(h, lo, hi)| == CountIn(h, lo, hi)
  {
    if h != [] {
      var n := |h| - 1;
      SlotsCounted(h[..n], lo, hi);
      assert SlotsIn(h, lo, hi) == SlotsIn(h[..n], lo, hi) + if lo < h[n] <= hi then {n} else {};
    }
  }

  /** Tries with different slots are as many as their slots. */
  lemma {:induction false} SlotsOfTries(tries: set<Try>, slots: set<nat>)
    requires forall t, u :: t in tries && u in tries && t != u ==> t.slot != u.slot
    requires forall t :: t in tries ==> t.slot in slots
    ensures |tries| <= |slots|
  {
    if tries != {} {
      var t :| t in tries;
      SlotsOfTries(tries - {t}, slots - {t.slot});
    }
  }

  /** The tries of any number of calls that started in (lo, hi]. */
  function TriesIn(calls: seq<seq<Try>>, lo: real, hi: real): set<Try> {
    set c, a | 0 <= c < |calls| && 0 <= a < |calls[c]| && lo < calls[c][a].start <= hi :: calls[c][a]
  }

  /** The histories of one limiter: its grants, for which call each was made, the reactive blocks
      set, and how many calls have begun. */
  datatype Records = Records(granted: seq<real>, owners: seq<nat>, blocks: seq<real>, calls: nat)

  ghost predicate Extends(before: Records, after: Records) {
    && before.granted <= after.granted && before.owners <= after.owners && before.blocks <= after.blocks
    && before.calls <= after.calls
  }

  ghost predicate OwnedBy(tries: seq<Try>, me: nat, owners: seq<nat>) {
    forall a :: 0 <= a < |tries| ==> tries[a].slot < |owners| && owners[tries[a].slot] == me
  }

  /** What the retry loop guarantees for each call: its tries took slots of the one shared history, in
      the name of that call. */
  ghost predicate SharesHistory(calls: seq<seq<Try>>, ids: seq<nat>, r: Records) {
    && |ids| == |calls| && Distinct(ids)
    && (forall c :: 0 <= c < |calls| ==> Slotted(calls[c], 0, r.granted) && OwnedBy(calls[c], ids[c], r.owners))
  }

  /** What a call has established stays true while others go on. */
  lemma CallStays(tries: seq<Try>, first: nat, me: nat, before: Records, after: Records)
    requires Slotted(tries, first, before.granted) && OwnedBy(tries, me, before.owners) && Extends(before, after)
    ensures Slotted(tries, 0, after.granted) && OwnedBy(tries, me, after.owners)
  {
  }

  lemma TrySlot(calls: seq<seq<Try>>, ids: seq<nat>, r: Records, lo: real, hi: real, t: Try)
    requires SharesHistory(calls, ids, r) && t in TriesIn(calls, lo, hi)
    ensures t.slot in SlotsIn(r.granted, lo, hi)
  {
    var c, a :| 0 <= c < |calls| && 0 <= a < |calls[c]| && calls[c][a] == t;
    assert Slotted(calls[c], 0, r.granted);
  }

  /** No slot serves two tries, of one call or of two. */
  lemma TriesDiffer(calls: seq<seq<Try>>, ids: seq<nat>, r: Records, lo: real, hi: real, t: Try, u: Try)
    requires SharesHistory(calls, ids, r) && t in TriesIn(calls, lo, hi) && u in TriesIn(calls, lo, hi) && t != u
    ensures t.slot != u.slot
  {
    var c, a :| 0 <= c < |calls| && 0 <= a < |calls[c]| && calls[c][a] == t;
    var d, b :| 0 <= d < |calls| && 0 <= b < |calls[d]| && calls[d][b] == u;
    if c == d {
      assert Slotted(calls[c], 0, r.granted);
    } else {
      assert r.owners[t.slot] == ids[c] && OwnedBy(calls[d], ids[d], r.owners);
    }
  }

  /** All attempts across all concurrent callers of one limiter share one window bound: at most
      `rate limit` of them start in any half-open window. */
  lemma CallsRespectWindow(g: GlobalRateLimiter, calls: seq<seq<Try>>, ids: seq<nat>, lo: real)
    requires g.Valid() && g.limiter != null && SharesHistory(calls, ids, g.Recorded())
    ensures |TriesIn(calls, lo, lo + g.limiter.rateWindow)| <= g.limiter.rateLimit
  {
    var r, h, hi := g.Recorded(), g.History(), lo + g.limiter.rateWindow;
    var tries, slots := TriesIn(calls, lo, hi), SlotsIn(h, lo, hi);
    WindowBound(g.limiter.rateLimit, g.limiter.rateWindow, h, lo);
    SlotsCounted(h, lo, hi);
    assert |tries| <= |slots| by {
      forall t | t in tries ensures t.slot in slots {
        TrySlot(calls, ids, r, lo, hi, t);
      }
      forall t, u | t in tries && u in tries && t != u ensures t.slot != u.slot {
        TriesDiffer(calls, ids, r, lo, hi, t, u);
      }
      SlotsOfTries(tries, slots);
    }
  }

  class GlobalRateLimiter {
    const limiter: StrictSlidingWindowLimiter?
    const clock: Clock
    var blockedUntil: real
    ghost var blocks: seq<real>
    ghost var owners: seq<nat>
    ghost var calls: nat

    ghost predicate Valid()
      reads this, limiter, clock
    {
      && (limiter != null ==> limiter.Valid() && limiter.lastReading <= clock.now)
      && |owners| == |History()|
    }

    /** All grants of this instance, whoever asked for them. */
    ghost function History(): (h: seq<real>)
      reads this, limiter
    {
      if limiter == null then [] else limiter.granted
    }

    ghost function Recorded(): Records
      reads this, limiter
    {
      Records(History(), owners, blocks, calls)
    }

    /** The slot was granted to this call. */
    ghost predicate Holds(me: nat, slot: nat)
      reads this, limiter
    {
      limiter != null ==> slot < |History()| && slot < |owners| && owners[slot] == me
    }

    /** A rate limit of 0 disables the proactive window; bad arguments raise in the original. */
    static method Create(rateLimit: int, rateWindow: real, maxConcurrency: int, clock: Clock)
      returns (r: Result<GlobalRateLimiter, string>)
      ensures r.Failure? <==> rateLimit < 0 || rateWindow <= 0.0 || maxConcurrency <= 0
      ensures r.Success? && 0.0 <= clock.now ==> r.value.Valid() && r.value.History() == [] && r.value.clock == clock
      ensures r.Success? ==> (r.value.limiter == null <==> rateLimit == 0)
    {
      if rateLimit < 0 {
        return Failure("rate_limit must be >= 0 (0 disables proactive limiting)");
      }
      if rateWindow <= 0.0 {
        return Failure("rate_window must be > 0");
      }
      if maxConcurrency <= 0 {
        return Failure("max_concurrency must be > 0");
      }
      var g := new GlobalRateLimiter(rateLimit, rateWindow, clock);
      return Success(g);
    }

    constructor (rateLimit: int, rateWindow: real, clock: Clock)
      requires rateLimit >= 0 && rateWindow > 0.0
      ensures this.clock == clock && (limiter == null <==> rateLimit == 0) && blockedUntil == 0.0
      ensures 0.0 <= clock.now ==> Valid() && History() == []
    {
      var proactive: StrictSlidingWindowLimiter? := null;
      if rateLimit > 0 {
        proactive := new StrictSlidingWindowLimiter(rateLimit, rateWindow);
      }
      limiter, this.clock, blockedUntil := proactive, clock, 0.0;
      blocks, owners, calls := [], [], 0;
    }

    ghost method BeginCall() returns (me: nat)
      modifies this`calls
      ensures me == old(calls) && calls == me + 1
    {
      me := calls;
      calls := calls + 1;
    }

    /** The newest block wins, even over a longer one. */
    method SetBlocked(seconds: real)
      requires Valid()
      modifies this`blockedUntil, this`blocks, clock
      ensures Valid() && old(clock.now) <= clock.now && blockedUntil == clock.now + seconds
      ensures blocks == old(blocks) + [blockedUntil]
    {
      var now := clock.Read();
      blockedUntil := now + seconds;
      blocks := blocks + [blockedUntil];
    }

    /** One pass of an `acquire` loop, for the call `me`. */
    method AttemptSlot(ghost me: nat) returns (v: Verdict)
      requires Valid()
      modifies this`owners, limiter, clock
      ensures Valid() && old(clock.now) <= clock.now
      ensures History() == if v.Granted? && limiter != null then old(History()) + [clock.now] else old(History())
      ensures owners == if v.Granted? && limiter != null then old(owners) + [me] else old(owners)
      ensures limiter == null ==> v.Granted?
    {
      if limiter == null {
        return Granted;
      }
      var now := clock.Read();
      v := limiter.Attempt(now);
      if v.Granted? {
        owners := owners + [me];
      }
    }

    /** Any number of steps of callers other than `me`. */
    method Interleave(ghost me: nat)
      requires Valid()
      modifies this, limiter, clock
      ensures Valid() && old(clock.now) <= clock.now && Extends(old(Recorded()), Recorded())
    {
      var steps: nat := *;
      while steps > 0
        invariant Valid() && old(clock.now) <= clock.now && Extends(old(Recorded()), Recorded())
      {
        OtherStep(me);
        steps := steps - 1;
      }
    }

    method OtherStep(ghost me: nat)
      requires Valid()
      modifies this, limiter, clock
      ensures Valid() && old(clock.now) <= clock.now && Extends(old(Recorded()), Recorded())
    {
      ghost var other: nat := *;
      if other == me || other >= calls {
        other := BeginCall();
      }
      var seconds: real := *;
      var block: bool := *;
      if block {
        SetBlocked(seconds);
      } else {
        var v := AttemptSlot(other);
      }
      clock.Drift();
    }

    /** Sleep while other callers go on: they run before the deadline and after it. */
    method SleepAmong(seconds: real, ghost me: nat)
      requires Valid()
      modifies this, limiter, clock
      ensures Valid() && Extends(old(Recorded()), Recorded())
      ensures old(clock.now) <= clock.now && old(clock.now) + seconds <= clock.now
    {
      var now := clock.Read();
      var deadline := now + seconds;
      Interleave(me);
      now := clock.Read();
      clock.Sleep(deadline - now);
      Interleave(me);
    }

    /** The shared `acquire`: with competitors it may be refused again and again, so it is
        observed for `patience` passes; ok says whether a slot was obtained by then. */
    method AcquireProactiveSlot(patience: nat, ghost me: nat) returns (ok: bool, ghost slot: nat)
      requires Valid()
      modifies this, limiter, clock
      ensures Valid() && old(clock.now) <= clock.now && Extends(old(Recorded()), Recorded())
      ensures ok && limiter != null ==> |old(History())| <= slot < |History()| && History()[slot] == clock.now
      ensures ok ==> Holds(me, slot)
    {
      ok, slot := false, 0;
      var left := patience;
      while left > 0
        invariant Valid() && old(clock.now) <= clock.now && Extends(old(Recorded()), Recorded())
      {
        slot := |History()|;
        var v := AttemptSlot(me);
        if v.Granted? {
          return true, slot;
        }
        SleepAmong(v.wait, me);
        left := left - 1;
      }
    }

    /** Checks the reactive block once, then takes a proactive slot. */
    method WaitIfBlocked(patience: nat, ghost me: nat) returns (ok: bool, waited: bool, ghost slot: nat)
      requires Valid()
      modifies this, limiter, clock
      ensures Valid() && old(clock.now) <= clock.now && Extends(old(Recorded()), Recorded())
      ensures ok && limiter != null ==> |old(History())| <= slot < |History()| && History()[slot] == clock.now
      ensures ok ==> Holds(me, slot)
      ensures old(clock.now) < old(blockedUntil) && !waited ==> old(blockedUntil) <= clock.now
      ensures ok && waited ==> old(blockedUntil) <= clock.now
    {
      waited := false;
      var now := clock.Read();
      if now < blockedUntil {
        SleepAmong(blockedUntil - now, me);
        waited := true;
      }
      ok, slot := AcquireProactiveSlot(patience, me);
    }

    /** random.uniform(0, jitter) */
    method Uniform(jitter: real) returns (x: real)
      ensures if jitter >= 0.0 then 0.0 <= x <= jitter else jitter <= x <= 0.0
    {
      x := *;
      if !(if jitter >= 0.0 then 0.0 <= x <= jitter else jitter <= x <= 0.0) {
        x := 0.0;
      }
    }

    /** Block the limiter for everybody, then sleep as long. */
    method BackOff(delay: real, ghost me: nat)
      requires Valid()
      modifies this, limiter, clock
      ensures Valid() && Extends(old(Recorded()), Recorded())
      ensures old(clock.now) <= clock.now && old(clock.now) + delay <= clock.now
      ensures BlockSet(old(blocks), blocks, old(clock.now) + delay)
    {
      SetBlocked(delay);
      ghost var mine, blocked := |blocks| - 1, blocks;
      SleepAmong(delay, me);
      assert blocks[mine] == blocked[mine];
    }

    /** The call of the wrapped function takes a while, and others go on. */
    method CallOut(ghost me: nat) returns (result: Outcome)
      requires Valid()
      modifies this, limiter, clock
      ensures Valid() && old(clock.now) <= clock.now && Extends(old(Recorded()), Recorded())
    {
      clock.Drift();
      Interleave(me);
      result := *;
    }

    /** Call, and on a retryable failure back off. */
    method CallAndBackOff(p: Policy, attempt: nat, backsOff: bool, ghost me: nat)
      returns (result: Outcome, ghost ended: real, delay: real)
      requires Valid()
      modifies this, limiter, clock
      ensures Valid() && Extends(old(Recorded()), Recorded())
      ensures old(clock.now) <= ended <= clock.now
      ensures backsOff && Retryable(result) ==>
                && IsBackoff(p, attempt, delay) && ended + delay <= clock.now
                && BlockSet(old(blocks), blocks, ended + delay)
    {
      result := CallOut(me);
      ended := clock.now;
      delay := 0.0;
      if Retryable(result) && backsOff {
        var extra := Uniform(p.jitter);
        delay := BaseBackoff(p, attempt) + extra;
        BackOff(delay, me);
      }
    }

    /** One turn of the retry loop: wait, call, and on a retryable failure back off. The
        outcome of the external call is arbitrary. */
    method TryOnce(p: Policy, attempt: nat, patience: nat, backsOff: bool, ghost me: nat)
        returns (outcome: Option<Outcome>, ghost t: Try)
      requires Valid()
      modifies this, limiter, clock
      ensures Valid() && Extends(old(Recorded()), Recorded())
      ensures outcome.Some? ==>
                && outcome.value == t.outcome && old(clock.now) <= t.start <= t.ended
                && (limiter != null ==> |old(History())| <= t.slot < |History()| && History()[t.slot] == t.start)
                && Holds(me, t.slot)
                && (backsOff && Retryable(t.outcome) ==>
                      && IsBackoff(p, attempt, t.delay)
                      && t.ended <= clock.now && t.ended + t.delay <= clock.now
                      && BlockSet(old(blocks), blocks, t.ended + t.delay))
    {
      var ok, waited, slot := WaitIfBlocked(patience, me);
      if !ok {
        return None, Try(0.0, 0, 0.0, Ok(0), 0.0);
      }
      ghost var start, granted := clock.now, Recorded();
      var result, delay;
      ghost var ended;
      result, ended, delay := CallAndBackOff(p, attempt, backsOff, me);
      assert Extends(granted, Recorded());
      return Some(result), Try(start, slot, ended, result, delay);
    }

    /** TryOnce, recorded after the earlier tries of the same call. */
    method NextTry(p: Policy, attempt: nat, patience: nat, backsOff: bool,
                   ghost tries: seq<Try>, ghost first: nat, ghost me: nat)
      returns (outcome: Option<Outcome>, ghost tries': seq<Try>)
      requires Valid() && attempt == |tries| && first <= |History()|
      requires Progress(p, tries, limiter != null, first, History(), clock.now)
      requires limiter != null ==> OwnedBy(tries, me, owners)
      modifies this, limiter, clock
      ensures Valid() && Extends(old(Recorded()), Recorded())
      ensures Paced(p, tries') && (limiter != null ==> Slotted(tries', first, History()) && OwnedBy(tries', me, owners))
      ensures outcome.None? ==> tries' == tries
      ensures outcome.Some? ==> |tries'| == |tries| + 1 && tries'[|tries|].outcome == outcome.value
      ensures outcome.Some? && backsOff && Retryable(outcome.value) ==> ReadyAt(p, tries', clock.now)
    {
      ghost var before, start, owned := History(), clock.now, owners;
      ghost var t;
      outcome, t := TryOnce(p, attempt, patience, backsOff, me);
      tries' := tries;
      assert limiter != null ==> OwnedBy(tries, me, owners) by {
        assert owned <= owners;
      }
      if outcome.Some? {
        TryRecorded(p, tries, t, limiter != null, first, before, History(), start);
        tries' := tries + [t];
      }
    }

    /** The retry loop around an external call. */
    method ExecuteWithRetry(p: Policy, maxRetries: int, patience: nat)
      returns (r: RunResult, ghost tries: seq<Try>, ghost me: nat)
      requires Valid()
      modifies this, limiter, clock
      ensures Valid() && Extends(old(Recorded()), Recorded()) && me == old(calls) < calls
      ensures |tries| <= if maxRetries < 0 then 0 else 1 + maxRetries
      ensures Paced(p, tries) && Decides(tries, maxRetries, r)
      ensures limiter != null ==> Slotted(tries, |old(History())|, History()) && OwnedBy(tries, me, owners)
    {
      tries := [];
      ghost var first := |History()|;
      me := BeginCall();
      var attempt := 0;
      while attempt < 1 + maxRetries
        invariant 0 <= attempt == |tries| && (attempt > 0 ==> attempt <= maxRetries)
        invariant Valid() && Extends(old(Recorded()), Recorded()) && me < calls
        invariant Progress(p, tries, limiter != null, first, History(), clock.now)
        invariant limiter != null ==> OwnedBy(tries, me, owners)
        decreases 1 + maxRetries - attempt
      {
        var outcome;
        outcome, tries := NextTry(p, attempt, patience, attempt < maxRetries, tries, first, me);
        if outcome.None? {
          return StillWaiting, tries, me;
        }
        var settled := Settled(outcome.value, attempt >= maxRetries);
        if settled.Some? {
          return settled.value, tries, me;
        }
        attempt := attempt + 1;
      }
      r := NeverAttempted;
    }
  }
}
