/** The strict sliding-window limiter of core/rate_limit.py.

    The specification is stated over the unbounded history of grants; the class keeps only
    the trimmed deque. Callers are anonymous to the limiter, so an interleaving of any number
    of callers is one non-decreasing sequence of clock readings. */
module SlidingWindow {
  import opened Base
  import opened Time

  datatype Verdict = Granted | Refused(wait: real)

  ghost predicate Sorted(h: seq<real>) {
    forall i, j :: 0 <= i <= j < |h| ==> h[i] <= h[j]
  }

  ghost predicate NoneAfter(h: seq<real>, t: real) {
    forall i :: 0 <= i < |h| ==> h[i] <= t
  }

  /** Any limit + 1 consecutive grants span at least one whole window. */
  ghost predicate Spaced(limit: int, span: real, h: seq<real>)
    requires limit > 0
  {
    forall i, j :: 0 <= i < j < |h| && j == i + limit ==> h[j] - h[i] >= span
  }

  /** How many grants fell into the half-open interval (lo, hi]. */
  function CountIn(h: seq<real>, lo: real, hi: real): nat {
    if h == [] then 0
    else CountIn(h[..|h| - 1], lo, hi) + if lo < h[|h| - 1] <= hi then 1 else 0
  }

  /** How many grants fell into the closed interval [lo, hi]. */
  function CountClosed(h: seq<real>, lo: real, hi: real): nat {
    if h == [] then 0
    else CountClosed(h[..|h| - 1], lo, hi) + if lo <= h[|h| - 1] <= hi then 1 else 0
  }

  /** Position of the first grant later than t, or |h|. */
  function FirstAfter(h: seq<real>, t: real): (k: nat)
    ensures k <= |h|
    ensures k < |h| ==> h[k] > t
    ensures forall i :: 0 <= i < k ==> h[i] <= t
  {
    if h == [] then 0
    else
      var k := FirstAfter(h[..|h| - 1], t);
      if k < |h| - 1 then k else if h[|h| - 1] > t then |h| - 1 else |h|
  }

  /** The rule the limiter promises, read off the whole history: grant iff fewer than `limit`
      grants lie in (now - span, now], otherwise wait until the oldest of them leaves. */
  function NaiveVerdict(limit: int, span: real, h: seq<real>, now: real): Verdict {
    var k := FirstAfter(h, now - span);
    if CountIn(h, now - span, now) < limit || k == |h| then Granted
    else Refused(h[k] + span - now)
  }

  /** The grants made by a run whose attempts read the clock at `readings`. */
  function Grants(limit: int, span: real, readings: seq<real>): seq<real> {
    if readings == [] then []
    else
      var h := Grants(limit, span, readings[..|readings| - 1]);
      var now := readings[|readings| - 1];
      if NaiveVerdict(limit, span, h, now).Granted? then h + [now] else h
  }

  lemma {:induction false} CountSplit(h: seq<real>, k: nat, m: nat, lo: real, hi: real)
    requires k <= m <= |h|
    requires forall i :: 0 <= i < k ==> h[i] <= lo
    requires forall i :: k <= i < m ==> lo < h[i] <= hi
    requires forall i :: m <= i < |h| ==> hi < h[i]
    ensures CountIn(h, lo, hi) == m - k
  {
    if h != [] {
      var h' := h[..|h| - 1];
      CountSplit(h', if k < |h| then k else k - 1, if m < |h| then m else m - 1, lo, hi);
    }
  }

  /** On a sorted history a count is a difference of positions. */
  lemma CountBetween(h: seq<real>, lo: real, hi: real)
    requires Sorted(h) && lo <= hi
    ensures CountIn(h, lo, hi) == FirstAfter(h, hi) - FirstAfter(h, lo)
  {
    var k, m := FirstAfter(h, lo), FirstAfter(h, hi);
    CountSplit(h, k, m, lo, hi);
  }

  /** Every half-open window of one span holds at most `limit` grants. */
  lemma WindowBound(limit: int, span: real, h: seq<real>, start: real)
    requires limit > 0 && span > 0.0 && Sorted(h) && Spaced(limit, span, h)
    ensures CountIn(h, start, start + span) <= limit
  {
    CountBetween(h, start, start + span);
    var k := FirstAfter(h, start);
    if k + limit < |h| {
      assert h[k + limit] - h[k] >= span;
    }
  }

  /** The rule is exactly as strict as it must be: it grants iff granting keeps the history
      spaced. So it never over-grants, and never refuses an attempt it could afford. */
  lemma GrantIffSafe(limit: int, span: real, h: seq<real>, now: real)
    requires limit > 0 && span > 0.0
    requires Sorted(h) && NoneAfter(h, now) && Spaced(limit, span, h)
    ensures NaiveVerdict(limit, span, h, now).Granted? <==> Spaced(limit, span, h + [now])
  {
    CountBetween(h, now - span, now);
    var k := FirstAfter(h, now - span);
    assert FirstAfter(h, now) == |h|;
    var h' := h + [now];
    if |h| - k >= limit {
      var i := |h| - limit;
      assert h'[i + limit] == now && h'[i] == h[i];
      assert h[k] <= h[i];
      assert !Spaced(limit, span, h');
    } else {
      forall i | 0 <= i < |h'| - limit
        ensures h'[i + limit] - h'[i] >= span
      {
        if i + limit < |h| {
          assert h'[i + limit] == h[i + limit];
        } else {
          assert h'[i] == h[i] && i < k;
        }
      }
    }
  }

  /** A refusal's wait is positive, at most one span, and exact: every attempt before it has
      passed is refused too, and the first attempt after it is granted unless somebody else
      was granted in between. */
  lemma RefusalExact(limit: int, span: real, h: seq<real>, now: real)
    requires limit > 0 && span > 0.0
    requires Sorted(h) && NoneAfter(h, now) && Spaced(limit, span, h)
    requires NaiveVerdict(limit, span, h, now).Refused?
    ensures var wait := NaiveVerdict(limit, span, h, now).wait;
            && 0.0 < wait <= span
            && (forall t :: now <= t < now + wait ==> NaiveVerdict(limit, span, h, t).Refused?)
            && (forall t :: now + wait <= t ==> NaiveVerdict(limit, span, h, t).Granted?)
  {
    var k := FirstAfter(h, now - span);
    var wait := h[k] + span - now;
    VerdictByPosition(limit, span, h, now);
    assert k == |h| - limit by {
      WindowBound(limit, span, h, now - span);
      CountBetween(h, now - span, now);
      assert FirstAfter(h, now) == |h|;
    }
    forall t | now <= t
      ensures t < now + wait ==> NaiveVerdict(limit, span, h, t).Refused?
      ensures now + wait <= t ==> NaiveVerdict(limit, span, h, t).Granted?
    {
      VerdictByPosition(limit, span, h, t);
      if t < now + wait {
        assert h[k] > t - span;
      } else {
        assert h[k] <= t - span;
      }
    }
  }

  /** With no grant in the future, the verdict depends on how many grants are still live. */
  lemma VerdictByPosition(limit: int, span: real, h: seq<real>, now: real)
    requires limit > 0 && span > 0.0 && Sorted(h) && NoneAfter(h, now)
    ensures NaiveVerdict(limit, span, h, now).Refused? <==> |h| - FirstAfter(h, now - span) >= limit
  {
    CountBetween(h, now - span, now);
    assert FirstAfter(h, now) == |h|;
  }

  /** Over every run: the grants are sorted readings and any limit + 1 of them span a window. */
  lemma {:induction false} RunsAreSpaced(limit: int, span: real, readings: seq<real>)
    requires limit > 0 && span > 0.0 && Sorted(readings)
    ensures var h := Grants(limit, span, readings);
            && Sorted(h) && Spaced(limit, span, h)
            && (readings != [] ==> NoneAfter(h, readings[|readings| - 1]))
  {
    if readings != [] {
      var prefix, now := readings[..|readings| - 1], readings[|readings| - 1];
      RunsAreSpaced(limit, span, prefix);
      var h := Grants(limit, span, prefix);
      assert NoneAfter(h, now) by {
        if prefix != [] {
          assert prefix[|prefix| - 1] <= now;
        }
      }
      GrantIffSafe(limit, span, h, now);
    }
  }

  /** The documented guarantee, for all runs and all half-open windows. */
  lemma RunsRespectEveryWindow(limit: int, span: real, readings: seq<real>, start: real)
    requires limit > 0 && span > 0.0 && Sorted(readings)
    ensures CountIn(Grants(limit, span, readings), start, start + span) <= limit
  {
    RunsAreSpaced(limit, span, readings);
    WindowBound(limit, span, Grants(limit, span, readings), start);
  }

  // The class comment promises the bound for "any interval". For closed intervals that
  // fails, because a grant exactly one span old is evicted.

  ghost predicate StrictlySpaced(limit: int, span: real, h: seq<real>)
    requires limit > 0
  {
    forall i, j :: 0 <= i < j < |h| && j == i + limit ==> h[j] - h[i] > span
  }

  lemma ClosedWindowsCanOverflow()
    ensures CountClosed(Grants(1, 1.0, [0.0, 1.0]), 0.0, 1.0) == 2
  {
    var first: seq<real> := [0.0];
    assert [0.0, 1.0][..1] == first && first[..0] == [];
    assert FirstAfter([], -1.0) == 0;
    assert Grants(1, 1.0, []) == [];
    assert Grants(1, 1.0, first) == first;
    assert CountIn(first, 0.0, 1.0) == 0;
    var both: seq<real> := [0.0, 1.0];
    assert Grants(1, 1.0, both) == both;
    assert both[..1] == first;
    assert CountClosed(first, 0.0, 1.0) == 1;
  }

  lemma {:induction false} ClosedSplit(h: seq<real>, k: nat, m: nat, lo: real, hi: real)
    requires k <= m <= |h|
    requires forall i :: 0 <= i < k ==> h[i] < lo
    requires forall i :: k <= i < m ==> lo <= h[i] <= hi
    requires forall i :: m <= i < |h| ==> hi < h[i]
    ensures CountClosed(h, lo, hi) == m - k
  {
    if h != [] {
      var h' := h[..|h| - 1];
      ClosedSplit(h', if k < |h| then k else k - 1, if m < |h| then m else m - 1, lo, hi);
    }
  }

  function FirstAtOrAfter(h: seq<real>, t: real): (k: nat)
    ensures k <= |h|
    ensures k < |h| ==> h[k] >= t
    ensures forall i :: 0 <= i < k ==> h[i] < t
  {
    if h == [] then 0
    else
      var k := FirstAtOrAfter(h[..|h| - 1], t);
      if k < |h| - 1 then k else if h[|h| - 1] >= t then |h| - 1 else |h|
  }

  lemma CountClosedBetween(h: seq<real>, lo: real, hi: real)
    requires Sorted(h) && lo <= hi
    ensures CountClosed(h, lo, hi) == FirstAfter(h, hi) - FirstAtOrAfter(h, lo)
  {
    var k, m := FirstAtOrAfter(h, lo), FirstAfter(h, hi);
    ClosedSplit(h, k, m, lo, hi);
  }

  ghost predicate ClosedBound(limit: int, span: real, h: seq<real>) {
    forall lo, hi :: hi == lo + span ==> CountClosed(h, lo, hi) <= limit
  }

  /** Closed windows obey the bound iff no grant came exactly one span after the grant
      `limit` places before it. */
  lemma ClosedWindowsIff(limit: int, span: real, h: seq<real>)
    requires limit > 0 && span > 0.0 && Sorted(h) && Spaced(limit, span, h)
    ensures ClosedBound(limit, span, h) <==> StrictlySpaced(limit, span, h)
  {
    if StrictlySpaced(limit, span, h) {
      forall lo, hi | hi == lo + span
        ensures CountClosed(h, lo, hi) <= limit
      {
        ApartGrantsFit(limit, span, h, lo);
      }
    } else {
      var i :| 0 <= i < |h| - limit && h[i + limit] - h[i] <= span;
      CloseGrantsOverflow(limit, span, h, i);
    }
  }

  lemma ApartGrantsFit(limit: int, span: real, h: seq<real>, lo: real)
    requires limit > 0 && span > 0.0 && Sorted(h) && StrictlySpaced(limit, span, h)
    ensures CountClosed(h, lo, lo + span) <= limit
  {
    CountClosedBetween(h, lo, lo + span);
    var k := FirstAtOrAfter(h, lo);
    if k + limit < |h| {
      assert h[k + limit] - h[k] > span;
    }
  }

  lemma CloseGrantsOverflow(limit: int, span: real, h: seq<real>, i: nat)
    requires limit > 0 && span > 0.0 && Sorted(h)
    requires i < |h| - limit && h[i + limit] - h[i] <= span
    ensures CountClosed(h, h[i], h[i] + span) > limit
  {
    CountClosedBetween(h, h[i], h[i] + span);
    assert FirstAtOrAfter(h, h[i]) <= i;
    assert FirstAfter(h, h[i] + span) > i + limit;
  }

  /** The caller-visible condition: granting at `now` keeps the closed bound iff the grant
      `limit` places back is not exactly one span old. */
  lemma ClosedBoundKeptIff(limit: int, span: real, h: seq<real>, now: real)
    requires limit > 0 && span > 0.0
    requires Sorted(h) && NoneAfter(h, now) && StrictlySpaced(limit, span, h)
    requires NaiveVerdict(limit, span, h, now).Granted?
    ensures StrictlySpaced(limit, span, h + [now]) <==> !(|h| >= limit && h[|h| - limit] == now - span)
  {
    GrantIffSafe(limit, span, h, now);
    var h' := h + [now];
    if |h| >= limit {
      assert h'[|h| - limit + limit] == now && h'[|h| - limit] == h[|h| - limit];
    }
    forall i | 0 <= i < |h'| - limit && i != |h| - limit
      ensures h'[i + limit] - h'[i] > span
    {
      assert h'[i + limit] == h[i + limit] && h'[i] == h[i];
    }
  }

  /** `times` is the history with a prefix of grants no later than `bound` cut off. */
  ghost predicate Trimmed(times: seq<real>, h: seq<real>, bound: real) {
    && |times| <= |h|
    && times == h[|h| - |times|..]
    && (forall i :: 0 <= i < |h| - |times| ==> h[i] <= bound)
  }

  ghost predicate GoodHistory(limit: int, span: real, h: seq<real>, now: real)
    requires limit > 0
  {
    Sorted(h) && NoneAfter(h, now) && Spaced(limit, span, h)
  }

  /** A deque trimmed to the live grants gives the verdict of the whole history. */
  lemma TrimmedVerdict(limit: int, span: real, times: seq<real>, h: seq<real>, now: real)
    requires limit > 0 && span > 0.0 && GoodHistory(limit, span, h, now)
    requires Trimmed(times, h, now - span) && (times != [] ==> times[0] > now - span)
    ensures NaiveVerdict(limit, span, h, now)
         == if |times| < limit then Granted else Refused(times[0] + span - now)
    ensures |times| >= limit ==> times[0] + span - now > 0.0
  {
    var k := |h| - |times|;
    CountSplit(h, k, |h|, now - span, now);
  }

  lemma GrantExtends(limit: int, span: real, times: seq<real>, h: seq<real>, now: real)
    requires limit > 0 && span > 0.0 && GoodHistory(limit, span, h, now)
    requires Trimmed(times, h, now - span) && NaiveVerdict(limit, span, h, now).Granted?
    ensures GoodHistory(limit, span, h + [now], now)
    ensures Trimmed(times + [now], h + [now], now - span)
  {
    GrantIffSafe(limit, span, h, now);
    assert (h + [now])[|h| - |times|..] == times + [now];
  }

  lemma TimePasses(limit: int, span: real, times: seq<real>, h: seq<real>, before: real, now: real)
    requires limit > 0 && before <= now
    requires GoodHistory(limit, span, h, before) && Trimmed(times, h, before - span)
    ensures GoodHistory(limit, span, h, now) && Trimmed(times, h, now - span)
  {
  }

  class StrictSlidingWindowLimiter {
    const rateLimit: int
    const rateWindow: real
    var times: seq<real>
    ghost var granted: seq<real>
    ghost var lastReading: real

    /** The deque is the history with a prefix of expired grants cut off. */
    ghost predicate Valid()
      reads this
    {
      && rateLimit > 0 && rateWindow > 0.0
      && GoodHistory(rateLimit, rateWindow, granted, lastReading)
      && Trimmed(times, granted, lastReading - rateWindow)
    }

    constructor (limit: int, window: real)
      requires limit > 0 && window > 0.0
      ensures Valid() && rateLimit == limit && rateWindow == window && granted == []
      ensures lastReading == 0.0
    {
      rateLimit, rateWindow := limit, window;
      times, granted, lastReading := [], [], 0.0;
    }

    /** Construction with the argument checks of the original: ValueError becomes Failure. */
    static method Create(limit: int, window: real) returns (r: Result<StrictSlidingWindowLimiter, string>)
      ensures r.Failure? <==> limit <= 0 || window <= 0.0
      ensures r.Success? ==> fresh(r.value) && r.value.Valid() && r.value.granted == []
      ensures r.Success? ==> r.value.rateLimit == limit && r.value.rateWindow == window && r.value.lastReading == 0.0
    {
      if limit <= 0 {
        return Failure("rate_limit must be > 0");
      }
      if window <= 0.0 {
        return Failure("rate_window must be > 0");
      }
      var limiter := new StrictSlidingWindowLimiter(limit, window);
      return Success(limiter);
    }

    /** Drop expired grants from the front of the deque. */
    method Trim(cutoff: real)
      requires Trimmed(times, granted, cutoff)
      modifies this`times
      ensures Trimmed(times, granted, cutoff) && (times != [] ==> times[0] > cutoff)
    {
      while |times| > 0 && times[0] <= cutoff
        invariant Trimmed(times, granted, cutoff)
      {
        times := times[1..];
      }
    }

    method Expire(now: real)
      requires Valid() && lastReading <= now
      modifies this`times, this`lastReading
      ensures Valid() && lastReading == now && (times != [] ==> times[0] > now - rateWindow)
    {
      TimePasses(rateLimit, rateWindow, times, granted, lastReading, now);
      lastReading := now;
      Trim(now - rateWindow);
    }

    method Append(now: real)
      requires Valid() && lastReading == now && NaiveVerdict(rateLimit, rateWindow, granted, now).Granted?
      modifies this`times, this`granted
      ensures Valid() && granted == old(granted) + [now]
    {
      GrantExtends(rateLimit, rateWindow, times, granted, now);
      times := times + [now];
      granted := granted + [now];
    }

    /** One pass through the locked section: trim, then grant or compute the wait. The trimmed
        deque answers exactly what the whole history would. */
    method Attempt(now: real) returns (v: Verdict)
      requires Valid() && lastReading <= now
      modifies this
      ensures Valid() && lastReading == now
      ensures v == NaiveVerdict(rateLimit, rateWindow, old(granted), now)
      ensures granted == if v.Granted? then old(granted) + [now] else old(granted)
    {
      Expire(now);
      TrimmedVerdict(rateLimit, rateWindow, times, granted, now);
      if |times| < rateLimit {
        Append(now);
        return Granted;
      }
      var oldest := times[0];
      var wait := oldest + rateWindow - now;
      return Refused(if wait > 0.0 then wait else 0.0);
    }

    /** `acquire` for an owner that shares the limiter with nobody: it sleeps at most once,
        because the wait it was told is exact. */
    method AcquireAlone(clock: Clock) returns (start: real)
      requires Valid() && lastReading <= clock.now
      modifies this, clock
      ensures Valid() && lastReading == clock.now == start && old(clock.now) <= start
      ensures granted == old(granted) + [start]
    {
      var sleepsLeft := 1;
      start := clock.Read();
      var v := Attempt(start);
      while v.Refused?
        invariant Valid() && lastReading == clock.now == start && old(clock.now) <= start
        invariant 0 <= sleepsLeft
        invariant granted == if v.Granted? then old(granted) + [start] else old(granted)
        invariant v.Refused? ==> sleepsLeft > 0 && v == NaiveVerdict(rateLimit, rateWindow, granted, start)
        decreases sleepsLeft
      {
        RefusalExact(rateLimit, rateWindow, granted, start);
        clock.Sleep(v.wait);
        start := clock.Read();
        sleepsLeft := sleepsLeft - 1;
        v := Attempt(start);
      }
    }
  }
}
