/**
 * The client's rate limiter: it keeps successive requests at least
 * `minInterval` apart by sleeping before each one.
 *
 * Time is an abstract clock counting nanoseconds since Go's zero time
 * (January 1, year 1, UTC), so the zero value of `lastRequestTime` is 0.
 * Durations are Go's `time.Duration`, a signed 64-bit nanosecond count.
 */
module RateLimit {

  const Second: int := 1_000_000_000
  /** The default spacing, half a second: two requests per second. */
  const MinInterval: int := Second / 2
  const MaxDuration: int := 0x7FFF_FFFF_FFFF_FFFF
  const MinDuration: int := -0x8000_0000_0000_0000

  /** Time.Sub: the duration t - u, saturated to the range of a Duration. */
  function Sub(t: int, u: int): (d: int)
    ensures MinDuration <= d <= MaxDuration
    ensures MinDuration <= t - u <= MaxDuration ==> d == t - u
    ensures t - u > MaxDuration ==> d == MaxDuration
    ensures t - u < MinDuration ==> d == MinDuration
  {
    if t - u > MaxDuration then MaxDuration
    else if t - u < MinDuration then MinDuration
    else t - u
  }

  /** The process's clock: time.Now reads it and time.Sleep advances it. */
  class Clock {
    var now: int

    constructor (start: int)
      ensures now == start
    {
      now := start;
    }

    /** time.Now */
    method Now() returns (t: int)
      ensures t == now
    {
      t := now;
    }

    /** time.Sleep: a duration that is not positive returns at once. */
    method Sleep(d: int)
      modifies this
      ensures now == old(now) + (if d > 0 then d else 0)
    {
      if d > 0 {
        now := now + d;
      }
    }
  }

  /** How long Wait sleeps when entered at `now` with the last stamp `last`. */
  function SleepFor(minInterval: int, last: int, now: int): (d: int)
    ensures 0 <= minInterval && last <= now ==> 0 <= d <= minInterval
    ensures last <= now && minInterval <= MaxDuration ==> (d > 0 <==> now - last < minInterval)
    ensures d > 0 && last <= now && minInterval <= MaxDuration ==> now + d == last + minInterval
  {
    var elapsed := Sub(now, last);
    if elapsed < minInterval then minInterval - elapsed else 0
  }

  /** The stamp Wait records: the clock reading after its sleep. */
  function NextStamp(minInterval: int, last: int, now: int): (t: int)
    ensures 0 <= minInterval <= MaxDuration && last <= now ==>
      t == if now < last + minInterval then last + minInterval else now
  {
    var d := SleepFor(minInterval, last, now);
    now + (if d > 0 then d else 0)
  }

  class RateLimiter {
    var minInterval: int
    var lastRequestTime: int

    /** NewRateLimiter: two requests per second, and no request yet. */
    constructor NewRateLimiter()
      ensures minInterval == MinInterval && lastRequestTime == 0
    {
      minInterval := MinInterval;
      lastRequestTime := 0;
    }

    /** Wait: sleep out what is left of minInterval since the last stamp, then stamp. */
    method Wait(clock: Clock)
      modifies this, clock
      ensures minInterval == old(minInterval)
      ensures clock.now == old(clock.now) + SleepFor(old(minInterval), old(lastRequestTime), old(clock.now))
      ensures lastRequestTime == clock.now
      ensures lastRequestTime == NextStamp(old(minInterval), old(lastRequestTime), old(clock.now))
      ensures 0 <= minInterval <= MaxDuration && old(lastRequestTime) <= old(clock.now) ==>
        lastRequestTime >= old(lastRequestTime) + minInterval && lastRequestTime >= old(clock.now)
    {
      var now := clock.Now();
      var elapsed := Sub(now, lastRequestTime);
      if elapsed < minInterval {
        clock.Sleep(minInterval - elapsed);
      }
      lastRequestTime := clock.Now();
    }
  }

  /** A fresh limiter never sleeps on its first Wait: any reading of a real clock
      lies more than half a second after Go's zero time. */
  lemma FirstWaitDoesNotSleep(now: int)
    requires now >= MinInterval
    ensures SleepFor(MinInterval, 0, now) == 0
    ensures NextStamp(MinInterval, 0, now) == now
  {
  }

  /**
   * The stamps of successive Waits on one limiter, entered `gaps[k]` after the
   * previous Wait returned (the first `gaps[0]` after `now`).
   */
  function Stamps(minInterval: int, last: int, now: int, gaps: seq<nat>): (s: seq<int>)
    ensures |s| == |gaps|
    decreases |gaps|
  {
    if gaps == [] then []
    else
      var t := NextStamp(minInterval, last, now + gaps[0]);
      [t] + Stamps(minInterval, t, t, gaps[1..])
  }

  /** The k-th stamp lies at least (k + 1) intervals after the starting stamp. */
  lemma {:induction false} StampsAfterStart(minInterval: int, last: int, now: int, gaps: seq<nat>, k: nat)
    requires 0 <= minInterval <= MaxDuration && last <= now
    requires k < |gaps|
    decreases k
    ensures Stamps(minInterval, last, now, gaps)[k] >= last + (k + 1) * minInterval
  {
    var t := NextStamp(minInterval, last, now + gaps[0]);
    if k > 0 {
      StampsAfterStart(minInterval, t, t, gaps[1..], k - 1);
      assert (k + 1) * minInterval == k * minInterval + minInterval;
    }
  }

  /** Stamps i < j are at least (j - i) intervals apart: any two are at least
      minInterval apart, and N stamps span at least (N - 1) intervals. */
  lemma {:induction false} StampsSpaced(minInterval: int, last: int, now: int, gaps: seq<nat>, i: nat, j: nat)
    requires 0 <= minInterval <= MaxDuration && last <= now
    requires i < j < |gaps|
    decreases i
    ensures var s := Stamps(minInterval, last, now, gaps);
      s[j] - s[i] >= (j - i) * minInterval && s[j] - s[i] >= minInterval
  {
    var s := Stamps(minInterval, last, now, gaps);
    var t := NextStamp(minInterval, last, now + gaps[0]);
    var rest := Stamps(minInterval, t, t, gaps[1..]);
    assert s == [t] + rest;
    if i == 0 {
      StampsAfterStart(minInterval, t, t, gaps[1..], j - 1);
      assert s[j] == rest[j - 1] && s[i] == t;
    } else {
      StampsSpaced(minInterval, t, t, gaps[1..], i - 1, j - 1);
      assert s[j] == rest[j - 1] && s[i] == rest[i - 1];
    }
    AtLeastOnce(j - i, minInterval);
  }

  lemma AtLeastOnce(n: int, m: int)
    requires n >= 1 && m >= 0
    ensures n * m >= m
  {
    assert n * m == (n - 1) * m + m;
  }
}
