/** The sliding-window rate limiter (`RateLimterService`). The clock is the
    parameter `now`, and the blocking `sleep` becomes the returned wait, in
    seconds, that the caller would sleep before sending. */
module RateLimiter {

  const DefaultLimit: int := 950
  const DefaultInterval: int := 300

  /** The request quota per window, the window length in seconds, and the
      timestamps of the requests counted as recent, oldest first. */
  datatype Limiter = Limiter(limit: int, interval: int, requests: seq<int>)

  /** The result of one `checkLimit`: the new state and the wait before sending. */
  datatype Outcome = Outcome(limiter: Limiter, wait: nat)

  /** The constructor. Its defaults (950, 300) are what a limiter built without
      arguments gets; the property initialisers are always overwritten. */
  function New(limit: int := DefaultLimit, interval: int := DefaultInterval): (l: Limiter)
    ensures l.limit == limit && l.interval == interval
    ensures |l.requests| == 0
  {
    Limiter(limit, interval, [])
  }

  /** `a` is `b` with some elements left out and the rest in their order. */
  predicate IsSubsequence(a: seq<int>, b: seq<int>)
    decreases |b|
  {
    |a| == 0 || (|b| > 0 && ((a[0] == b[0] && IsSubsequence(a[1..], b[1..])) || IsSubsequence(a, b[1..])))
  }

  /** `cleanupList`: `array_filter` keeping the timestamps at or after `cutoff`. */
  function Prune(s: seq<int>, cutoff: int): (r: seq<int>)
    ensures |r| <= |s|
    ensures forall i :: 0 <= i < |r| ==> r[i] >= cutoff
    ensures IsSubsequence(r, s)
    ensures forall x :: multiset(r)[x] == if x >= cutoff then multiset(s)[x] else 0
  {
    if |s| == 0 then []
    else
      var rest := Prune(s[1..], cutoff);
      assert s == [s[0]] + s[1..];
      if s[0] >= cutoff then
        assert ([s[0]] + rest)[1..] == rest;
        [s[0]] + rest
      else rest
  }

  /** PHP's `min` of a non-empty array. */
  function Min(s: seq<int>): (m: int)
    requires |s| > 0
    ensures m in s
    ensures forall i :: 0 <= i < |s| ==> m <= s[i]
  {
    if |s| == 1 then s[0]
    else
      var t := Min(s[1..]);
      if s[0] <= t then s[0] else t
  }

  /** `checkLimit` at time `now`: prune the window, record `now`, and when the
      window then holds more than `limit` requests wait until the oldest one
      reaches the edge of the window (the cutoff then equals it, and `>=`
      still keeps it). It has no failure outcome. */
  function CheckLimit(l: Limiter, now: int): (o: Outcome)
    ensures o.limiter.limit == l.limit && o.limiter.interval == l.interval
    ensures o.limiter.requests == Prune(l.requests, now - l.interval) + [now]
    ensures |o.limiter.requests| >= 1 && o.limiter.requests[|o.limiter.requests| - 1] == now
    ensures forall i :: 0 <= i < |o.limiter.requests| - 1 ==> o.limiter.requests[i] >= now - l.interval
    ensures l.interval >= 0 ==> forall t :: t in o.limiter.requests ==> t >= now - l.interval
    ensures IsSubsequence(o.limiter.requests[..|o.limiter.requests| - 1], l.requests)
    ensures |o.limiter.requests| <= |l.requests| + 1
    ensures o.wait > 0 ==> |o.limiter.requests| > l.limit
    ensures |o.limiter.requests| > l.limit ==>
      var raw := l.interval - (now - Min(o.limiter.requests));
      (o.wait > 0 <==> raw > 0) && (o.wait > 0 ==> o.wait == raw)
    ensures o.wait > 0 ==> o.wait <= l.interval
    ensures o.wait > 0 ==> now + o.wait - l.interval == Min(o.limiter.requests)
  {
    var window := Prune(l.requests, now - l.interval) + [now];
    assert window[..|window| - 1] == Prune(l.requests, now - l.interval);
    var wait: nat :=
      if |window| > l.limit then
        var raw := l.interval - (now - Min(window));
        if raw <= 0 then 0 else raw
      else 0;
    Outcome(l.(requests := window), wait)
  }

  /** With fewer than `limit` requests still inside the window beforehand, the
      call does not wait, however many expired ones were stored. */
  lemma NoWaitBelowLimit(l: Limiter, now: int)
    requires |Prune(l.requests, now - l.interval)| < l.limit
    ensures CheckLimit(l, now).wait == 0
  {
  }

  /** A call waits exactly when `limit` requests or more are still inside the
      window and the oldest of them has not yet reached its edge. */
  lemma WaitsExactlyWhenFull(l: Limiter, now: int)
    ensures var kept := Prune(l.requests, now - l.interval);
      CheckLimit(l, now).wait > 0
      <==> |kept| >= l.limit && Min(kept + [now]) > now - l.interval
  {
  }

  /** After pruning the wait before clamping is never negative and never more than the window length. */
  lemma RawWaitBounds(l: Limiter, now: int)
    requires l.interval >= 0
    ensures var w := CheckLimit(l, now).limiter.requests;
      0 <= l.interval - (now - Min(w)) <= l.interval
  {
    var w := CheckLimit(l, now).limiter.requests;
    assert Min(w) >= now - l.interval;
    assert Min(w) <= w[|w| - 1] == now;
  }

  /** `checkLimit` called at each of `times` in turn: the final state and the waits. */
  function Run(l: Limiter, times: seq<int>): (r: (Limiter, seq<nat>))
    ensures |r.1| == |times|
    decreases |times|
  {
    if |times| == 0 then (l, [])
    else
      var o := CheckLimit(l, times[0]);
      var rest := Run(o.limiter, times[1..]);
      (rest.0, [o.wait] + rest.1)
  }

  /** While the recorded requests plus the new ones stay within the limit, no call waits. */
  lemma {:induction false} NoWaitWithinLimit(l: Limiter, times: seq<int>)
    requires |l.requests| + |times| <= l.limit
    ensures forall i :: 0 <= i < |times| ==> Run(l, times).1[i] == 0
    decreases |times|
  {
    if |times| > 0 {
      var o := CheckLimit(l, times[0]);
      NoWaitWithinLimit(o.limiter, times[1..]);
      var rest := Run(o.limiter, times[1..]);
      assert Run(l, times).1 == [o.wait] + rest.1;
    }
  }

  /** With a limit of 3, the first three calls never wait, whatever their times. */
  lemma ExampleFirstThreeCallsPass(times: seq<int>)
    requires |times| == 3
    ensures Run(New(3, 60), times).1 == [0, 0, 0]
  {
    NoWaitWithinLimit(New(3, 60), times);
  }

  /** With a limit of 3 and a 60-second window, after calls at 0, 10 and 20 the
      call at 30 waits 30 seconds, until the call at 0 is 60 seconds old. */
  lemma ExampleFourthCallWaits()
    ensures CheckLimit(Limiter(3, 60, [0, 10, 20]), 30) == Outcome(Limiter(3, 60, [0, 10, 20, 30]), 30)
  {
  }
}
