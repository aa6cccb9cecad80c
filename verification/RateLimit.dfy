/** The token bucket, and what it lets through in any stretch of time. */
module RateLimit {
  /** `at` is the time of the last refill, in seconds. */
  datatype Bucket = Bucket(tokens: real, at: real)

  datatype Limits = Limits(perMinute: nat) {
    function Capacity(): real { perMinute as real }
    function Rate(): real { perMinute as real / 60.0 }
  }

  /** The tokens that come in over a time. */
  function Gain(limits: Limits, elapsed: real): real { elapsed * limits.Rate() }

  lemma GainAdds(limits: Limits, a: real, b: real)
    ensures Gain(limits, a + b) == Gain(limits, a) + Gain(limits, b)
    ensures a >= 0.0 ==> Gain(limits, a) >= 0.0
  {
    var rate := limits.Rate();
    assert rate >= 0.0;
    assert (a + b) * rate == a * rate + b * rate;
  }

  /** An earlier clock reading refills nothing, but is remembered. */
  function Refilled(limits: Limits, bucket: Bucket, now: real): Bucket {
    var elapsed := if now < bucket.at then 0.0 else now - bucket.at;
    var tokens := bucket.tokens + Gain(limits, elapsed);
    Bucket(if tokens < limits.Capacity() then tokens else limits.Capacity(), now)
  }

  datatype Request = Request(cost: nat, now: real)

  function Allows(limits: Limits, bucket: Bucket, request: Request): bool {
    request.cost == 0 || Refilled(limits, bucket, request.now).tokens >= request.cost as real
  }

  /** A refused request costs nothing, and a free one does not touch the bucket. */
  function After(limits: Limits, bucket: Bucket, request: Request): Bucket {
    if request.cost == 0 then bucket
    else
      var refilled := Refilled(limits, bucket, request.now);
      if refilled.tokens < request.cost as real then refilled
      else refilled.(tokens := refilled.tokens - request.cost as real)
  }

  /** A sixtieth of the tokens of a minute comes in each second, up to all of them; a clock that went back brings none. */
  function Topped(perMinute: nat, tokens: real, elapsed: real): real {
    var gained := if elapsed <= 0.0 then 0.0 else elapsed * (perMinute as real / 60.0);
    if tokens + gained > perMinute as real then perMinute as real else tokens + gained
  }

  lemma RefilledIsTopped(limits: Limits, bucket: Bucket, now: real)
    ensures Refilled(limits, bucket, now) == Bucket(Topped(limits.perMinute, bucket.tokens, now - bucket.at), now)
  {
  }

  lemma FullStaysFull(limits: Limits, now: real)
    ensures Refilled(limits, Bucket(limits.Capacity(), now), now).tokens == limits.perMinute as real
  {
  }

  class RateLimiter {
    const limits: Limits
    var buckets: map<string, Bucket>

    constructor (perMinute: nat)
      ensures limits == Limits(perMinute) && buckets == map[]
    {
      limits := Limits(perMinute);
      buckets := map[];
    }

    ghost predicate Valid()
      reads this
    {
      forall key :: key in buckets ==> 0.0 <= buckets[key].tokens <= limits.Capacity()
    }

    function BucketOf(key: string, now: real): Bucket
      reads this
    {
      if key in buckets then buckets[key] else Bucket(limits.Capacity(), now)
    }

    /** Other keys keep their buckets, and every bucket stays between empty and full. */
    method Allow(key: string, cost: nat, now: real) returns (allowed: bool)
      requires Valid()
      modifies `buckets
      ensures Valid()
      ensures allowed <==> Allows(limits, old(BucketOf(key, now)), Request(cost, now))
      ensures buckets == if cost == 0 then old(buckets)
                         else old(buckets)[key := After(limits, old(BucketOf(key, now)), Request(cost, now))]
      ensures cost == 0 ==> allowed
      ensures cost > 0 && key !in old(buckets) ==>
        && (allowed <==> cost <= limits.perMinute)
        && buckets[key] == Bucket(limits.perMinute as real - if allowed then cost as real else 0.0, now)
      ensures cost > 0 && key in old(buckets) ==>
        var tokens := Topped(limits.perMinute, old(buckets[key].tokens), now - old(buckets[key].at));
        && (allowed <==> cost as real <= tokens)
        && buckets[key] == Bucket(tokens - if allowed then cost as real else 0.0, now)
    {
      if cost == 0 { return true; }
      hide Gain, Topped;
      var bucket := BucketOf(key, now);
      RefilledIsTopped(limits, bucket, now);
      FullStaysFull(limits, now);
      var elapsed := if now < bucket.at then 0.0 else now - bucket.at;
      var tokens := bucket.tokens + Gain(limits, elapsed);
      StaysInside(limits, bucket, Request(cost, now));
      if limits.Capacity() <= tokens { tokens := limits.Capacity(); }
      if tokens < cost as real {
        buckets := buckets[key := Bucket(tokens, now)];
        return false;
      }
      buckets := buckets[key := Bucket(tokens - cost as real, now)];
      return true;
    }
  }

  lemma StaysInside(limits: Limits, bucket: Bucket, request: Request)
    requires 0.0 <= bucket.tokens <= limits.Capacity()
    ensures 0.0 <= Refilled(limits, bucket, request.now).tokens <= limits.Capacity()
    ensures 0.0 <= After(limits, bucket, request).tokens <= limits.Capacity()
  {
    hide Gain;
    var elapsed := if request.now < bucket.at then 0.0 else request.now - bucket.at;
    GainAdds(limits, elapsed, 0.0);
  }

  // ----- a run of requests for one key -----

  function RunFrom(limits: Limits, bucket: Bucket, requests: seq<Request>): Bucket
    decreases |requests|
  {
    if requests == [] then bucket else RunFrom(limits, After(limits, bucket, requests[0]), requests[1..])
  }

  /** The cost of what is let through. */
  function Spent(limits: Limits, bucket: Bucket, requests: seq<Request>): real
    decreases |requests|
  {
    if requests == [] then 0.0
    else
      (if Allows(limits, bucket, requests[0]) then requests[0].cost as real else 0.0)
      + Spent(limits, After(limits, bucket, requests[0]), requests[1..])
  }

  predicate InClockOrder(requests: seq<Request>) {
    forall i, j :: 0 <= i < j < |requests| ==> requests[i].now <= requests[j].now
  }

  /** What a run spends comes from the tokens it started with and the refill since. */
  lemma {:induction false} SpentIsPaidFor(limits: Limits, bucket: Bucket, requests: seq<Request>, end: real)
    requires 0.0 <= bucket.tokens <= limits.Capacity() && InClockOrder(requests) && bucket.at <= end
    requires forall i :: 0 <= i < |requests| ==> bucket.at <= requests[i].now <= end
    ensures Spent(limits, bucket, requests) <= bucket.tokens + Gain(limits, end - bucket.at)
    decreases |requests|
  {
    hide Gain;
    if requests == [] {
      GainAdds(limits, end - bucket.at, 0.0);
    } else {
      var next, now := After(limits, bucket, requests[0]), requests[0].now;
      StaysInside(limits, bucket, requests[0]);
      GainAdds(limits, now - bucket.at, end - now);
      assert now - bucket.at + (end - now) == end - bucket.at;
      SpentIsPaidFor(limits, next, requests[1..], end);
    }
  }

  lemma RunStaysInside(limits: Limits, bucket: Bucket, requests: seq<Request>)
    requires 0.0 <= bucket.tokens <= limits.Capacity()
    ensures 0.0 <= RunFrom(limits, bucket, requests).tokens <= limits.Capacity()
    decreases |requests|
  {
    if requests != [] {
      StaysInside(limits, bucket, requests[0]);
      RunStaysInside(limits, After(limits, bucket, requests[0]), requests[1..]);
    }
  }

  /**
   * In any interval, whatever came before it, the cost let through is at most one full bucket
   * and the refill over the length of the interval.
   */
  lemma WindowBound(limits: Limits, start: Bucket, before: seq<Request>, window: seq<Request>, from: real, to: real)
    requires 0.0 <= start.tokens <= limits.Capacity()
    requires InClockOrder(window) && forall i :: 0 <= i < |window| ==> from <= window[i].now <= to
    requires from <= to
    requires RunFrom(limits, start, before).at <= from
    ensures Spent(limits, RunFrom(limits, start, before), window) <= limits.Capacity() + Gain(limits, to - from)
  {
    var bucket := RunFrom(limits, start, before);
    RunStaysInside(limits, start, before);
    SpentInWindow(limits, bucket, window, from, to);
  }

  /** Up to the first request that touches the bucket, nothing is spent. */
  lemma {:induction false} SpentInWindow(limits: Limits, bucket: Bucket, window: seq<Request>, from: real, to: real)
    requires 0.0 <= bucket.tokens <= limits.Capacity() && bucket.at <= from <= to
    requires InClockOrder(window) && forall i :: 0 <= i < |window| ==> from <= window[i].now <= to
    ensures Spent(limits, bucket, window) <= limits.Capacity() + Gain(limits, to - from)
    decreases |window|
  {
    hide Gain;
    if window == [] {
      GainAdds(limits, to - from, 0.0);
    } else if window[0].cost == 0 {
      SpentInWindow(limits, bucket, window[1..], from, to);
    } else {
      var now := window[0].now;
      var full := Bucket(Refilled(limits, bucket, now).tokens, now);
      StaysInside(limits, bucket, window[0]);
      GainAdds(limits, 0.0, 0.0);
      assert Refilled(limits, full, now) == full;
      assert After(limits, bucket, window[0]) == After(limits, full, window[0]);
      SpentIsPaidFor(limits, full, window, to);
      GainAdds(limits, now - from, to - now);
      assert now - from + (to - now) == to - from;
    }
  }

  /** After a minute without requests, anything up to the capacity is let through. */
  lemma FullAfterAMinute(limits: Limits, bucket: Bucket, request: Request)
    requires 0.0 <= bucket.tokens && request.now >= bucket.at + 60.0
    ensures Refilled(limits, bucket, request.now).tokens == limits.Capacity()
    ensures Allows(limits, bucket, request) <==> request.cost <= limits.perMinute
  {
    var elapsed := request.now - bucket.at;
    GainAdds(limits, elapsed - 60.0, 60.0);
    assert elapsed - 60.0 + 60.0 == elapsed && Gain(limits, 60.0) == limits.Capacity();
  }

  // ----- a clock that runs back and forth -----

  const SIXTY := Limits(60)

  /** Readings that go from 0 to 10 and back, `n` times. */
  function BackAndForth(n: nat): seq<Request> {
    if n == 0 then [] else [Request(10, 10.0), Request(1, 0.0)] + BackAndForth(n - 1)
  }

  lemma {:induction false} EachRoundSpends(n: nat)
    ensures Spent(SIXTY, Bucket(0.0, 0.0), BackAndForth(n)) == 10.0 * n as real
    ensures forall i :: 0 <= i < |BackAndForth(n)| ==> 0.0 <= BackAndForth(n)[i].now <= 10.0
  {
    if n > 0 {
      EachRoundSpends(n - 1);
      var there, back, rest := Request(10, 10.0), Request(1, 0.0), BackAndForth(n - 1);
      assert BackAndForth(n)[1..] == [back] + rest && ([back] + rest)[1..] == rest;
      assert Refilled(SIXTY, Bucket(0.0, 0.0), 10.0) == Bucket(10.0, 10.0);
      assert After(SIXTY, Bucket(0.0, 0.0), there) == Bucket(0.0, 10.0);
      assert Refilled(SIXTY, Bucket(0.0, 10.0), 0.0) == Bucket(0.0, 0.0);
      assert After(SIXTY, Bucket(0.0, 10.0), back) == Bucket(0.0, 0.0);
      assert Spent(SIXTY, Bucket(0.0, 10.0), [back] + rest) == Spent(SIXTY, Bucket(0.0, 0.0), rest);
    }
  }

  /**
   * Without clock order the bound over a window is false, and no other bound takes its place: all these readings
   * are in one window of ten seconds, and from the second round on more is let through than the window allows.
   */
  lemma BackwardsClockOverspends(n: nat)
    ensures
      var full, window := Bucket(SIXTY.Capacity(), 0.0), [Request(60, 0.0)] + BackAndForth(n);
      && (forall i :: 0 <= i < |window| ==> 0.0 <= window[i].now <= 10.0)
      && RunFrom(SIXTY, full, []).at <= 0.0
      && Spent(SIXTY, RunFrom(SIXTY, full, []), window) == 60.0 + 10.0 * n as real
      && (n >= 2 ==> Spent(SIXTY, RunFrom(SIXTY, full, []), window) > SIXTY.Capacity() + Gain(SIXTY, 10.0 - 0.0))
  {
    var full, window := Bucket(SIXTY.Capacity(), 0.0), [Request(60, 0.0)] + BackAndForth(n);
    EachRoundSpends(n);
    assert window[1..] == BackAndForth(n);
    assert Refilled(SIXTY, full, 0.0) == full;
    assert After(SIXTY, full, window[0]) == Bucket(0.0, 0.0);
  }
}
