/** The client-side token bucket, and what it bounds: reservations in any window of time, and the
    transmissions that follow them. Time and tokens are exact reals; the clock is monotonic. */
module RateLimit {
  import opened Wrappers
  import Basics

  /** What flows in between two instants. */
  function Accrued(rate: real, from: real, to: real): real {
    (to - from) * rate
  }

  /** The bucket as a value: what one call does to it. */
  datatype Bucket = Bucket(rate: real, capacity: real, tokens: real, updated: real)
  {
    predicate Valid() { 0.0 < rate && 0.0 <= tokens <= capacity }

    function Refilled(now: real): Bucket
      requires rate > 0.0
    {
      var grown := tokens + Accrued(rate, updated, now);
      this.(tokens := if grown < capacity then grown else capacity, updated := now)
    }

    predicate Grants(now: real)
      requires rate > 0.0
    {
      Refilled(now).tokens >= 1.0
    }

    function Taken(now: real): Bucket
      requires rate > 0.0
    {
      var full := Refilled(now);
      if full.tokens >= 1.0 then full.(tokens := full.tokens - 1.0) else full
    }
  }

  class TokenBucket {
    const rate: real
    const capacity: real
    var tokens: real
    var updated: real

    ghost predicate Valid()
      reads this
    {
      Contents().Valid()
    }

    function Contents(): Bucket
      reads this
    {
      Bucket(rate, capacity, tokens, updated)
    }

    /** Without a burst the bucket holds one second's worth of tokens, and at least one. */
    constructor (ratePerSecond: real, burst: Option<nat>, now: real)
      requires 0.0 < ratePerSecond
      ensures Valid() && rate == ratePerSecond && tokens == capacity && updated == now
      ensures burst.Some? ==> capacity == burst.value as real
      ensures burst.None? ==> capacity >= 1.0 && capacity >= rate && (capacity == 1.0 || capacity == rate)
    {
      rate := ratePerSecond;
      var c := if burst.Some? then burst.value as real else if ratePerSecond < 1.0 then 1.0 else ratePerSecond;
      capacity := c;
      tokens := c;
      updated := now;
    }

    method Refill(now: real)
      requires Valid() && updated <= now
      modifies this
      ensures Contents() == old(Contents()).Refilled(now) && Valid()
    {
      Accrual(rate, updated, now, now);
      var grown := tokens + (now - updated) * rate;
      tokens := if grown < capacity then grown else capacity;
      updated := now;
    }

    /** Takes a token if one is free, without waiting. */
    method TryAcquire(now: real) returns (granted: bool)
      requires Valid() && updated <= now
      modifies this
      ensures granted == old(Contents()).Grants(now)
      ensures Contents() == old(Contents()).Taken(now) && Valid()
    {
      Refill(now);
      if tokens >= 1.0 {
        tokens := tokens - 1.0;
        return true;
      }
      return false;
    }

    /** Waits for a token. Each sleep asks for exactly the missing fraction and may overrun by `late`; the
        waiting task may be cancelled after `patience` sleeps. A bucket that can hold a token grants after
        at most one sleep; one that cannot keeps the caller waiting for as long as it has patience. Until
        the last sleep was due, no call would have been granted without waiting. */
    method Acquire(start: real, late: real, patience: nat) returns (now: real, sleeps: nat, granted: bool)
      requires Valid() && updated <= start && 0.0 <= late
      modifies this
      ensures start <= now && Valid()
      ensures granted <==> capacity >= 1.0 && (patience > 0 || old(Contents()).Grants(start))
      ensures granted ==> (sleeps == 0 <==> old(Contents()).Grants(start)) && sleeps <= 1
      ensures granted ==> old(Contents()).Grants(now) && Contents() == old(Contents()).Taken(now)
      ensures !granted ==> sleeps == patience && Contents() == old(Contents()).Refilled(now)
      ensures NoneBetween(old(Contents()), start, now - late)
    {
      now, sleeps := start, 0;
      ghost var b := Contents();
      while true
        invariant Valid() && updated <= now && start <= now && b.rate == rate && b.capacity == capacity
        invariant Contents().Refilled(now) == b.Refilled(now) && sleeps <= patience
        invariant sleeps == 0 ==> now == start
        invariant sleeps > 0 ==> !b.Grants(start) && (capacity >= 1.0 ==> b.Grants(now) && sleeps == 1)
        invariant NoneBetween(b, start, now - late)
        decreases patience - sleeps
      {
        Refill(now);
        if tokens >= 1.0 {
          tokens := tokens - 1.0;
          return now, sleeps, true;
        }
        if sleeps == patience {
          return now, sleeps, false;
        }
        SleepOn(b, start, now, late);
        now := now + (1.0 - tokens) / rate + late;
        sleeps := sleeps + 1;
      }
    }
  }

  /** No call at an instant in [from, to) would be granted. */
  ghost predicate NoneBetween(b: Bucket, from: real, to: real)
    requires b.rate > 0.0
  {
    forall t :: from <= t < to ==> !b.Grants(t)
  }

  // ---------------------------------------------------------------- arithmetic

  lemma PositiveProduct(x: real, y: real)
    requires 0.0 < x && 0.0 < y
    ensures 0.0 < x * y
  {
  }

  /** Accrual is additive, never negative, and grows with the span. */
  lemma Accrual(rate: real, a: real, b: real, c: real)
    requires 0.0 < rate && a <= b <= c
    ensures 0.0 <= Accrued(rate, a, b) <= Accrued(rate, a, c) && 0.0 <= Accrued(rate, b, c) <= Accrued(rate, a, c)
    ensures Accrued(rate, a, b) + Accrued(rate, b, c) == Accrued(rate, a, c)
    ensures b < c ==> Accrued(rate, a, b) < Accrued(rate, a, c)
  {
    hide Accrued;
    AccruedPositive(rate, a, b);
    AccruedPositive(rate, b, c);
    AccruedSums(rate, a, b, c);
  }

  lemma AccruedPositive(rate: real, a: real, b: real)
    requires 0.0 < rate && a <= b
    ensures 0.0 <= Accrued(rate, a, b) && (a < b ==> 0.0 < Accrued(rate, a, b))
  {
    var span := b - a;
    assert Accrued(rate, a, b) == span * rate;
    if a < b { PositiveProduct(span, rate); }
  }

  lemma AccruedSums(rate: real, a: real, b: real, c: real)
    ensures Accrued(rate, a, b) + Accrued(rate, b, c) == Accrued(rate, a, c)
  {
  }

  lemma Quotient(x: real, y: real)
    requires 0.0 < y && 0.0 < x
    ensures 0.0 < x / y && (x / y) * y == x
  {
  }

  lemma AccruedOver(rate: real, start: real, span: real)
    ensures Accrued(rate, start, start + span) == span * rate
  {
    assert start + span - start == span;
  }

  /** The wait for a missing part of a token accrues exactly that part. */
  lemma Missing(rate: real, start: real, part: real)
    requires 0.0 < rate && 0.0 < part
    ensures 0.0 < part / rate && Accrued(rate, start, start + part / rate) == part
  {
    Quotient(part, rate);
    AccruedOver(rate, start, part / rate);
  }

  lemma LongEnough(rate: real, from: real, to: real)
    requires 0.0 < rate
    ensures 1.0 <= Accrued(rate, from, to) <==> 1.0 / rate <= to - from
  {
    var span := to - from;
    assert (1.0 / rate) * rate == 1.0;
    if span < 1.0 / rate { PositiveProduct(1.0 / rate - span, rate); } else { Basics.Product(span - 1.0 / rate, rate); }
  }

  /** Refilling twice is refilling once. */
  lemma RefillTwice(b: Bucket, t: real, u: real)
    requires b.Valid() && b.updated <= t <= u
    ensures b.Refilled(t).Refilled(u) == b.Refilled(u)
  {
    Accrual(b.rate, b.updated, t, u);
    hide Accrued;
  }

  /** One more sleep, from an instant at which the bucket had no token. */
  lemma SleepOn(b: Bucket, start: real, now: real, late: real)
    requires b.Valid() && b.updated <= start <= now && 0.0 <= late && !b.Grants(now)
    requires b.capacity >= 1.0 ==> now == start
    ensures var next := now + (1.0 - b.Refilled(now).tokens) / b.rate + late;
            && now <= next && b.Refilled(now).Refilled(next) == b.Refilled(next)
            && (b.capacity >= 1.0 ==> b.Grants(next)) && NoneBetween(b, start, next - late)
  {
    if b.capacity >= 1.0 {
      SleptLongEnough(b, start, late);
    } else {
      hide Accrued;
      Missing(b.rate, now, 1.0 - b.Refilled(now).tokens);
      RefillTwice(b, now, now + (1.0 - b.Refilled(now).tokens) / b.rate + late);
    }
  }

  lemma SleptLongEnough(b: Bucket, start: real, late: real)
    requires b.Valid() && b.updated <= start && 0.0 <= late && 1.0 <= b.capacity && !b.Grants(start)
    ensures var now := start + (1.0 - b.Refilled(start).tokens) / b.rate + late;
            && start <= now && b.Grants(now) && b.Refilled(start).Refilled(now) == b.Refilled(now)
            && NoneBetween(b, start, now - late)
  {
    hide Accrued;
    var part := 1.0 - b.Refilled(start).tokens;
    var wait := part / b.rate;
    Missing(b.rate, start, part);
    RefillTwice(b, start, start + wait + late);
    Accrual(b.rate, start, start + wait, start + wait + late);
    forall t | start <= t < start + wait ensures !b.Grants(t) {
      RefillTwice(b, start, t);
      Accrual(b.rate, start, t, start + wait);
    }
    assert start + wait + late - late == start + wait;
  }

  // ---------------------------------------------------------------- runs

  /** The calls made on one bucket, at the instants they read the clock. */
  ghost predicate Timeline(b: Bucket, times: seq<real>) {
    && b.Valid()
    && (times != [] ==> b.updated <= times[0])
    && forall i, j :: 0 <= i <= j < |times| ==> times[i] <= times[j]
  }

  /** How many of the calls inside [from, to] are granted. */
  function Granted(b: Bucket, times: seq<real>, from: real, to: real): nat
    requires b.rate > 0.0
    decreases |times|
  {
    if times == [] then 0
    else (if b.Grants(times[0]) && from <= times[0] <= to then 1 else 0) + Granted(b.Taken(times[0]), times[1..], from, to)
  }

  /** What a call costs, and what it cannot exceed. */
  lemma TakenTokens(b: Bucket, now: real)
    requires b.Valid() && b.updated <= now
    ensures var cost := if b.Grants(now) then 1.0 else 0.0;
            && b.Taken(now).tokens <= b.tokens + Accrued(b.rate, b.updated, now) - cost
            && b.Taken(now).tokens <= b.capacity - cost
            && b.Taken(now).Valid() && b.Taken(now).updated == now
            && b.Taken(now).rate == b.rate && b.Taken(now).capacity == b.capacity
  {
    hide Accrued;
    Accrual(b.rate, b.updated, now, now);
  }

  lemma TakenTimeline(b: Bucket, times: seq<real>)
    requires Timeline(b, times) && times != []
    ensures Timeline(b.Taken(times[0]), times[1..])
    ensures |times| > 1 ==> times[0] <= times[1]
  {
    TakenTokens(b, times[0]);
  }

  lemma {:induction false} NoneAfter(b: Bucket, times: seq<real>, from: real, to: real)
    requires Timeline(b, times) && (times != [] ==> to < times[0])
    ensures Granted(b, times, from, to) == 0
    decreases |times|
  {
    hide Accrued;
    if times != [] {
      TakenTimeline(b, times);
      TakenTokens(b, times[0]);
      NoneAfter(b.Taken(times[0]), times[1..], from, to);
    }
  }

  /** From inside the window: the grants left are the tokens held plus what accrues. */
  lemma {:induction false} GrantsLeft(b: Bucket, times: seq<real>, from: real, to: real)
    requires Timeline(b, times) && b.updated <= to
    ensures Granted(b, times, from, to) as real <= b.tokens + Accrued(b.rate, b.updated, to)
    decreases |times|
  {
    hide Accrued;
    Accrual(b.rate, b.updated, to, to);
    if times != [] {
      if times[0] > to {
        NoneAfter(b, times, from, to);
      } else {
        TakenTimeline(b, times);
        TakenTokens(b, times[0]);
        GrantsLeft(b.Taken(times[0]), times[1..], from, to);
        Accrual(b.rate, b.updated, times[0], to);
      }
    }
  }

  /** The rate bound: in any run, any window of length T sees at most capacity + rate * T grants. */
  lemma {:induction false} RateBound(b: Bucket, times: seq<real>, from: real, to: real)
    requires Timeline(b, times) && from <= to
    ensures Granted(b, times, from, to) as real <= b.capacity + Accrued(b.rate, from, to)
    decreases |times|
  {
    hide Accrued;
    Accrual(b.rate, from, to, to);
    if times != [] {
      if times[0] > to {
        NoneAfter(b, times, from, to);
      } else {
        TakenTimeline(b, times);
        TakenTokens(b, times[0]);
        if times[0] < from {
          RateBound(b.Taken(times[0]), times[1..], from, to);
        } else {
          GrantsLeft(b.Taken(times[0]), times[1..], from, to);
          Accrual(b.rate, from, times[0], to);
        }
      }
    }
  }

  /** With capacity one, two grants in a window mean the window is at least 1/rate long. */
  lemma GrantsAreSpaced(b: Bucket, times: seq<real>, from: real, to: real)
    requires Timeline(b, times) && from <= to && b.capacity == 1.0
    requires Granted(b, times, from, to) >= 2
    ensures to - from >= 1.0 / b.rate
  {
    hide Accrued;
    RateBound(b, times, from, to);
    assert Granted(b, times, from, to) as real >= 2.0;
    LongEnough(b.rate, from, to);
  }

  /** Calls at one instant: the bucket grants them one after another while whole tokens last, and it holds what
      it had and what flowed in since, up to its capacity: the burst. */
  lemma BurstExactly(b: Bucket, now: real, n: nat)
    requires b.Valid() && b.updated <= now
    ensures var held := b.tokens + (now - b.updated) * b.rate;
            WholeTokens(if held < b.capacity then held else b.capacity, n, Granted(b, Repeated(now, n), now, now))
  {
    hide Accrued, Granted, WholeTokens;
    RefilledHolds(b, now);
    GrantsAtOnce(b, now, n);
  }

  lemma RefilledHolds(b: Bucket, now: real)
    requires b.rate > 0.0
    ensures var held := b.tokens + (now - b.updated) * b.rate;
            b.Refilled(now).tokens == if held < b.capacity then held else b.capacity
  {
  }

  /** Of `n` requests, `granted` were met from `full` tokens. */
  predicate WholeTokens(full: real, n: nat, granted: nat) {
    if n as real <= full then granted == n else granted as real <= full < granted as real + 1.0
  }

  function Repeated(now: real, n: nat): seq<real> {
    seq(n, _ => now)
  }

  lemma {:induction false} GrantsAtOnce(b: Bucket, now: real, n: nat)
    requires b.Valid() && b.updated <= now
    ensures WholeTokens(b.Refilled(now).tokens, n, Granted(b, Repeated(now, n), now, now))
    decreases n
  {
    hide Accrued, Granted;
    Accrual(b.rate, b.updated, now, now);
    Accrual(b.rate, now, now, now);
    if n == 0 {
      NoCalls(b, now);
    } else {
      TakenTokens(b, now);
      assert Repeated(now, n)[1..] == Repeated(now, n - 1);
      OneGrant(b, Repeated(now, n), now);
      GrantsAtOnce(b.Taken(now), now, n - 1);
    }
  }

  lemma NoCalls(b: Bucket, now: real)
    requires b.rate > 0.0
    ensures Granted(b, Repeated(now, 0), now, now) == 0
  {
  }

  lemma OneGrant(b: Bucket, calls: seq<real>, now: real)
    requires b.rate > 0.0 && calls != [] && calls[0] == now
    ensures Granted(b, calls, now, now) ==
              (if b.Grants(now) then 1 else 0) + Granted(b.Taken(now), calls[1..], now, now)
  {
    hide Accrued;
  }

  /** A bucket that cannot hold a whole token never grants. */
  lemma {:induction false} SmallBucketStarves(b: Bucket, times: seq<real>, from: real, to: real)
    requires Timeline(b, times) && b.capacity < 1.0
    ensures Granted(b, times, from, to) == 0
    decreases |times|
  {
    hide Accrued;
    if times != [] {
      TakenTimeline(b, times);
      TakenTokens(b, times[0]);
      SmallBucketStarves(b.Taken(times[0]), times[1..], from, to);
    }
  }

  /** A call made 1/rate after the last one is granted. */
  lemma RestedIsGranted(b: Bucket, now: real)
    requires b.Valid() && b.capacity >= 1.0 && now - b.updated >= 1.0 / b.rate && now >= b.updated
    ensures b.Grants(now)
  {
    hide Accrued;
    LongEnough(b.rate, b.updated, now);
  }

  /** Calls 1/rate apart are all granted: the bound is also the throughput. */
  lemma {:induction false} PacedCallsAllGranted(b: Bucket, times: seq<real>, from: real, to: real)
    requires Timeline(b, times) && b.capacity >= 1.0
    requires times != [] ==> b.Grants(times[0])
    requires forall i, j :: 0 <= i && j == i + 1 < |times| ==> times[j] - times[i] >= 1.0 / b.rate
    requires times != [] ==> from <= times[0] && times[|times| - 1] <= to
    ensures Granted(b, times, from, to) == |times|
    decreases |times|
  {
    hide Accrued;
    if times != [] {
      assert times[0] <= times[|times| - 1];
      TakenTimeline(b, times);
      TakenTokens(b, times[0]);
      if |times| > 1 {
        RestedIsGranted(b.Taken(times[0]), times[1]);
      }
      var rest := times[1..];
      assert forall i :: 0 <= i < |rest| ==> rest[i] == times[i + 1];
      PacedCallsAllGranted(b.Taken(times[0]), rest, from, to);
    }
  }

  // ---------------------------------------------------------------- the order bucket

  /** The broker's documented limit of market orders per minute, and the rate set one below it. */
  const ORDERS_PER_MINUTE := 50
  const ORDER_RATE: real := (ORDERS_PER_MINUTE - 1) as real / 60.0

  /** A call made at `at`; when it is granted, its order is transmitted `after` seconds later. */
  datatype Call = Call(at: real, after: real)

  function Times(calls: seq<Call>): seq<real> {
    seq(|calls|, i requires 0 <= i < |calls| => calls[i].at)
  }

  function Posted(b: Bucket, calls: seq<Call>, from: real, to: real): nat
    requires b.rate > 0.0
    decreases |calls|
  {
    if calls == [] then 0
    else (if b.Grants(calls[0].at) && from <= calls[0].at + calls[0].after <= to then 1 else 0)
         + Posted(b.Taken(calls[0].at), calls[1..], from, to)
  }

  lemma {:induction false} PostedWereGranted(b: Bucket, calls: seq<Call>, from: real, to: real, delay: real)
    requires b.rate > 0.0 && forall k :: 0 <= k < |calls| ==> 0.0 <= calls[k].after <= delay
    ensures Posted(b, calls, from, to) <= Granted(b, Times(calls), from - delay, to)
    decreases |calls|
  {
    hide Accrued;
    if calls != [] {
      assert Times(calls)[1..] == Times(calls[1..]);
      PostedWereGranted(b.Taken(calls[0].at), calls[1..], from, to, delay);
    }
  }

  /** Transmissions that follow their reservations within `delay`: the window grows by the delay. */
  lemma PostRateBound(b: Bucket, calls: seq<Call>, from: real, to: real, delay: real)
    requires Timeline(b, Times(calls)) && from <= to && 0.0 <= delay
    requires forall k :: 0 <= k < |calls| ==> 0.0 <= calls[k].after <= delay
    ensures Posted(b, calls, from, to) as real <= b.capacity + Accrued(b.rate, from - delay, to)
  {
    hide Accrued, Granted, Posted;
    PostedWereGranted(b, calls, from, to, delay);
    RateBound(b, Times(calls), from - delay, to);
  }

  /** The order bucket keeps any minute within the broker's fifty: reservations always, and
      transmissions as long as each follows its reservation within 60/49 of a second, the slack that a
      rate one request below the limit leaves. */
  lemma OrderBucketWithinLimit(b: Bucket, calls: seq<Call>, from: real, delay: real)
    requires Timeline(b, Times(calls)) && b.rate == ORDER_RATE && b.capacity == 1.0
    requires 0.0 <= delay < 60.0 / 49.0 && forall k :: 0 <= k < |calls| ==> 0.0 <= calls[k].after <= delay
    ensures Granted(b, Times(calls), from, from + 60.0) <= ORDERS_PER_MINUTE
    ensures Posted(b, calls, from, from + 60.0) <= ORDERS_PER_MINUTE
  {
    hide Granted, Posted;
    RateBound(b, Times(calls), from, from + 60.0);
    PostRateBound(b, calls, from, from + 60.0, delay);
    MinuteAccrues(from, delay);
  }

  /** One order bucket, and transmissions that each follow their reservation within `delay`. */
  ghost predicate OrderCalls(b: Bucket, calls: seq<Call>, delay: real) {
    && Timeline(b, Times(calls)) && b.rate == ORDER_RATE && b.capacity == 1.0
    && forall k :: 0 <= k < |calls| ==> 0.0 <= calls[k].after <= delay
  }

  function PostedInMinute(b: Bucket, calls: seq<Call>, from: real): nat
    requires b.rate > 0.0
  {
    Posted(b, calls, from, from + 60.0)
  }

  const SLACK: real := 60.0 / 49.0

  /** Reservations paced one slack apart, the first transmitted a slack late and the others at once. */
  const BURST: seq<Call> := seq(51, (k: nat) => Call(k as real * SLACK, if k == 0 then SLACK else 0.0))

  lemma {:induction false} PacedPostsAllPosted(b: Bucket, calls: seq<Call>, from: real, to: real)
    requires Timeline(b, Times(calls)) && b.capacity >= 1.0
    requires calls != [] ==> b.Grants(calls[0].at)
    requires forall i, j :: 0 <= i && j == i + 1 < |calls| ==> calls[j].at - calls[i].at >= 1.0 / b.rate
    requires forall k :: 0 <= k < |calls| ==> from <= calls[k].at + calls[k].after <= to
    ensures Posted(b, calls, from, to) == |calls|
    decreases |calls|
  {
    hide Accrued;
    if calls != [] {
      var times := Times(calls);
      assert times[0] == calls[0].at && times[1..] == Times(calls[1..]);
      TakenTimeline(b, times);
      TakenTokens(b, times[0]);
      if |calls| > 1 {
        assert times[1] == calls[1].at;
        RestedIsGranted(b.Taken(times[0]), times[1]);
      }
      var rest := calls[1..];
      assert forall i :: 0 <= i < |rest| ==> rest[i] == calls[i + 1];
      PacedPostsAllPosted(b.Taken(times[0]), rest, from, to);
    }
  }

  /** A slack of delay lets fifty-one transmissions into one minute. */
  lemma BurstPasses(delay: real)
    requires SLACK <= delay
    ensures var b := Bucket(ORDER_RATE, 1.0, 1.0, 0.0);
            OrderCalls(b, BURST, delay) && PostedInMinute(b, BURST, SLACK) == ORDERS_PER_MINUTE + 1
  {
    hide Posted, Accrued;
    var b := Bucket(ORDER_RATE, 1.0, 1.0, 0.0);
    var times := Times(BURST);
    assert |BURST| == 51 && forall k: nat :: k < 51 ==> times[k] == k as real * SLACK;
    assert 1.0 / ORDER_RATE == SLACK;
    forall i, j | 0 <= i <= j < 51 ensures times[i] <= times[j] {
      Basics.Product((j - i) as real, SLACK);
    }
    FullGrants(b);
    PacedPostsAllPosted(b, BURST, SLACK, SLACK + 60.0);
  }

  lemma FullGrants(b: Bucket)
    requires b.Valid() && b.tokens == 1.0 == b.capacity
    ensures b.Grants(b.updated)
  {
  }

  /** So in every run a minute sees at most the broker's fifty transmissions exactly when each follows its
      reservation within less than the slack. */
  lemma FiftyAMinuteExactly(delay: real)
    requires 0.0 <= delay
    ensures (forall b: Bucket, calls: seq<Call>, from: real ::
               OrderCalls(b, calls, delay) ==> PostedInMinute(b, calls, from) <= ORDERS_PER_MINUTE) <==> delay < SLACK
  {
    if delay < SLACK {
      forall b: Bucket, calls: seq<Call>, from: real | OrderCalls(b, calls, delay)
        ensures PostedInMinute(b, calls, from) <= ORDERS_PER_MINUTE
      {
        OrderBucketWithinLimit(b, calls, from, delay);
      }
    } else {
      BurstPasses(delay);
    }
  }

  lemma MinuteAccrues(from: real, delay: real)
    requires 0.0 <= delay < 60.0 / 49.0
    ensures Accrued(ORDER_RATE, from, from + 60.0) == 49.0
    ensures Accrued(ORDER_RATE, from - delay, from + 60.0) < 50.0
  {
    assert ORDER_RATE == 49.0 / 60.0;
  }
}
