/** The token bucket that keeps a whole account within its vendor's calls per minute. Arithmetic is exact (`real`); the
    epsilon of the wait test is kept, because it lets a call through on slightly less than one token. */
module RateLimit {
  import opened Models

  const EPSILON: real := 0.000000001

  datatype Limits = Limits(rate: int, burst: int) {
    predicate Valid() { rate > 0 && burst >= 1 }
    function PerSecond(): real { rate as real / 60.0 }

    /** What is refilled from one moment to another. */
    function Flow(from: real, to: real): real { (to - from) * PerSecond() }
  }

  /** A burst that is not given is a quarter of the rate, at least one; None where the constructor raises. */
  function LimitsFor(rate: int, burst: Option<int>): (r: Option<Limits>)
    ensures r.Some? ==> r.value.Valid()
    ensures r.None? <==> rate <= 0 || (burst.Some? && burst.value < 1)
    ensures r.Some? ==> r.value.rate == rate && (burst.Some? ==> r.value.burst == burst.value)
    ensures r.Some? && burst.None? ==> (if rate < 4 then r.value.burst == 1 else 4 * r.value.burst <= rate < 4 * r.value.burst + 4)
  {
    if rate <= 0 then None
    else
      var b := if burst.Some? then burst.value else if rate / 4 >= 1 then rate / 4 else 1;
      if b < 1 then None else Some(Limits(rate, b))
  }

  /** `done` is history: the clock reading at which each acquire completed. */
  datatype Bucket = Bucket(tokens: real, stamp: real, done: seq<real>)

  function Least(a: real, b: real): real { if a <= b then a else b }

  function Refilled(l: Limits, b: Bucket, now: real): Bucket {
    b.(tokens := Least(l.burst as real, b.tokens + l.Flow(b.stamp, now)), stamp := now)
  }

  predicate MustWait(b: Bucket) { b.tokens < 1.0 - EPSILON }

  function Asked(l: Limits, b: Bucket): real
    requires l.Valid()
  {
    (1.0 - b.tokens) / l.PerSecond()
  }

  function Taken(b: Bucket): Bucket { b.(tokens := b.tokens - 1.0, done := b.done + [b.stamp]) }

  /** An acquire reads the clock once, and once more after every sleep; `readings` are what it sees. When they run out
      it is still asleep, or was cancelled, and has taken nothing. */
  function Acquired(l: Limits, b: Bucket, readings: seq<real>): Bucket
    decreases |readings|
  {
    if readings == [] then b
    else
      var r := Refilled(l, b, readings[0]);
      if MustWait(r) then Acquired(l, r, readings[1..]) else Taken(r)
  }

  function Sleeps(l: Limits, b: Bucket, readings: seq<real>): nat
    decreases |readings|
  {
    if readings == [] then 0
    else
      var r := Refilled(l, b, readings[0]);
      if MustWait(r) then 1 + Sleeps(l, r, readings[1..]) else 0
  }

  /** How long it asks to sleep, each time. */
  function Waits(l: Limits, b: Bucket, readings: seq<real>): seq<real>
    requires l.Valid()
    decreases |readings|
  {
    if readings == [] then []
    else
      var r := Refilled(l, b, readings[0]);
      if MustWait(r) then [Asked(l, r)] + Waits(l, r, readings[1..]) else []
  }

  ghost predicate Ticks(from: real, readings: seq<real>)
    decreases |readings|
  {
    readings == [] || (from <= readings[0] && Ticks(readings[0], readings[1..]))
  }

  class TokenBucket {
    const limits: Limits
    var tokens: real
    var stamp: real
    var done: seq<real>

    constructor (limits: Limits, now: real)
      requires limits.Valid()
      ensures this.limits == limits && View() == Bucket(limits.burst as real, now, [])
    {
      this.limits, tokens, stamp, done := limits, limits.burst as real, now, [];
    }

    function View(): Bucket
      reads this
    {
      Bucket(tokens, stamp, done)
    }

    method Refill(now: real)
      modifies this
      ensures View() == Refilled(limits, old(View()), now)
    {
      var full := tokens + limits.Flow(stamp, now);
      tokens := if limits.burst as real <= full then limits.burst as real else full;
      stamp := now;
    }

    method Acquire(readings: seq<real>) returns (ok: bool, sleeps: nat, waits: seq<real>)
      requires limits.Valid() && readings != []
      modifies this
      ensures View() == Acquired(limits, old(View()), readings)
      ensures sleeps == Sleeps(limits, old(View()), readings)
      ensures waits == Waits(limits, old(View()), readings)
      ensures ok == (|done| == |old(done)| + 1)
    {
      ghost var before := View();
      Refill(readings[0]);
      var i := 1;
      sleeps, waits := 0, [];
      while tokens < 1.0 - EPSILON
        invariant 1 <= i <= |readings|
        invariant done == before.done
        invariant Acquired(limits, before, readings) ==
                  if MustWait(View()) then Acquired(limits, View(), readings[i..]) else Taken(View())
        invariant Sleeps(limits, before, readings) ==
                  sleeps + if MustWait(View()) then 1 + Sleeps(limits, View(), readings[i..]) else 0
        invariant Waits(limits, before, readings) ==
                  waits + if MustWait(View()) then [Asked(limits, View())] + Waits(limits, View(), readings[i..]) else []
        decreases |readings| - i
      {
        sleeps := sleeps + 1;
        waits := waits + [(1.0 - tokens) / (limits.rate as real / 60.0)];
        if i == |readings| {
          return false, sleeps, waits;
        }
        assert readings[i..][0] == readings[i] && readings[i..][1..] == readings[i + 1..];
        Refill(readings[i]);
        i := i + 1;
      }
      tokens := tokens - 1.0;
      done := done + [stamp];
      return true, sleeps, waits;
    }
  }

  // --- the bound ------------------------------------------------------------------------------------------------

  /** What the bucket allows since the i-th completed acquire. */
  ghost predicate Bounded(l: Limits, b: Bucket) {
    && l.Valid()
    && -EPSILON <= b.tokens <= l.burst as real
    && (forall i :: 0 <= i < |b.done| ==> b.done[i] <= b.stamp)
    && (forall i :: 0 <= i < |b.done| ==>
          b.tokens <= l.burst as real + l.Flow(b.done[i], b.stamp) - (|b.done| - i) as real)
  }

  /** Completed acquires are in time order, and any run of them fits the burst plus what was refilled meanwhile. */
  ghost predicate Spaced(l: Limits, done: seq<real>) {
    && (forall i, j :: 0 <= i <= j < |done| ==> done[i] <= done[j])
    && (forall i, j :: 0 <= i <= j < |done| ==>
          (j - i + 1) as real <= l.burst as real + l.Flow(done[i], done[j]) + EPSILON)
  }

  lemma FlowAdds(l: Limits, from: real, mid: real, to: real)
    ensures l.Flow(from, to) == l.Flow(from, mid) + l.Flow(mid, to)
  {
    var ps := l.PerSecond();
    assert (to - from) * ps == (mid - from) * ps + (to - mid) * ps;
  }

  lemma FlowIsForward(l: Limits, from: real, to: real)
    requires l.Valid()
    ensures from <= to ==> l.Flow(from, to) >= 0.0
    ensures from == to ==> l.Flow(from, to) == 0.0
  {
  }

  lemma Product(x: real, y: real)
    requires x >= 0.0 && y >= 0.0
    ensures x * y >= 0.0
  {
  }

  lemma WithinMinute(l: Limits, from: real, to: real)
    requires l.Valid() && to <= from + 60.0
    ensures l.Flow(from, to) <= l.rate as real
  {
    var ps := l.PerSecond();
    Product(60.0 - (to - from), ps);
    assert 60.0 * ps == l.rate as real;
    assert (60.0 - (to - from)) * ps == 60.0 * ps - (to - from) * ps;
  }

  lemma RefillKeeps(l: Limits, b: Bucket, now: real)
    requires Bounded(l, b) && Spaced(l, b.done) && b.stamp <= now
    ensures Bounded(l, Refilled(l, b, now)) && Spaced(l, Refilled(l, b, now).done)
  {
    hide Spaced, Limits.Flow;
    var r := Refilled(l, b, now);
    FlowIsForward(l, b.stamp, now);
    forall i | 0 <= i < |b.done|
      ensures r.tokens <= l.burst as real + l.Flow(r.done[i], r.stamp) - (|r.done| - i) as real
    {
      FlowAdds(l, b.done[i], b.stamp, now);
    }
  }

  lemma TakeKeeps(l: Limits, b: Bucket)
    requires Bounded(l, b) && Spaced(l, b.done) && !MustWait(b)
    ensures Bounded(l, Taken(b)) && Spaced(l, Taken(b).done)
  {
    hide Limits.Flow;
    var r, n := Taken(b), |b.done|;
    forall i | 0 <= i <= n
      ensures r.tokens <= l.burst as real + l.Flow(r.done[i], r.stamp) - (n + 1 - i) as real
      ensures (n - i + 1) as real <= l.burst as real + l.Flow(r.done[i], r.done[n]) + EPSILON
    {
      if i == n {
        FlowIsForward(l, r.done[n], r.stamp);
      }
    }
  }

  lemma {:induction false} AcquireKeeps(l: Limits, b: Bucket, readings: seq<real>)
    requires Bounded(l, b) && Spaced(l, b.done) && Ticks(b.stamp, readings)
    ensures var r := Acquired(l, b, readings);
            Bounded(l, r) && Spaced(l, r.done) && b.stamp <= r.stamp && b.done <= r.done
    decreases |readings|
  {
    hide Bounded, Spaced;
    if readings != [] {
      var r := Refilled(l, b, readings[0]);
      RefillKeeps(l, b, readings[0]);
      if MustWait(r) {
        AcquireKeeps(l, r, readings[1..]);
      } else {
        TakeKeeps(l, r);
      }
    }
  }

  /** Any number of acquires, one at a time, each with the readings it happens to see. */
  function Schedule(l: Limits, b: Bucket, calls: seq<seq<real>>): Bucket
    decreases |calls|
  {
    if calls == [] then b else Schedule(l, Acquired(l, b, calls[0]), calls[1..])
  }

  /** The clock never runs backwards over a schedule. */
  ghost predicate ClockOk(l: Limits, b: Bucket, calls: seq<seq<real>>)
    decreases |calls|
  {
    calls == [] || (Ticks(b.stamp, calls[0]) && ClockOk(l, Acquired(l, b, calls[0]), calls[1..]))
  }

  lemma {:induction false} ScheduleKeeps(l: Limits, b: Bucket, calls: seq<seq<real>>)
    requires Bounded(l, b) && Spaced(l, b.done) && ClockOk(l, b, calls)
    ensures Spaced(l, Schedule(l, b, calls).done)
    decreases |calls|
  {
    hide Bounded, Spaced;
    if calls != [] {
      AcquireKeeps(l, b, calls[0]);
      ScheduleKeeps(l, Acquired(l, b, calls[0]), calls[1..]);
    }
  }

  predicate InWindow(t: real, from: real) { from <= t <= from + 60.0 }

  /** How many completed acquires fall into the closed minute that starts at `from`. */
  function Count(done: seq<real>, from: real): nat {
    if done == [] then 0
    else Count(done[..|done| - 1], from) + if InWindow(done[|done| - 1], from) then 1 else 0
  }

  lemma {:induction false} NoneBefore(done: seq<real>, from: real, i: nat)
    requires i <= |done| && forall k :: 0 <= k < |done| && InWindow(done[k], from) ==> i <= k
    ensures Count(done, from) <= |done| - i
    decreases |done|
  {
    if |done| > i {
      NoneBefore(done[..|done| - 1], from, i);
    } else if done != [] {
      assert !InWindow(done[|done| - 1], from);
      NoneBefore(done[..|done| - 1], from, |done| - 1);
    }
  }

  /** Acquires in one window lie between the first and the last of them. */
  lemma {:induction false} CountFits(l: Limits, done: seq<real>, from: real)
    requires l.Valid() && Spaced(l, done)
    ensures Count(done, from) <= l.rate + l.burst
    decreases |done|
  {
    hide Spaced, InWindow;
    if done != [] {
      var last := |done| - 1;
      if InWindow(done[last], from) {
        if forall i :: 0 <= i < last ==> !InWindow(done[i], from) {
          NoneBefore(done, from, last);
        } else {
          var i := First(done, from);
          NoneBefore(done, from, i);
          RunFits(l, done, from, i);
        }
      } else {
        ShorterSpaced(l, done);
        CountFits(l, done[..last], from);
      }
    }
  }

  lemma ShorterSpaced(l: Limits, done: seq<real>)
    requires Spaced(l, done) && done != []
    ensures Spaced(l, done[..|done| - 1])
  {
  }

  lemma {:induction false} First(done: seq<real>, from: real) returns (i: nat)
    requires exists k :: 0 <= k < |done| && InWindow(done[k], from)
    ensures i < |done| && InWindow(done[i], from)
    ensures forall k :: 0 <= k < |done| && InWindow(done[k], from) ==> i <= k
  {
    i := 0;
    while !InWindow(done[i], from)
      invariant i < |done| && forall k :: 0 <= k < |done| && InWindow(done[k], from) ==> i <= k
      decreases |done| - i
    {
      i := i + 1;
    }
  }

  lemma RunFits(l: Limits, done: seq<real>, from: real, i: nat)
    requires l.Valid() && Spaced(l, done) && i < |done| && InWindow(done[i], from) && InWindow(done[|done| - 1], from)
    ensures |done| - i <= l.rate + l.burst
  {
    var j := |done| - 1;
    assert (j - i + 1) as real <= l.burst as real + l.Flow(done[i], done[j]) + EPSILON;
    WithinMinute(l, done[i], done[j]);
  }

  /** The acquires that are counted are those in the closed minute. */
  lemma {:induction false} CountIs(done: seq<real>, from: real)
    ensures Count(done, from) == |set i | 0 <= i < |done| && from <= done[i] && done[i] <= from + 60.0|
    decreases |done|
  {
    if done != [] {
      var n := |done| - 1;
      CountIs(done[..n], from);
      var before := set i | 0 <= i < |done[..n]| && from <= done[..n][i] && done[..n][i] <= from + 60.0;
      var all := set i | 0 <= i < |done| && from <= done[i] && done[i] <= from + 60.0;
      if n in all {
        assert all == before + {n};
      } else {
        assert all == before;
      }
    }
  }

  /** The promise of the bucket: in any closed 60 seconds at most rate + burst acquires complete, for every schedule,
      cancelled waits included. */
  lemma WindowBound(l: Limits, start: real, calls: seq<seq<real>>, from: real)
    requires l.Valid() && ClockOk(l, Bucket(l.burst as real, start, []), calls)
    ensures var done := Schedule(l, Bucket(l.burst as real, start, []), calls).done;
            |set i | 0 <= i < |done| && from <= done[i] && done[i] <= from + 60.0| <= l.rate + l.burst
  {
    var b := Bucket(l.burst as real, start, []);
    assert Bounded(l, b) && Spaced(l, b.done);
    ScheduleKeeps(l, b, calls);
    CountFits(l, Schedule(l, b, calls).done, from);
    CountIs(Schedule(l, b, calls).done, from);
  }

  // --- waiting --------------------------------------------------------------------------------------------------

  /** Every sleep lasts at least as long as was asked. */
  ghost predicate FullSleeps(l: Limits, b: Bucket, readings: seq<real>)
    requires l.Valid()
    decreases |readings|
  {
    |readings| >= 2 ==>
      var r := Refilled(l, b, readings[0]);
      MustWait(r) ==> readings[1] >= readings[0] + Asked(l, r) && FullSleeps(l, r, readings[1..])
  }

  /** The wait that is asked for is exactly as long as a whole token takes. */
  lemma WaitIsExact(l: Limits, b: Bucket, now: real)
    requires l.Valid() && MustWait(b)
    ensures Refilled(l, b, now).tokens >= 1.0 <==> now >= b.stamp + Asked(l, b)
  {
    var ps: real := l.PerSecond();
    var d, asked := now - b.stamp, Asked(l, b);
    Filled(b.tokens, d, ps);
    RefilledHasToken(l, b, now, d * ps);
    assert now >= b.stamp + asked <==> d >= asked;
  }

  lemma RefilledHasToken(l: Limits, b: Bucket, now: real, got: real)
    requires l.Valid() && got == l.Flow(b.stamp, now)
    ensures Refilled(l, b, now).tokens >= 1.0 <==> b.tokens + got >= 1.0
  {
    assert l.burst as real >= 1.0;
  }

  lemma Filled(tokens: real, d: real, ps: real)
    requires ps > 0.0
    ensures tokens + d * ps >= 1.0 <==> d >= (1.0 - tokens) / ps
  {
    var asked := (1.0 - tokens) / ps;
    assert asked * ps == 1.0 - tokens;
    if d < asked {
      Ordered(d, asked, ps);
    } else if d > asked {
      Ordered(asked, d, ps);
    }
  }

  lemma Ordered(x: real, y: real, p: real)
    requires x < y && p > 0.0
    ensures x * p < y * p
  {
  }

  /** A refill brings the rate, minute by minute, until the bucket is full. */
  lemma RefillIsTheRate(l: Limits, b: Bucket, now: real)
    requires l.Valid() && b.tokens <= l.burst as real && b.stamp <= now
    ensures var r := Refilled(l, b, now);
            && r.stamp == now && r.done == b.done
            && r.tokens <= l.burst as real
            && (r.tokens < l.burst as real ==> (r.tokens - b.tokens) * 60.0 == (now - b.stamp) * (l.rate as real))
            && (r.tokens - b.tokens) * 60.0 <= (now - b.stamp) * (l.rate as real)
  {
    var ps, d := l.PerSecond(), now - b.stamp;
    assert ps * 60.0 == l.rate as real;
    assert d * ps * 60.0 == d * (l.rate as real);
  }

  lemma SleepIsEnough(l: Limits, b: Bucket, now: real)
    requires l.Valid() && MustWait(b) && now >= b.stamp + Asked(l, b)
    ensures !MustWait(Refilled(l, b, now))
  {
    var ps := l.PerSecond();
    assert Asked(l, b) * ps == 1.0 - b.tokens;
    assert (now - b.stamp) * ps >= Asked(l, b) * ps;
  }

  /** With full sleeps an acquire sleeps at most once and then has its token. */
  lemma SleepsAtMostOnce(l: Limits, b: Bucket, readings: seq<real>)
    requires l.Valid() && FullSleeps(l, b, readings)
    ensures Sleeps(l, b, readings) <= 1
    ensures |readings| >= 2 ==> Acquired(l, b, readings).done != b.done
  {
    if readings != [] {
      var r := Refilled(l, b, readings[0]);
      if MustWait(r) && |readings| >= 2 {
        SleepIsEnough(l, r, readings[1]);
      }
      assert |readings| == 1 ==> readings[1..] == [];
    }
  }
}
