// crates/gb-network/src/rate_limit.rs: the token bucket in front of controller messages.
module RateLimiters {
  const TOKEN_SCALE := 1_000_000_000
  const U128_MAX := 0xffff_ffff_ffff_ffff_ffff_ffff_ffff_ffff

  type u64 = x: int | 0 <= x < 0x1_0000_0000_0000_0000

  function SaturatingAdd(x: nat, y: nat): nat {
    if x + y > U128_MAX then U128_MAX else x + y
  }

  function SaturatingMul(x: nat, y: nat): nat {
    if x * y > U128_MAX then U128_MAX else x * y
  }

  // Tokens in the unit the bucket counts: billionths.
  function Scaled(tokens: nat): nat {
    tokens * 1_000_000_000
  }

  function Min(x: int, y: int): int { if x < y then x else y }

  function Later(x: nat, y: nat): nat { if x < y then y else x }

  // A call, with the latest clock reading seen up to it and its outcome.
  datatype Call = Call(clock: nat, allowed: bool)

  datatype Limit = Limit(rate: nat, capacity: nat)

  function Refilled(limit: Limit, elapsed: int): int {
    elapsed * limit.rate
  }

  lemma RefilledAdds(limit: Limit, first: int, second: int)
    ensures Refilled(limit, first + second) == Refilled(limit, first) + Refilled(limit, second)
  {
  }

  lemma RefilledGrows(limit: Limit, elapsed: int, longer: int)
    requires elapsed <= longer
    ensures Refilled(limit, elapsed) <= Refilled(limit, longer)
    ensures Refilled(limit, 0) == 0
  {
  }

  function Taken(calls: seq<Call>, k: nat): nat
    requires k <= |calls|
    decreases |calls| - k
  {
    if k == |calls| then 0
    else (if calls[k].allowed then TOKEN_SCALE else 0) + Taken(calls, k + 1)
  }

  // What a window opening at call k still leaves at an instant: a full bucket, plus everything
  // refilled since, less everything taken since. Nothing is rounded.
  function Room(limit: Limit, calls: seq<Call>, k: nat, now: nat): int
    requires k <= |calls|
  {
    var since := if k < |calls| then calls[k].clock else now;
    limit.capacity + Refilled(limit, now - since) - Taken(calls, k)
  }

  // The window rule: a call may pass when no window that ends with it would exceed its room.
  ghost predicate Conforms(limit: Limit, calls: seq<Call>, now: nat) {
    forall k :: 0 <= k <= |calls| ==> TOKEN_SCALE <= Room(limit, calls, k, now)
  }

  // Every outcome in a history is the one the rule gives, and its clock never goes back.
  ghost predicate Regular(limit: Limit, calls: seq<Call>) {
    calls == [] ||
    var init, last := calls[..|calls| - 1], calls[|calls| - 1];
    && Regular(limit, init)
    && (last.allowed <==> Conforms(limit, init, last.clock))
    && (init != [] ==> init[|init| - 1].clock <= last.clock)
  }

  // The bucket is the least room any window leaves.
  ghost predicate IsLeastRoom(limit: Limit, calls: seq<Call>, now: nat, bucket: int) {
    && (forall k :: 0 <= k <= |calls| ==> bucket <= Room(limit, calls, k, now))
    && exists k :: 0 <= k <= |calls| && bucket == Room(limit, calls, k, now)
  }

  lemma LeastRoomDecides(limit: Limit, calls: seq<Call>, now: nat, bucket: int)
    requires IsLeastRoom(limit, calls, now, bucket)
    ensures Conforms(limit, calls, now) <==> TOKEN_SCALE <= bucket
  {
  }

  lemma {:induction false} TakenAppend(calls: seq<Call>, c: Call, k: nat)
    requires k <= |calls|
    ensures Taken(calls + [c], k) == Taken(calls, k) + (if c.allowed then TOKEN_SCALE else 0)
    decreases |calls| - k
  {
    if k < |calls| {
      TakenAppend(calls, c, k + 1);
    } else {
      assert Taken(calls + [c], k + 1) == 0;
    }
  }

  // Refilling in steps loses nothing: capping after each step is capping every window.
  lemma {:induction false} RefillStep(limit: Limit, calls: seq<Call>, earlier: nat, now: nat, bucket: int)
    requires IsLeastRoom(limit, calls, earlier, bucket) && earlier <= now
    ensures IsLeastRoom(limit, calls, now, Min(limit.capacity, bucket + Refilled(limit, now - earlier)))
  {
    RefilledGrows(limit, 0, now - earlier);
    hide Refilled;
    var refill := Refilled(limit, now - earlier);
    forall k | 0 <= k < |calls| ensures Room(limit, calls, k, now) == Room(limit, calls, k, earlier) + refill {
      RefilledAdds(limit, earlier - calls[k].clock, now - earlier);
    }
    assert Room(limit, calls, |calls|, now) == Room(limit, calls, |calls|, earlier) == limit.capacity;
    var k :| 0 <= k <= |calls| && bucket == Room(limit, calls, k, earlier);
    assert bucket + refill < limit.capacity ==> bucket + refill == Room(limit, calls, k, now);
  }

  // A call takes its token out of every window.
  lemma {:induction false} TakeStep(limit: Limit, calls: seq<Call>, c: Call, bucket: int)
    requires IsLeastRoom(limit, calls, c.clock, bucket)
    ensures IsLeastRoom(limit, calls + [c], c.clock, bucket - (if c.allowed then TOKEN_SCALE else 0))
  {
    RefilledGrows(limit, 0, 0);
    hide Refilled;
    var taken := if c.allowed then TOKEN_SCALE else 0;
    forall k | 0 <= k <= |calls|
      ensures Room(limit, calls + [c], k, c.clock) == Room(limit, calls, k, c.clock) - taken
    {
      TakenAppend(calls, c, k);
    }
    assert Room(limit, calls + [c], |calls| + 1, c.clock) == Room(limit, calls, |calls|, c.clock) == limit.capacity;
    var k :| 0 <= k <= |calls| && bucket == Room(limit, calls, k, c.clock);
    assert bucket - taken == Room(limit, calls + [c], k, c.clock);
  }

  // No window that ends with the last call exceeds its bound.
  lemma {:induction false} WindowBound(limit: Limit, calls: seq<Call>, i: nat)
    requires Regular(limit, calls) && i < |calls|
    ensures calls[i].clock <= calls[|calls| - 1].clock
    ensures Taken(calls, i) <= limit.capacity + Refilled(limit, calls[|calls| - 1].clock - calls[i].clock)
    decreases |calls|
  {
    var init, last := calls[..|calls| - 1], calls[|calls| - 1];
    assert calls == init + [last];
    TakenAppend(init, last, i);
    RefilledGrows(limit, 0, 0);
    hide Refilled;
    if i < |init| {
      WindowBound(limit, init, i);
      RefilledGrows(limit, init[|init| - 1].clock - calls[i].clock, last.clock - calls[i].clock);
    }
    if last.allowed {
      assert TOKEN_SCALE <= Room(limit, init, i, last.clock);
    }
  }

  lemma {:induction false} RegularPrefix(limit: Limit, calls: seq<Call>, j: nat)
    requires Regular(limit, calls) && j <= |calls|
    ensures Regular(limit, calls[..j])
    decreases |calls|
  {
    if j < |calls| {
      RegularPrefix(limit, calls[..|calls| - 1], j);
      assert calls[..|calls| - 1][..j] == calls[..j];
    } else {
      assert calls[..j] == calls;
    }
  }

  ghost predicate WithinLimit(limit: Limit, calls: seq<Call>) {
    forall i, j :: 0 <= i < j <= |calls| ==>
      Taken(calls[..j], i) <= limit.capacity + Refilled(limit, calls[j - 1].clock - calls[i].clock)
  }

  lemma EveryWindow(limit: Limit, calls: seq<Call>)
    requires Regular(limit, calls)
    ensures WithinLimit(limit, calls)
  {
    forall i, j | 0 <= i < j <= |calls|
      ensures Taken(calls[..j], i) <= limit.capacity + Refilled(limit, calls[j - 1].clock - calls[i].clock)
    {
      RegularPrefix(limit, calls, j);
      WindowBound(limit, calls[..j], i);
    }
  }

  // Neither saturation is ever felt: a sum past the range of u128 is past the capacity.
  lemma SaturationIsHarmless(available: nat, capacity: nat, elapsed: nat, rate: nat)
    requires available <= capacity < U128_MAX
    ensures Min(SaturatingAdd(available, SaturatingMul(elapsed, rate)), capacity) ==
            Min(capacity, available + elapsed * rate)
  {
  }

  class InputRateLimiter {
    var refillPerSecond: nat
    var capacity: nat
    var available: nat
    var lastRefill: nat
    ghost var calls: seq<Call>

    ghost function Limits(): Limit
      reads this
    {
      Limit(refillPerSecond, capacity)
    }

    ghost predicate Valid()
      reads this
    {
      && available <= capacity < U128_MAX
      && Regular(Limits(), calls)
      && IsLeastRoom(Limits(), calls, lastRefill, available)
      && (calls != [] ==> calls[|calls| - 1].clock == lastRefill)
    }

    constructor (refillPerSecond: u64, capacity: u64, start: nat)
      ensures Valid() && calls == [] && lastRefill == start
      ensures this.refillPerSecond == refillPerSecond && this.capacity == Scaled(capacity)
    {
      this.refillPerSecond := refillPerSecond;
      this.capacity := SaturatingMul(capacity, TOKEN_SCALE);
      available := SaturatingMul(capacity, TOKEN_SCALE);
      lastRefill := start;
      calls := [];
      new;
      RefilledGrows(Limits(), 0, 0);
      assert Room(Limits(), calls, 0, lastRefill) == this.capacity;
    }

    // A call passes exactly when the window rule lets it, judged by the latest clock reading; a
    // clock that goes backward counts as one that stands still.
    method Allow(now: nat) returns (allowed: bool)
      requires Valid()
      modifies this
      ensures Valid() && refillPerSecond == old(refillPerSecond) && capacity == old(capacity)
      ensures lastRefill == Later(old(lastRefill), now)
      ensures calls == old(calls) + [Call(lastRefill, allowed)]
      ensures allowed <==> Conforms(Limits(), old(calls), lastRefill)
      ensures Regular(Limits(), calls)
    {
      hide IsLeastRoom, Conforms, Regular, Refilled;
      ghost var clock := Later(lastRefill, now);
      RefillStep(Limits(), calls, lastRefill, clock, available);
      Refill(now);
      LeastRoomDecides(Limits(), calls, clock, available);
      RegularAppend(Limits(), calls, Call(clock, available >= TOKEN_SCALE));
      TakeStep(Limits(), calls, Call(clock, available >= TOKEN_SCALE), available);
      if available < TOKEN_SCALE {
        calls := calls + [Call(clock, false)];
        allowed := false;
      } else {
        available := available - TOKEN_SCALE;
        calls := calls + [Call(clock, true)];
        allowed := true;
      }
      assert Regular(Limits(), calls) && IsLeastRoom(Limits(), calls, lastRefill, available);
      assert allowed <==> Conforms(Limits(), old(calls), lastRefill);
    }

    method Refill(now: nat)
      requires available <= capacity < U128_MAX
      modifies this`available, this`lastRefill
      ensures lastRefill == Later(old(lastRefill), now)
      ensures available == Min(capacity, old(available) + Refilled(Limits(), lastRefill - old(lastRefill)))
    {
      if now >= lastRefill {
        var refill := SaturatingMul(now - lastRefill, refillPerSecond);
        SaturationIsHarmless(available, capacity, now - lastRefill, refillPerSecond);
        available := Min(SaturatingAdd(available, refill), capacity);
        lastRefill := now;
      }
    }
  }

  lemma RegularAppend(limit: Limit, calls: seq<Call>, c: Call)
    requires Regular(limit, calls)
    requires c.allowed <==> Conforms(limit, calls, c.clock)
    requires calls != [] ==> calls[|calls| - 1].clock <= c.clock
    ensures Regular(limit, calls + [c])
  {
  }

  // The clock readings a run of calls is judged by.
  function RunningMax(start: nat, clocks: seq<nat>, i: nat): nat
    requires i < |clocks|
  {
    Later(if i == 0 then start else RunningMax(start, clocks, i - 1), clocks[i])
  }

  // Each call carries the reading it was judged by.
  ghost predicate Stamped(start: nat, clocks: seq<nat>, calls: seq<Call>) {
    && |calls| == |clocks|
    && forall i :: 0 <= i < |calls| ==> calls[i].clock == RunningMax(start, clocks, i)
  }

  lemma {:induction false} RunningMaxOfPrefix(start: nat, clocks: seq<nat>, n: nat, i: nat)
    requires i < n <= |clocks|
    ensures RunningMax(start, clocks[..n], i) == RunningMax(start, clocks, i)
  {
    if i > 0 {
      RunningMaxOfPrefix(start, clocks, n, i - 1);
    }
  }

  lemma StampedStep(start: nat, clocks: seq<nat>, n: nat, calls: seq<Call>, last: nat, c: Call)
    requires n < |clocks| && Stamped(start, clocks[..n], calls)
    requires last == (if n == 0 then start else calls[n - 1].clock) && c.clock == Later(last, clocks[n])
    ensures Stamped(start, clocks[..n + 1], calls + [c])
  {
    forall i | 0 <= i <= n ensures (calls + [c])[i].clock == RunningMax(start, clocks[..n + 1], i) {
      RunningMaxOfPrefix(start, clocks, n + 1, i);
      if i < n {
        RunningMaxOfPrefix(start, clocks, n, i);
      } else if n > 0 {
        RunningMaxOfPrefix(start, clocks, n, n - 1);
      }
    }
  }

  // For every run of calls, with clocks in any order: each outcome is the one the window rule
  // gives, and so no window lets through more than its capacity and its refill.
  method Run(refillPerSecond: u64, capacity: u64, start: nat, clocks: seq<nat>) returns (calls: seq<Call>)
    ensures Stamped(start, clocks, calls)
    ensures Regular(Limit(refillPerSecond, Scaled(capacity)), calls)
    ensures WithinLimit(Limit(refillPerSecond, Scaled(capacity)), calls)
  {
    var limiter := new InputRateLimiter(refillPerSecond, capacity, start);
    calls := [];
    ghost var limit := Limit(refillPerSecond, Scaled(capacity));
    assert Stamped(start, clocks[..0], []);
    hide Regular, Refilled, InputRateLimiter.Valid, Stamped, WithinLimit;
    for n := 0 to |clocks|
      invariant fresh(limiter) && limiter.Valid()
      invariant limiter.Limits() == limit && Regular(limit, calls)
      invariant |calls| == n && calls == limiter.calls && Stamped(start, clocks[..n], calls)
      invariant limiter.lastRefill == if n == 0 then start else calls[n - 1].clock
    {
      ghost var last := limiter.lastRefill;
      var allowed := limiter.Allow(clocks[n]);
      StampedStep(start, clocks, n, calls, last, Call(limiter.lastRefill, allowed));
      calls := calls + [Call(limiter.lastRefill, allowed)];
    }
    assert clocks[..|clocks|] == clocks;
    EveryWindow(limit, calls);
    assert Regular(Limit(refillPerSecond, Scaled(capacity)), calls);
  }
}
