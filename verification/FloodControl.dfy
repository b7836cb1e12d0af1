/** The per-connection token bucket, with tokens and seconds as reals. */
module FloodControl {

  /** Tokens that come in over a stretch of time. */
  function Earned(rate: real, seconds: real): real {
    seconds * rate
  }

  datatype Bucket = Bucket(burst: real, rate: real, available: real, lastRefill: real) {
    ghost predicate Valid() {
      1.0 <= burst && 1.0 <= rate && 0.0 <= available <= burst
    }

    /** The bucket after the refill that precedes every attempt. */
    function Refilled(now: real): Bucket {
      if now <= lastRefill then this
      else
        var grown := available + Earned(rate, now - lastRefill);
        this.(available := if grown > burst then burst else grown, lastRefill := now)
    }

    predicate Grants(now: real) {
      Refilled(now).available >= 1.0
    }

    function Take(now: real): Bucket {
      var b := Refilled(now);
      if b.available < 1.0 then b else b.(available := b.available - 1.0)
    }
  }

  /** Non-positive parameters count as one. */
  function NewBucket(burst: int, refillPerSecond: int, now: real): (b: Bucket)
    ensures b.Valid() && b.available == b.burst && b.lastRefill == now
    ensures b.burst >= burst as real && b.rate >= refillPerSecond as real
    ensures (b.burst == burst as real <==> burst >= 1) && (b.rate == refillPerSecond as real <==> refillPerSecond >= 1)
  {
    var size := if burst <= 0 then 1 else burst;
    var rate := if refillPerSecond <= 0 then 1 else refillPerSecond;
    Bucket(size as real, rate as real, size as real, now)
  }

  class TokenBucket {
    var burst: real
    var refillRate: real
    var available: real
    var lastRefill: real

    function State(): Bucket
      reads this
    {
      Bucket(burst, refillRate, available, lastRefill)
    }

    constructor (burst: int, refillPerSecond: int, now: real)
      ensures State() == NewBucket(burst, refillPerSecond, now)
    {
      var b, r := burst, refillPerSecond;
      if b <= 0 {
        b := 1;
      }
      if r <= 0 {
        r := 1;
      }
      this.burst, refillRate, available, lastRefill := b as real, r as real, b as real, now;
    }

    method Take(now: real) returns (ok: bool)
      modifies this
      ensures State() == old(State()).Take(now) && ok == old(State()).Grants(now)
    {
      var elapsed := now - lastRefill;
      if elapsed > 0.0 {
        available := available + elapsed * refillRate;
        if available > burst {
          available := burst;
        }
        lastRefill := now;
      }
      if available < 1.0 {
        return false;
      }
      available := available - 1.0;
      ok := true;
    }
  }

  // ----- runs -----

  /** The bucket after attempts at these clock readings, which may go backwards. */
  function TakeAll(b: Bucket, clock: seq<real>): Bucket
    decreases |clock|
  {
    if clock == [] then b else TakeAll(b.Take(clock[0]), clock[1..])
  }

  function Granted(b: Bucket, clock: seq<real>): nat
    decreases |clock|
  {
    if clock == [] then 0 else (if b.Grants(clock[0]) then 1 else 0) + Granted(b.Take(clock[0]), clock[1..])
  }

  /** The largest of `start` and the readings. */
  function RunningMax(start: real, clock: seq<real>): (m: real)
    ensures m >= start && forall t :: t in clock ==> m >= t
    ensures m == start || m in clock
    decreases |clock|
  {
    if clock == [] then start
    else
      assert clock == [clock[0]] + clock[1..];
      RunningMax(if clock[0] > start then clock[0] else start, clock[1..])
  }

  /** The tokens of `b` and the refill up to `end` cover what is left at `end` and `spent` tokens. */
  ghost predicate Covers(b: Bucket, end: Bucket, spent: real) {
    end.available + spent <= b.available + Earned(b.rate, end.lastRefill - b.lastRefill)
  }

  ghost predicate SameKind(b: Bucket, end: Bucket) {
    end.burst == b.burst && end.rate == b.rate
  }

  lemma EarnedPositive(rate: real, seconds: real)
    requires rate >= 0.0 && seconds >= 0.0
    ensures Earned(rate, seconds) >= 0.0
  {
  }

  lemma EarnedSplit(rate: real, a: real, b: real, c: real)
    ensures Earned(rate, c - a) == Earned(rate, b - a) + Earned(rate, c - b)
  {
  }

  lemma EarnedNothing(rate: real)
    ensures Earned(rate, 0.0) == 0.0
  {
  }

  lemma RefillKeeps(b: Bucket, now: real)
    requires b.Valid()
    ensures b.Refilled(now).Valid() && SameKind(b, b.Refilled(now)) && Covers(b, b.Refilled(now), 0.0)
    ensures b.Refilled(now).lastRefill == if now > b.lastRefill then now else b.lastRefill
  {
    if now > b.lastRefill {
      EarnedPositive(b.rate, now - b.lastRefill);
    } else {
      EarnedNothing(b.rate);
    }
  }

  function Price(granted: bool): real {
    if granted then 1.0 else 0.0
  }

  lemma TakeKeeps(b: Bucket, now: real)
    requires b.Valid()
    ensures b.Take(now).Valid() && SameKind(b, b.Take(now)) && Covers(b, b.Take(now), Price(b.Grants(now)))
    ensures b.Take(now).lastRefill == if now > b.lastRefill then now else b.lastRefill
  {
    RefillKeeps(b, now);
  }

  lemma CoversTwice(b: Bucket, mid: Bucket, end: Bucket, first: real, rest: real)
    requires SameKind(b, mid) && Covers(b, mid, first) && Covers(mid, end, rest)
    ensures Covers(b, end, first + rest)
  {
    EarnedSplit(b.rate, b.lastRefill, mid.lastRefill, end.lastRefill);
  }

  /** Over any run tokens stay between zero and burst, lastRefill is the largest reading so far, and the
      tokens handed out and left over are covered by those at the start and the refill in between. */
  lemma {:induction false} RunIsBounded(b: Bucket, clock: seq<real>)
    requires b.Valid()
    ensures var end := TakeAll(b, clock);
            && end.Valid() && SameKind(b, end)
            && end.lastRefill == RunningMax(b.lastRefill, clock)
            && Covers(b, end, Granted(b, clock) as real)
    decreases |clock|
  {
    if clock != [] {
      TakeKeeps(b, clock[0]);
      var mid := b.Take(clock[0]);
      RunIsBounded(mid, clock[1..]);
      CoversTwice(b, mid, TakeAll(mid, clock[1..]), Price(b.Grants(clock[0])), Granted(mid, clock[1..]) as real);
    }
  }

  lemma {:induction false} MaxConcat(start: real, before: seq<real>, window: seq<real>)
    ensures RunningMax(start, before + window) == RunningMax(RunningMax(start, before), window)
    decreases |before|
  {
    if before == [] {
      assert before + window == window;
    } else {
      assert (before + window)[1..] == before[1..] + window;
      MaxConcat(if before[0] > start then before[0] else start, before[1..], window);
    }
  }

  /** What a bucket may hand out while the clock advances by `seconds`. */
  ghost predicate Allows(b: Bucket, granted: nat, seconds: real) {
    granted as real <= b.burst + Earned(b.rate, seconds)
  }

  lemma CoversAllows(b: Bucket, end: Bucket, granted: nat)
    requires b.Valid() && end.Valid() && Covers(b, end, granted as real)
    ensures Allows(b, granted, end.lastRefill - b.lastRefill)
  {
  }

  lemma AllowsAlike(b: Bucket, c: Bucket, granted: nat, seconds: real)
    requires SameKind(b, c) && Allows(c, granted, seconds)
    ensures Allows(b, granted, seconds)
  {
  }

  lemma WindowAllows(b: Bucket, before: seq<real>, window: seq<real>)
    requires b.Valid()
    ensures Allows(b, Granted(TakeAll(b, before), window),
                   RunningMax(b.lastRefill, before + window) - RunningMax(b.lastRefill, before))
  {
    RunIsBounded(b, before);
    MaxConcat(b.lastRefill, before, window);
    var mid := TakeAll(b, before);
    RunIsBounded(mid, window);
    var granted := Granted(mid, window);
    var end := TakeAll(mid, window);
    CoversAllows(mid, end, granted);
    AllowsAlike(b, mid, granted, end.lastRefill - mid.lastRefill);
  }

  lemma AllowsIs(b: Bucket, granted: nat, seconds: real)
    requires Allows(b, granted, seconds)
    ensures granted as real <= b.burst + b.rate * seconds
  {
  }

  /** In any window of any run, at most burst + rate * (advance of the highest clock reading) attempts
      succeed. A clock that runs backwards adds nothing. */
  lemma WindowBound(b: Bucket, before: seq<real>, window: seq<real>)
    requires b.Valid()
    ensures Granted(TakeAll(b, before), window) as real
         <= b.burst + b.rate * (RunningMax(b.lastRefill, before + window) - RunningMax(b.lastRefill, before))
  {
    hide Granted, TakeAll, RunningMax, Allows;
    WindowAllows(b, before, window);
    AllowsIs(b, Granted(TakeAll(b, before), window),
             RunningMax(b.lastRefill, before + window) - RunningMax(b.lastRefill, before));
  }

  lemma EarnedIs(rate: real, seconds: real)
    ensures Earned(rate, seconds) == rate * seconds
  {
  }

  /** Each reading is late enough after the highest one before it for a whole token. */
  predicate Paced(rate: real, start: real, clock: seq<real>)
    decreases |clock|
  {
    clock == [] || (clock[0] > start && rate * (clock[0] - start) >= 1.0 && Paced(rate, clock[0], clock[1..]))
  }

  lemma LateEnough(b: Bucket, now: real)
    requires b.Valid() && now > b.lastRefill && Earned(b.rate, now - b.lastRefill) >= 1.0
    ensures b.Grants(now)
  {
  }

  /** A client that never exceeds the refill rate is never held back. */
  lemma {:induction false} PacedNeverRefused(b: Bucket, clock: seq<real>)
    requires b.Valid() && Paced(b.rate, b.lastRefill, clock)
    ensures Granted(b, clock) == |clock|
    decreases |clock|
  {
    if clock != [] {
      EarnedIs(b.rate, clock[0] - b.lastRefill);
      LateEnough(b, clock[0]);
      TakeKeeps(b, clock[0]);
      PacedNeverRefused(b.Take(clock[0]), clock[1..]);
    }
  }
}
