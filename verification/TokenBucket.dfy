/**
 The token bucket that throttles a destination queue (lib/logqueue.c,
 lib/logqueue.h).  Times are nanoseconds of a monotonic clock.  Products are kept
 in 64 bits and tokens in 32, both signed and wrapping around; a clock value
 within the first second counts as "never checked".
 */
module TokenBucket {
  import opened Wrappers
  import opened Ints

  const NSEC_PER_SEC := 1_000_000_000
  const TWO_31 := 0x8000_0000
  const TWO_32 := 0x1_0000_0000
  const TWO_63 := 0x8000_0000_0000_0000
  const TWO_64 := 0x1_0000_0000_0000_0000

  /** `last`: last_throttle_check.  `popped`: messages popped so far.  `first`: time of
      the first check, `clock`: time of the latest one. */
  datatype Bucket = Bucket(throttle: int, buckets: int, last: nat, popped: nat, first: Option<nat>, clock: nat)

  /** log_queue_set_throttle on a new queue */
  function NewBucket(throttle: int): Bucket { Bucket(throttle, throttle, 0, 0, None, 0) }

  /** What 32 and 64 bits keep of a number. */
  function Wrap32(x: int): int { if x % TWO_32 < TWO_31 then x % TWO_32 else x % TWO_32 - TWO_32 }

  function Wrap64(x: int): int { if x % TWO_64 < TWO_63 then x % TWO_64 else x % TWO_64 - TWO_64 }

  /** Division that rounds towards zero. */
  function Quotient(x: int): int { if x >= 0 then x / NSEC_PER_SEC else -(-x / NSEC_PER_SEC) }

  predicate NeverChecked(b: Bucket) { b.last / NSEC_PER_SEC == 0 }

  /** Time since the last check. */
  function Elapsed(b: Bucket, now: nat): nat
    requires now >= b.last
  {
    if NeverChecked(b) then 0 else now - b.last
  }

  /** The new tokens before they are stored in 32 bits. */
  function Earned(b: Bucket, now: nat): int
    requires now >= b.last
  {
    Quotient(Wrap64(b.throttle * Elapsed(b, now)))
  }

  /** log_queue_check_items, the part about throttling, with elements in the queue. */
  function Check(b: Bucket, now: nat): Bucket
    requires now >= b.clock >= b.last
  {
    var c := b.(clock := now, first := if b.first.None? then Some(now) else b.first);
    if b.throttle <= 0 then c
    else
      var more := Wrap32(Earned(b, now));
      var d := if NeverChecked(b) then c.(last := now) else c;
      if more == 0 then d
      else d.(buckets := Min(b.throttle, Wrap32(b.buckets + more)), last := now)
  }

  /** The queue may be read after a check. */
  predicate Granted(b: Bucket) { b.throttle <= 0 || b.buckets != 0 }

  /** How many milliseconds to wait otherwise. */
  function Timeout(throttle: int): (t: int)
    requires throttle > 0
    ensures t > 0
  {
    1000 / throttle + 1
  }

  predicate CanPop(b: Bucket) { b.throttle == 0 || b.buckets != 0 }

  /** log_queue_pop_head with a message in the queue */
  function Pop(b: Bucket): Bucket {
    if !CanPop(b) then b
    else b.(popped := b.popped + 1, buckets := if b.buckets > 0 then b.buckets - 1 else b.buckets)
  }

  datatype Event = CheckAt(now: nat) | PopOne

  predicate Enabled(b: Bucket, e: Event) { b.clock >= b.last && (e.CheckAt? ==> e.now >= b.clock) }

  function Next(b: Bucket, e: Event): Bucket
    requires Enabled(b, e)
  {
    if e.CheckAt? then Check(b, e.now) else Pop(b)
  }

  // ---------------------------------------------------------------------
  // One step
  // ---------------------------------------------------------------------

  /** What is allowed at time `t`. */
  function Allowance(b: Bucket, t: nat): int {
    b.throttle + if b.first.Some? && t >= b.first.value then b.throttle * (t - b.first.value) / NSEC_PER_SEC else 0
  }

  /** Tokens given out so far are paid for by the time up to the last check. */
  predicate Paid(b: Bucket) {
    && 0 < b.throttle < TWO_31 && 0 <= b.buckets <= b.throttle && b.last <= b.clock
    && match b.first
       case None => b.last == 0 && b.popped + b.buckets == b.throttle
       case Some(t0) =>
         t0 <= b.last && (b.popped + b.buckets - b.throttle) * NSEC_PER_SEC <= b.throttle * (b.last - t0)
  }

  /** The refilled bucket has a sum whose 32nd bit is clear. */
  predicate InRange(b: Bucket, now: nat)
    requires now >= b.last
  {
    (b.buckets + Earned(b, now)) % TWO_32 < TWO_31
  }

  lemma ModShift(x: int, m: int, k: int)
    requires m > 0
    ensures (x + k * m) % m == x % m
  {
    var q, r := x / m, x % m;
    assert x + k * m == (q + k) * m + r by { assert (q + k) * m == q * m + k * m; }
    ModUnique(x + k * m, m, q + k, r);
  }

  lemma MulAtLeast(d: int, m: int)
    requires m > 0
    ensures d >= 1 ==> d * m >= m
    ensures d <= -1 ==> d * m <= -m
  {
    if d >= 1 {
      assert (d - 1) * m >= 0;
    } else if d <= -1 {
      assert (-d - 1) * m >= 0;
    }
  }

  lemma ModUnique(x: int, m: int, q: int, r: int)
    requires m > 0 && 0 <= r < m && x == q * m + r
    ensures x % m == r
  {
    var d := x / m - q;
    assert x == (x / m) * m + x % m;
    assert d * m == r - x % m by { assert (x / m) * m - q * m == d * m; }
    MulAtLeast(d, m);
  }

  /** Stored in 64 signed bits, a number keeps its residue. */
  lemma WrapIsSigned(x: int)
    ensures -TWO_63 <= Wrap64(x) < TWO_63 && Wrap64(x) % TWO_64 == x % TWO_64
    ensures -TWO_31 <= Wrap32(x) < TWO_31 && Wrap32(x) % TWO_32 == x % TWO_32
  {
  }

  /** Narrowing the tokens before they are added makes no difference. */
  lemma WrapTwice(x: int, y: int)
    ensures Wrap32(x + Wrap32(y)) == Wrap32(x + y)
  {
    var k := (Wrap32(y) - y) / TWO_32;
    assert Wrap32(y) == y + k * TWO_32;
    ModShift(x + y, TWO_32, k);
  }

  lemma WrapNothing(x: nat, y: int)
    requires x < TWO_31 && Wrap32(y) == 0
    ensures Wrap32(x + y) == x
  {
    WrapTwice(x, y);
  }

  /** What a check of a positive throttle leaves in the bucket. */
  lemma CheckRefills(b: Bucket, now: nat)
    requires 0 < b.throttle && 0 <= b.buckets <= b.throttle < TWO_31 && now >= b.clock >= b.last
    ensures Check(b, now).buckets == Min(b.throttle, Wrap32(b.buckets + Earned(b, now)))
  {
    var earned := Earned(b, now);
    if Wrap32(earned) == 0 {
      WrapNothing(b.buckets, earned);
    } else {
      WrapTwice(b.buckets, earned);
    }
  }

  /** Wrapping around never adds tokens. */
  lemma EarnedIsPaid(b: Bucket, now: nat)
    requires b.throttle > 0 && now >= b.last
    ensures Wrap32(Earned(b, now)) * NSEC_PER_SEC <= b.throttle * Elapsed(b, now)
  {
    var x := b.throttle * Elapsed(b, now);
    assert x >= 0;
    WrapsBelow(x);
  }

  lemma WrapsBelow(x: nat)
    ensures Wrap32(Quotient(Wrap64(x))) * NSEC_PER_SEC <= x
  {
    var w := Wrap64(x);
    if w >= 0 {
      assert Quotient(w) * NSEC_PER_SEC <= w <= x;
      assert Wrap32(Quotient(w)) <= Quotient(w);
    } else {
      assert x >= TWO_63;
      assert Wrap32(Quotient(w)) < TWO_31;
    }
  }

  /** The time paid for so far and the time since are the time paid for now. */
  lemma PaidUpTo(b: Bucket, now: nat, t0: nat)
    requires b.throttle > 0 && t0 <= b.last <= now
    ensures b.throttle * (now - t0) == b.throttle * (b.last - t0) + b.throttle * (now - b.last)
    ensures b.throttle * (now - b.last) >= 0
  {
  }

  /** A check keeps the account exactly when the refilled bucket is in range. */
  lemma CheckIsPaidIff(b: Bucket, now: nat)
    requires Paid(b) && now >= b.clock
    ensures Paid(Check(b, now)) <==> InRange(b, now)
  {
    CheckRefills(b, now);
    if InRange(b, now) {
      CheckIsPaid(b, now);
    }
  }

  lemma CheckIsPaid(b: Bucket, now: nat)
    requires Paid(b) && now >= b.clock && InRange(b, now)
    ensures Paid(Check(b, now))
  {
    CheckRefills(b, now);
    RefillIsPaid(b, now);
    if b.first.Some? {
      PaidUpTo(b, now, b.first.value);
    }
  }

  lemma InRangeAdds(x: nat, y: int)
    requires x < TWO_31 && (x + y) % TWO_32 < TWO_31
    ensures 0 <= Wrap32(x + y) == x + Wrap32(y)
  {
    WrapTwice(x, y);
  }

  lemma RefillIsPaid(b: Bucket, now: nat)
    requires Paid(b) && now >= b.clock && InRange(b, now)
    ensures 0 <= Check(b, now).buckets <= b.buckets + Wrap32(Earned(b, now))
    ensures Wrap32(Earned(b, now)) * NSEC_PER_SEC <= b.throttle * Elapsed(b, now)
  {
    EarnedIsPaid(b, now);
    CheckRefills(b, now);
    InRangeAdds(b.buckets, Earned(b, now));
  }

  lemma PopIsPaid(b: Bucket)
    requires Paid(b)
    ensures Paid(Pop(b))
  {
  }

  /** Paid tokens keep the rate. */
  lemma PaidKeepsRate(b: Bucket, t: nat)
    requires Paid(b) && t >= b.clock
    ensures b.popped <= Allowance(b, t)
  {
    if b.first.Some? {
      PaidUpTo(b, t, b.first.value);
      assert (b.popped - b.throttle) * NSEC_PER_SEC <= b.throttle * (t - b.first.value);
    }
  }

  lemma CheckKeepsRate(b: Bucket, now: nat)
    requires now >= b.clock >= b.last
    ensures Paid(b) ==> (Paid(Check(b, now)) <==> InRange(b, now))
    ensures Paid(b) && InRange(b, now) ==> b.popped <= Allowance(Check(b, now), now)
  {
    if Paid(b) {
      CheckIsPaidIff(b, now);
      if InRange(b, now) {
        PaidKeepsRate(Check(b, now), now);
      }
    }
  }

  // ---------------------------------------------------------------------
  // Runs
  // ---------------------------------------------------------------------

  /** The clock does not go back. */
  predicate Monotone(b: Bucket, events: seq<Event>)
    decreases |events|
  {
    events == [] || (Enabled(b, events[0]) && Monotone(Next(b, events[0]), events[1..]))
  }

  function Run(b: Bucket, events: seq<Event>): Bucket
    requires Monotone(b, events)
    decreases |events|
  {
    if events == [] then b else Run(Next(b, events[0]), events[1..])
  }

  /** Every check finds its refilled bucket in range. */
  predicate AllInRange(b: Bucket, events: seq<Event>)
    requires Monotone(b, events)
    decreases |events|
  {
    events == []
    || ((events[0].CheckAt? ==> InRange(b, events[0].now)) && AllInRange(Next(b, events[0]), events[1..]))
  }

  lemma {:induction false} RunIsPaid(b: Bucket, events: seq<Event>)
    requires Paid(b) && Monotone(b, events) && AllInRange(b, events)
    ensures Paid(Run(b, events)) && Run(b, events).throttle == b.throttle
    decreases |events|
  {
    if events == [] {
    } else {
      if events[0].CheckAt? {
        CheckIsPaid(b, events[0].now);
      } else {
        PopIsPaid(b);
      }
      RunIsPaid(Next(b, events[0]), events[1..]);
    }
  }

  /** Over any run whose checks stay in range, at most
      throttle + floor(throttle * (t - t0) / 10^9) messages are popped by time t, where
      t0 is the time of the first check. */
  lemma RateBound(throttle: int, events: seq<Event>, t: nat)
    requires 0 < throttle < TWO_31 && Monotone(NewBucket(throttle), events) && AllInRange(NewBucket(throttle), events)
    requires t >= Run(NewBucket(throttle), events).clock
    ensures var b := Run(NewBucket(throttle), events);
            b.popped <= throttle + if b.first.Some? && t >= b.first.value
                                   then throttle * (t - b.first.value) / NSEC_PER_SEC else 0
  {
    RunIsPaid(NewBucket(throttle), events);
    PaidKeepsRate(Run(NewBucket(throttle), events), t);
  }

  function PopCount(events: seq<Event>): nat
    decreases |events|
  {
    if events == [] then 0 else (if events[0].PopOne? then 1 else 0) + PopCount(events[1..])
  }

  /** Without a positive throttle every check grants and every pop takes a message. */
  lemma {:induction false} UnthrottledNeverBlocks(b: Bucket, events: seq<Event>)
    requires b.throttle <= 0 && b.buckets == b.throttle && Monotone(b, events)
    ensures var r := Run(b, events);
            && r.popped == b.popped + PopCount(events)
            && r.buckets == r.throttle == b.throttle && Granted(r) && CanPop(r)
    decreases |events|
  {
    if events == [] {
    } else {
      UnthrottledNeverBlocks(Next(b, events[0]), events[1..]);
    }
  }

  // ---------------------------------------------------------------------
  // Out of range
  // ---------------------------------------------------------------------

  function Pops(n: nat): seq<Event> { if n == 0 then [] else [PopOne] + Pops(n - 1) }

  lemma {:induction false} PopsRun(b: Bucket, n: nat)
    requires b.clock >= b.last
    ensures Monotone(b, Pops(n)) && AllInRange(b, Pops(n))
    ensures Run(b, Pops(n)).clock == b.clock && Run(b, Pops(n)).first == b.first && Run(b, Pops(n)).throttle == b.throttle
    decreases n
  {
    if n == 0 {
    } else {
      PopsRun(Pop(b), n - 1);
      assert Pops(n)[1..] == Pops(n - 1);
    }
  }

  /** A bucket below zero lets everything through. */
  lemma {:induction false} BelowZeroIsUnlimited(b: Bucket, n: nat)
    requires b.buckets < 0 && b.clock >= b.last
    ensures Monotone(b, Pops(n)) && Run(b, Pops(n)).popped == b.popped + n
    decreases n
  {
    if n == 0 {
    } else {
      BelowZeroIsUnlimited(Pop(b), n - 1);
      assert Pops(n)[1..] == Pops(n - 1);
    }
  }

  predicate Bounded(b: Bucket) { b.popped <= Allowance(b, b.clock) }

  /** A check out of range is followed by more pops than the rate allows. */
  lemma OutOfRangeBreaksRate(b: Bucket, now: nat, n: nat)
    requires Paid(b) && now >= b.clock && !InRange(b, now) && n > Allowance(Check(b, now), now)
    ensures Monotone(Check(b, now), Pops(n)) && !Bounded(Run(Check(b, now), Pops(n)))
  {
    var c := Check(b, now);
    CheckRefills(b, now);
    BelowZeroIsUnlimited(c, n);
    PopsRun(c, n);
  }

  /** The bound holds at every point of the run, and would hold there however often the
      queue is read next. */
  ghost predicate AlwaysBounded(b: Bucket, events: seq<Event>)
    requires Monotone(b, events)
    decreases |events|
  {
    && (forall n: nat :: Monotone(b, Pops(n)) ==> Bounded(Run(b, Pops(n))))
    && (events != [] ==> AlwaysBounded(Next(b, events[0]), events[1..]))
  }

  lemma PaidIsBounded(b: Bucket)
    requires Paid(b)
    ensures forall n: nat :: Monotone(b, Pops(n)) ==> Bounded(Run(b, Pops(n)))
  {
    forall n: nat ensures Monotone(b, Pops(n)) ==> Bounded(Run(b, Pops(n))) {
      PopsRun(b, n);
      RunIsPaid(b, Pops(n));
      PaidKeepsRate(Run(b, Pops(n)), b.clock);
    }
  }

  lemma {:induction false} BoundedFromIff(b: Bucket, events: seq<Event>)
    requires Paid(b) && Monotone(b, events)
    ensures AlwaysBounded(b, events) <==> AllInRange(b, events)
    decreases |events|
  {
    PaidIsBounded(b);
    if events == [] {
    } else if events[0].PopOne? {
      PopIsPaid(b);
      BoundedFromIff(Pop(b), events[1..]);
    } else if InRange(b, events[0].now) {
      CheckIsPaid(b, events[0].now);
      BoundedFromIff(Check(b, events[0].now), events[1..]);
    } else {
      var c := Check(b, events[0].now);
      var n := Max(0, Allowance(c, events[0].now) + 1);
      OutOfRangeBreaksRate(b, events[0].now, n);
      assert !AlwaysBounded(c, events[1..]);
    }
  }

  /** The rate is kept throughout a run, and whatever is popped next, if and only if
      every check of the run finds its refilled bucket in range. */
  lemma RateBoundIff(throttle: int, events: seq<Event>)
    requires 0 < throttle < TWO_31 && Monotone(NewBucket(throttle), events)
    ensures AlwaysBounded(NewBucket(throttle), events) <==> AllInRange(NewBucket(throttle), events)
  {
    BoundedFromIff(NewBucket(throttle), events);
  }

  /** One million messages a second, and 2147.483648 seconds without a check: after
      that, any number of messages is let through at once. */
  lemma LongPauseExceedsRate(n: nat)
    ensures var b := Check(NewBucket(1_000_000), NSEC_PER_SEC);
            var c := Check(b, NSEC_PER_SEC + 2_147_483_648_000);
            && Allowance(c, c.clock) == 2_148_483_648
            && Monotone(c, Pops(n)) && Run(c, Pops(n)).popped == n
  {
    var b := Check(NewBucket(1_000_000), NSEC_PER_SEC);
    assert b == Bucket(1_000_000, 1_000_000, NSEC_PER_SEC, 0, Some(NSEC_PER_SEC), NSEC_PER_SEC);
    var c := Check(b, NSEC_PER_SEC + 2_147_483_648_000);
    assert c.buckets == 1_000_000 - TWO_31 && c.popped == 0;
    BelowZeroIsUnlimited(c, n);
  }

  // ---------------------------------------------------------------------
  // Waiting
  // ---------------------------------------------------------------------

  lemma TimeoutIsEnough(throttle: nat)
    requires throttle > 0
    ensures throttle * Timeout(throttle) > 1000
  {
    var q, r := 1000 / throttle, 1000 % throttle;
    assert 1000 == throttle * q + r;
    assert throttle * (q + 1) == throttle * q + throttle;
  }

  lemma WaitedEnough(throttle: nat, last: nat, asked: nat, now: nat)
    requires throttle > 0 && last <= asked && now >= asked + Timeout(throttle) * 1_000_000
    ensures throttle * (now - last) >= NSEC_PER_SEC
  {
    var w := Timeout(throttle);
    TimeoutIsEnough(throttle);
    var extra := now - last - w * 1_000_000;
    assert throttle * (now - last) == throttle * (w * 1_000_000 + extra) == throttle * w * 1_000_000 + throttle * extra;
    assert throttle * extra >= 0;
  }

  lemma WrapShort(x: nat)
    requires NSEC_PER_SEC <= x < TWO_32 * NSEC_PER_SEC
    ensures Wrap32(Quotient(Wrap64(x))) != 0
  {
    assert Wrap64(x) == x;
    assert 1 <= Quotient(x) < TWO_32;
  }

  lemma WrapZero(x: int)
    ensures Wrap32(x) == 0 <==> x % TWO_32 == 0
  {
  }

  lemma NeverEarns(b: Bucket, now: nat)
    requires now >= b.last && NeverChecked(b)
    ensures Earned(b, now) == 0
  {
    assert b.throttle * 0 == 0;
  }

  /** An empty bucket grants a message after a check exactly when the tokens earned
      meanwhile are no multiple of 2^32. */
  lemma GrantedIff(b: Bucket, now: nat)
    requires 0 < b.throttle < TWO_31 && b.buckets == 0 && now >= b.clock >= b.last
    ensures Granted(Check(b, now)) <==> Earned(b, now) % TWO_32 != 0
  {
    CheckRefills(b, now);
    WrapZero(Earned(b, now));
  }

  /** After waiting for the returned timeout, and for less than 2^32 / throttle seconds,
      the next check grants a message exactly when the last check was not within the
      first second of the clock. */
  lemma WaitEarnsIff(b: Bucket, now: nat)
    requires 0 < b.throttle < TWO_31 && b.buckets == 0 && b.clock >= b.last
    requires now >= b.clock + Timeout(b.throttle) * 1_000_000
    requires b.throttle * (now - b.last) < TWO_32 * NSEC_PER_SEC
    ensures Granted(Check(b, now)) <==> !NeverChecked(b)
  {
    GrantedIff(b, now);
    if NeverChecked(b) {
      NeverEarns(b, now);
    } else {
      WaitedEnough(b.throttle, b.last, b.clock, now);
      ShortWaitEarns(b, now);
    }
  }

  lemma ShortWaitEarns(b: Bucket, now: nat)
    requires now >= b.last && !NeverChecked(b)
    requires NSEC_PER_SEC <= b.throttle * (now - b.last) < TWO_32 * NSEC_PER_SEC
    ensures Earned(b, now) % TWO_32 != 0
  {
    WrapShort(b.throttle * (now - b.last));
    WrapZero(Earned(b, now));
  }

  /** A check that earns nothing is as if it had not been: the fraction of a token that
      was earned is not lost. */
  lemma IdleCheckIsForgotten(b: Bucket, t1: nat, t2: nat)
    requires 0 < b.throttle && b.clock >= b.last && !NeverChecked(b) && t2 >= t1 >= b.clock
    requires Wrap32(Earned(b, t1)) == 0
    ensures Check(b, t1) == b.(clock := t1, first := Check(b, t1).first)
    ensures Check(Check(b, t1), t2).buckets == Check(b, t2).buckets
    ensures Check(Check(b, t1), t2).last == Check(b, t2).last
  {
  }

  predicate AllChecks(events: seq<Event>) { forall k :: 0 <= k < |events| ==> events[k].CheckAt? }

  /** Some check of the run grants a message. */
  predicate SomeGranted(b: Bucket, events: seq<Event>)
    requires Monotone(b, events)
    decreases |events|
  {
    events != [] && (Granted(Next(b, events[0])) || SomeGranted(Next(b, events[0]), events[1..]))
  }

  lemma {:induction false} WaitedAnyway(b: Bucket, events: seq<Event>, from: nat)
    requires 0 < b.throttle < TWO_31 && b.buckets == 0 && b.clock >= b.last && !NeverChecked(b) && b.last <= from
    requires events != [] && AllChecks(events) && Monotone(b, events)
    requires var now := events[|events| - 1].now;
             && now >= from + Timeout(b.throttle) * 1_000_000
             && 0 <= b.throttle * (now - b.last) < TWO_32 * NSEC_PER_SEC
    ensures SomeGranted(b, events)
    decreases |events|
  {
    var t := events[0].now;
    if |events| == 1 {
      WaitedEnough(b.throttle, b.last, from, t);
      ShortWaitEarns(b, t);
      GrantedIff(b, t);
    } else if !Granted(Check(b, t)) {
      GrantedIff(b, t);
      MonotoneLast(Check(b, t), events[1..]);
      WrapZero(Earned(b, t));
      IdleCheckIsForgotten(b, t, t);
      WaitedAnyway(Check(b, t), events[1..], from);
    }
  }

  lemma {:induction false} MonotoneLast(b: Bucket, events: seq<Event>)
    requires AllChecks(events) && Monotone(b, events) && events != []
    ensures events[|events| - 1].now >= b.clock
    decreases |events|
  {
    if |events| == 1 {
    } else {
      MonotoneLast(Check(b, events[0].now), events[1..]);
    }
  }

  /** With any number of checks in between, waiting for the returned timeout, and for less
      than 2^32 / throttle seconds, earns a message: some check up to the last one grants
      it. */
  lemma WaitEarnsOverRuns(b: Bucket, events: seq<Event>)
    requires 0 < b.throttle < TWO_31 && b.buckets == 0 && b.clock >= b.last && !NeverChecked(b)
    requires events != [] && AllChecks(events) && Monotone(b, events)
    requires var now := events[|events| - 1].now;
             && now >= b.clock + Timeout(b.throttle) * 1_000_000
             && 0 <= b.throttle * (now - b.last) < TWO_32 * NSEC_PER_SEC
    ensures SomeGranted(b, events)
  {
    WaitedAnyway(b, events, b.clock);
  }

  /** One message a second, first checked half a second after the clock started: the
      message that was waited for is not granted. */
  lemma FirstSecondWaitsInVain()
    ensures var b := Pop(Check(NewBucket(1), 500_000_000));
            && b.popped == 1 && !CanPop(b)
            && !Granted(Check(b, 500_000_000 + Timeout(1) * 1_000_000))
  {
  }
}
