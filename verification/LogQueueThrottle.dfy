/** The throttle of a queue as an object. */
module LogQueueThrottle {
  import opened Wrappers
  import opened Ints
  import T = TokenBucket

  class LogQueueThrottle {
    var throttle: int
    var throttleBuckets: int
    var lastThrottleCheck: nat
    ghost var popped: nat
    ghost var first: Option<nat>
    ghost var clock: nat

    /** log_queue_set_throttle */
    constructor (throttle: int)
      ensures State() == T.NewBucket(throttle)
    {
      this.throttle, throttleBuckets, lastThrottleCheck := throttle, throttle, 0;
      popped, first, clock := 0, None, 0;
    }

    ghost function State(): T.Bucket
      reads this
    {
      T.Bucket(throttle, throttleBuckets, lastThrottleCheck, popped, first, clock)
    }

    /** The part of log_queue_check_items about throttling, with elements in the queue;
        `timeout` is the time to wait in milliseconds if nothing may be sent. */
    method CheckItems(now: nat) returns (granted: bool, timeout: Option<int>)
      requires now >= clock >= lastThrottleCheck
      modifies this`throttleBuckets, this`lastThrottleCheck, this`first, this`clock
      ensures State() == T.Check(old(State()), now)
      ensures granted == T.Granted(State())
      ensures timeout == if granted then None else Some(T.Timeout(throttle))
      ensures old(T.Paid(State())) ==>
                && (T.Paid(State()) <==> old(T.InRange(State(), now)))
                && (T.Paid(State()) ==> popped <= T.Allowance(State(), now))
    {
      ghost var before := State();
      if throttle > 0 {
        var diff := 0;
        if lastThrottleCheck / T.NSEC_PER_SEC != 0 {
          diff := now - lastThrottleCheck;
        } else {
          lastThrottleCheck := now;
        }
        var newBuckets := T.Wrap32(T.Quotient(T.Wrap64(throttle * diff)));
        assert newBuckets == T.Wrap32(T.Earned(before, now));
        if newBuckets != 0 {
          throttleBuckets := Min(throttle, T.Wrap32(throttleBuckets + newBuckets));
          lastThrottleCheck := now;
        }
      }
      clock, first := now, if first.None? then Some(now) else first;
      granted := throttle <= 0 || throttleBuckets != 0;
      timeout := if granted then None else Some(1000 / throttle + 1);
      assert State() == T.Check(before, now);
      T.CheckKeepsRate(before, now);
    }

    /** log_queue_pop_head with a message in the queue. */
    method PopHead() returns (ok: bool)
      modifies this`throttleBuckets, this`popped
      ensures ok == old(T.CanPop(State())) && State() == T.Pop(old(State()))
      ensures old(T.Paid(State())) ==> T.Paid(State()) && (ok <==> old(throttleBuckets) > 0)
    {
      if throttle != 0 && throttleBuckets == 0 {
        return false;
      }
      popped := popped + 1;
      if throttleBuckets > 0 {
        throttleBuckets := throttleBuckets - 1;
      }
      return true;
    }
  }
}
