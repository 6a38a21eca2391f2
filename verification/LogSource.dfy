/**
 A source and its window pool as objects, with the methods of lib/logsource.c,
 lib/dynamic-window.c and lib/dynamic-window-pool.c that change them.
 */
module LogSource {
  import FC = FlowControl

  class DynamicWindowPool {
    const poolSize: nat
    var freeWindow: int
    var balancedWindow: nat

    /** dynamic_window_pool_new and dynamic_window_pool_init */
    constructor (size: nat, balanced: nat)
      ensures State() == FC.Pool(size, size, balanced)
    {
      poolSize, freeWindow, balancedWindow := size, size, balanced;
    }

    function State(): FC.Pool
      reads this
    {
      FC.Pool(poolSize, freeWindow, balancedWindow)
    }

    /** dynamic_window_pool_request */
    method Request(requested: nat) returns (offered: nat)
      requires freeWindow >= 0
      modifies this`freeWindow
      ensures offered == FC.Offered(old(State()), requested) <= requested
      ensures freeWindow == old(freeWindow) - offered && freeWindow >= 0
    {
      offered := if freeWindow < requested then freeWindow else requested;
      freeWindow := freeWindow - offered;
    }

    /** dynamic_window_pool_release; `ok` is the assertion at its end. */
    method ReleaseWindow(amount: int) returns (ok: bool)
      modifies this`freeWindow
      ensures State() == FC.Release(old(State()), amount) && ok == FC.ReleaseOk(old(State()), amount)
    {
      freeWindow := freeWindow + amount;
      ok := freeWindow <= poolSize;
    }
  }

  class LogSource {
    const pool: DynamicWindowPool
    const initialWindowSize: nat
    var fullWindowSize: int
    var windowSize: int
    var suspended: bool
    var toBeReclaimed: int
    var pendingReclaimed: int
    var wakeups: nat
    ghost var inFlight: nat
    ghost var halves: seq<FC.Half>
    ghost var turn: FC.Turn

    constructor (pool: DynamicWindowPool, init: nat)
      ensures this.pool == pool && State() == FC.NewSource(init)
    {
      this.pool := pool;
      initialWindowSize, fullWindowSize, windowSize := init, init, init;
      suspended, toBeReclaimed, pendingReclaimed, wakeups := false, 0, 0, 0;
      inFlight, halves, turn := 0, [], FC.Idle;
    }

    ghost function State(): FC.Source
      reads this
    {
      FC.Source(initialWindowSize, fullWindowSize, windowSize, suspended, toBeReclaimed, pendingReclaimed,
                inFlight, halves, turn, wakeups)
    }

    /** Every credit of the source is accounted for. */
    ghost predicate Valid()
      reads this, pool
    {
      FC.Credited(State()) && pool.freeWindow >= 0
    }

    /** log_source_post: the caller checked that the source is free to send. */
    method Post()
      requires Valid() && turn.Idle? && FC.FreeToSend(State())
      modifies this`windowSize, this`inFlight
      ensures Valid() && State() == FC.Post(old(State())) && windowSize >= 0
    {
      windowSize, inFlight := windowSize - 1, inFlight + 1;
    }

    // -------------------------------------------------------------------
    // An acknowledgement, one access to a shared counter at a time
    // -------------------------------------------------------------------

    /** _take_reclaimed_window up to its first atomic operation. */
    method TakeReclaimed(increment: nat, lastSuspended: bool) returns (reclaimed: nat, remaining: nat)
      requires Valid() && increment <= inFlight
      modifies this`toBeReclaimed, this`inFlight, this`halves
      ensures Valid() && State() == FC.BeginAck(old(State()), increment, lastSuspended)
      ensures State().halves == old(halves) + [FC.Half(reclaimed, remaining, lastSuspended)]
      ensures FC.AckKeeps(old(State()), State())
    {
      FC.BeginAckKeeps(State(), increment, lastSuspended);
      var before := toBeReclaimed;
      toBeReclaimed := before - increment;
      remaining := if before <= 0 then increment else if increment - before > 0 then increment - before else 0;
      reclaimed := increment - remaining;
      inFlight, halves := inFlight - increment, halves + [FC.Half(reclaimed, remaining, lastSuspended)];
    }

    /** _take_reclaimed_window: its second atomic operation. */
    method BookReclaimed(ghost k: nat, reclaimed: nat)
      requires Valid() && k < |halves| && halves[k].reclaimed == reclaimed
      modifies this`pendingReclaimed, this`halves
      ensures Valid() && State() == FC.BookAck(old(State()), k)
      ensures FC.AckKeeps(old(State()), State())
    {
      FC.BookAckKeeps(State(), k);
      pendingReclaimed := pendingReclaimed + reclaimed;
      halves := halves[k := halves[k].(reclaimed := 0)];
    }

    /** The rest of _flow_control_window_size_adjust. */
    method ReturnWindow(ghost k: nat, remaining: nat, lastSuspended: bool)
      requires Valid() && k < |halves| && halves[k] == FC.Half(0, remaining, lastSuspended)
      modifies this`windowSize, this`suspended, this`wakeups, this`halves
      ensures Valid() && State() == FC.EndAck(old(State()), k)
      ensures FC.AckKeeps(old(State()), State())
    {
      FC.EndAckKeeps(State(), k);
      var oldWindow, wasSuspended := windowSize, suspended || windowSize == 0;
      windowSize := windowSize + remaining;
      var resume := !lastSuspended && wasSuspended;
      if resume {
        suspended := false;
      }
      if oldWindow == 0 || resume {
        wakeups := wakeups + 1;
      }
      halves := halves[..k] + halves[k + 1..];
    }

    /** _flow_control_window_size_adjust with nobody in between. */
    method FlowControlAdjust(increment: nat, lastSuspended: bool)
      requires Valid() && increment <= inFlight
      modifies this
      ensures Valid() && turn == old(turn)
      ensures var k := old(|halves|);
              State() == FC.EndAck(FC.BookAck(FC.BeginAck(old(State()), increment, lastSuspended), k), k)
      ensures FC.Covered(old(State())) ==> FC.Covered(State())
    {
      ghost var k := |halves|;
      var reclaimed, remaining := TakeReclaimed(increment, lastSuspended);
      if reclaimed > 0 {
        BookReclaimed(k, reclaimed);
      } else {
        assert halves[k := halves[k].(reclaimed := 0)] == halves;
      }
      ReturnWindow(k, remaining, lastSuspended);
    }

    /** log_source_flow_control_suspend */
    method Suspend()
      requires Valid()
      modifies this`suspended
      ensures Valid() && State() == old(State()).(suspended := true)
    {
      suspended := true;
    }

    // -------------------------------------------------------------------
    // Rebalancing, one access to a shared counter at a time
    // -------------------------------------------------------------------

    /** What every step of the rebalancing promises: it is the next one. */
    twostate predicate Advanced(ok: bool)
      reads this, pool
    {
      var r := FC.Advance(old(State()), old(pool.State()));
      State() == r.source && pool.State() == r.pool && ok == r.ok
    }

    /** _reclaim_window_instead_of_rebalance: its first read. */
    method CollectPending() returns (total: int)
      requires Valid() && turn.Idle?
      modifies this`pendingReclaimed, this`turn
      ensures Valid() && Advanced(true) && turn == FC.Collected(total)
    {
      FC.AdvanceCredits(State(), pool.State());
      total := pendingReclaimed;
      pendingReclaimed := 0;
      turn := FC.Collected(total);
    }

    /** _reclaim_window_instead_of_rebalance: its second read, and what goes to the pool. */
    method InspectReclaim(total: int) returns (inProgress: bool, negative: bool, ok: bool)
      requires Valid() && turn == FC.Collected(total)
      modifies this`fullWindowSize, this`turn, pool
      ensures Valid() && Advanced(ok)
      ensures turn == if inProgress then FC.Idle else if negative then FC.Clearing else FC.Balancing
      ensures inProgress ==> !negative
    {
      FC.AdvanceCredits(State(), pool.State());
      var seen := toBeReclaimed;
      inProgress, negative, ok := seen > 0, total <= 0 && seen < 0, true;
      if total > 0 {
        fullWindowSize := fullWindowSize - total;
        ok := pool.ReleaseWindow(total);
      }
      turn := if inProgress then FC.Idle else if negative then FC.Clearing else FC.Balancing;
    }

    /** _reclaim_window_instead_of_rebalance: what is to be reclaimed never stays negative. */
    method ClearReclaim()
      requires Valid() && turn.Clearing?
      modifies this`toBeReclaimed, this`turn
      ensures Valid() && Advanced(true) && turn == FC.Balancing
    {
      FC.AdvanceCredits(State(), pool.State());
      toBeReclaimed := 0;
      turn := FC.Balancing;
    }

    /** _inc_balanced up to the change of the window. */
    method RequestWindow(inc: nat) returns (offered: nat)
      requires Valid() && turn.Balancing? && inc == pool.balancedWindow - (fullWindowSize - initialWindowSize) && inc > 0
      modifies this`fullWindowSize, this`turn, pool
      ensures Valid() && Advanced(true) && turn == FC.Growing(offered)
    {
      FC.AdvanceCredits(State(), pool.State());
      offered := pool.Request(inc);
      fullWindowSize := fullWindowSize + offered;
      turn := FC.Growing(offered);
    }

    /** The rest of _inc_balanced. */
    method GrowWindow(offered: nat)
      requires Valid() && turn == FC.Growing(offered)
      modifies this`windowSize, this`wakeups, this`turn
      ensures Valid() && Advanced(true) && turn == FC.Idle
    {
      FC.AdvanceCredits(State(), pool.State());
      var oldWindow := windowSize;
      windowSize := windowSize + offered;
      if oldWindow == 0 && offered != 0 {
        wakeups := wakeups + 1;
      }
      turn := FC.Idle;
    }

    /** _dec_balanced: the free window is read. */
    method ReadWindow(dec: nat) returns (emptyWindow: nat)
      requires Valid() && turn.Balancing? && dec == fullWindowSize - initialWindowSize - pool.balancedWindow && dec > 0
      modifies this`turn
      ensures Valid() && Advanced(true) && turn == FC.Shrinking(dec, emptyWindow)
    {
      FC.AdvanceCredits(State(), pool.State());
      emptyWindow := windowSize;
      turn := FC.Shrinking(dec, emptyWindow);
    }

    /** _reclaim_dynamic_window, and how much is left for now. */
    method ReclaimDynamic(dec: nat, emptyWindow: nat) returns (now: nat, ok: bool)
      requires Valid() && turn == FC.Shrinking(dec, emptyWindow)
      modifies this`toBeReclaimed, this`turn
      ensures Valid() && Advanced(ok) && turn == FC.Cutting(now)
    {
      FC.AdvanceCredits(State(), pool.State());
      now, ok := dec, true;
      if emptyWindow <= dec {
        var rest := dec - emptyWindow;
        now := if emptyWindow == 0 then 0 else emptyWindow - 1;
        ok := fullWindowSize - rest >= initialWindowSize;
        toBeReclaimed := rest;
      }
      turn := FC.Cutting(now);
    }

    /** The rest of _dec_balanced. */
    method CutWindow(now: nat) returns (ok: bool)
      requires Valid() && turn == FC.Cutting(now)
      modifies this`windowSize, this`fullWindowSize, this`turn, pool
      ensures Valid() && Advanced(ok) && turn == FC.Idle
    {
      FC.AdvanceCredits(State(), pool.State());
      ok := windowSize >= now;
      windowSize := windowSize - now;
      fullWindowSize := fullWindowSize - now;
      var released := pool.ReleaseWindow(now);
      ok := ok && released;
      turn := FC.Idle;
    }

    /** _reclaim_window_instead_of_rebalance with nobody in between. */
    method ReclaimInstead() returns (inProgress: bool, ok: bool)
      requires Valid() && turn.Idle?
      modifies this, pool
      ensures Valid() && turn == if inProgress then FC.Idle else FC.Balancing
      ensures FC.Complete(FC.Result(State(), pool.State(), ok)) == FC.Realloc(old(State()), old(pool.State()))
    {
      var total := CollectPending();
      ghost var collected := FC.Result(State(), pool.State(), true);
      var negative;
      inProgress, negative, ok := InspectReclaim(total);
      ghost var inspected := FC.Result(State(), pool.State(), ok);
      FC.CompleteStep(collected, inspected);
      if negative {
        ClearReclaim();
        FC.CompleteStep(inspected, FC.Result(State(), pool.State(), true));
      }
    }

    /** _inc_balanced with nobody in between. */
    method IncBalanced(inc: nat)
      requires Valid() && turn.Balancing? && inc == pool.balancedWindow - (fullWindowSize - initialWindowSize) && inc > 0
      modifies this, pool
      ensures Valid() && Completed(true)
    {
      ghost var r := FC.Result(State(), pool.State(), true);
      var offered := RequestWindow(inc);
      ghost var grown := FC.Result(State(), pool.State(), true);
      FC.CompleteStep(r, grown);
      GrowWindow(offered);
      FC.CompleteStep(grown, FC.Result(State(), pool.State(), true));
    }

    /** _dec_balanced with nobody in between. */
    method DecBalanced(dec: nat) returns (ok: bool)
      requires Valid() && turn.Balancing? && dec == fullWindowSize - initialWindowSize - pool.balancedWindow && dec > 0
      modifies this, pool
      ensures Valid() && Completed(ok)
    {
      ghost var r := FC.Result(State(), pool.State(), true);
      var emptyWindow := ReadWindow(dec);
      ghost var seen := FC.Result(State(), pool.State(), true);
      FC.CompleteStep(r, seen);
      var now, fine := ReclaimDynamic(dec, emptyWindow);
      ghost var asked := FC.Result(State(), pool.State(), fine);
      FC.CompleteStep(seen, asked);
      var released := CutWindow(now);
      ok := fine && released;
      FC.CompleteStep(asked, FC.Result(State(), pool.State(), released));
    }

    twostate predicate Completed(ok: bool)
      reads this, pool
    {
      var r := FC.Complete(FC.Result(old(State()), old(pool.State()), true));
      State() == r.source && pool.State() == r.pool && ok == r.ok
    }

    /** _dynamic_window_rebalance with nobody in between. */
    method Rebalance() returns (ok: bool)
      requires Valid() && turn.Balancing?
      modifies this, pool
      ensures Valid() && Completed(ok)
    {
      ok := true;
      var dynamic := fullWindowSize - initialWindowSize;
      if dynamic < pool.balancedWindow {
        IncBalanced(pool.balancedWindow - dynamic);
      } else if dynamic > pool.balancedWindow {
        ok := DecBalanced(dynamic - pool.balancedWindow);
      } else {
        ghost var r := FC.Result(State(), pool.State(), true);
        turn := FC.Idle;
        FC.CompleteStep(r, FC.Result(State(), pool.State(), true));
      }
    }

    /** log_source_dynamic_window_realloc with nobody in between.  No credit is lost, and
        with the reclaimed window covered no assertion fails and a free credit remains. */
    method DynamicWindowRealloc() returns (ok: bool)
      requires Valid() && turn.Idle? && halves == []
      modifies this, pool
      ensures var r := FC.Realloc(old(State()), old(pool.State()));
              State() == r.source && pool.State() == r.pool && ok == r.ok
      ensures turn.Idle? && FC.ReallocKeeps(old(State()), old(pool.State()), FC.Result(State(), pool.State(), ok))
    {
      FC.ReallocSound(State(), pool.State());
      var inProgress;
      inProgress, ok := ReclaimInstead();
      FC.CompleteOk(FC.Result(State(), pool.State(), ok));
      if !inProgress {
        var fine := Rebalance();
        ok := ok && fine;
      }
    }
  }
}
