/**
 Flow control windows (lib/logsource.c, lib/dynamic-window-pool.c): every
 message a source posts takes one credit of its window, acknowledgements give
 credits back, and a pool of dynamic credits is balanced between sources.

 Destination threads acknowledge while the thread of the source rebalances its
 window, and neither holds a lock.  So both are taken apart at every access to a
 shared counter: `halves` are the acknowledgements under way, `turn` is how far
 the rebalancing has got.
 */
module FlowControl {
  import opened Ints

  /** An acknowledgement under way: what it still has to book as reclaimed, and what it
      will return to the window. */
  datatype Half = Half(reclaimed: nat, returned: nat, lastSuspended: bool)

  datatype Turn =
    | Idle
    | Collected(total: int)           // pending_reclaimed is taken
    | Clearing                        // window_size_to_be_reclaimed is to be cleared
    | Balancing                       // nothing is being reclaimed
    | Growing(offered: int)           // the offer of the pool is to be added to the window
    | Shrinking(dec: nat, seen: int)  // the free window has been read
    | Cutting(now: int)               // free credits are to be given to the pool

  datatype Source = Source(
    init: nat,         // initial_window_size
    full: int,         // full_window_size
    window: int,       // window_size, the counter
    suspended: bool,   // window_size, the suspend bit
    toReclaim: int,    // window_size_to_be_reclaimed
    pending: int,      // pending_reclaimed
    inFlight: nat,
    halves: seq<Half>,
    turn: Turn,
    wakeups: nat)

  datatype Pool = Pool(size: nat, free: int, balanced: nat)

  /** A source and its pool after an operation; `ok` if no assertion of the source failed. */
  datatype Result = Result(source: Source, pool: Pool, ok: bool)

  function NewSource(init: nat): Source { Source(init, init, init, false, 0, 0, 0, [], Idle, 0) }

  predicate FreeToSend(s: Source) { s.window != 0 && !s.suspended }

  // ---------------------------------------------------------------------
  // The pool
  // ---------------------------------------------------------------------

  /** dynamic_window_pool_request */
  function Offered(pool: Pool, requested: nat): int { Min(pool.free, requested) }

  /** dynamic_window_pool_release */
  function Release(pool: Pool, amount: int): Pool { pool.(free := pool.free + amount) }

  predicate ReleaseOk(pool: Pool, amount: int) { pool.free + amount <= pool.size }

  // ---------------------------------------------------------------------
  // Posting and acknowledging
  // ---------------------------------------------------------------------

  /** log_source_post */
  function Post(s: Source): Source {
    s.(window := s.window - 1, inFlight := s.inFlight + 1)
  }

  /** _take_reclaimed_window: the change of `window_size_to_be_reclaimed`. */
  function BeginAck(s: Source, n: nat, lastSuspended: bool): Source
    requires n <= s.inFlight
  {
    var reclaimed := if s.toReclaim > 0 then Min(n, s.toReclaim) else 0;
    s.(toReclaim := s.toReclaim - n, inFlight := s.inFlight - n,
       halves := s.halves + [Half(reclaimed, n - reclaimed, lastSuspended)])
  }

  /** _take_reclaimed_window: the change of `pending_reclaimed`. */
  function BookAck(s: Source, k: nat): Source
    requires k < |s.halves|
  {
    s.(pending := s.pending + s.halves[k].reclaimed, halves := s.halves[k := s.halves[k].(reclaimed := 0)])
  }

  /** The rest of _flow_control_window_size_adjust. */
  function EndAck(s: Source, k: nat): Source
    requires k < |s.halves| && s.halves[k].reclaimed == 0
  {
    var h := s.halves[k];
    var resume := !h.lastSuspended && (s.suspended || s.window == 0);
    s.(window := s.window + h.returned,
       suspended := s.suspended && !resume,
       halves := s.halves[..k] + s.halves[k + 1..],
       wakeups := s.wakeups + if s.window == 0 || resume then 1 else 0)
  }

  // ---------------------------------------------------------------------
  // Balancing
  // ---------------------------------------------------------------------

  /** _reclaim_window_instead_of_rebalance: `pending_reclaimed` is taken ... */
  function Collect(s: Source): Source
    requires s.turn.Idle?
  {
    s.(pending := 0, turn := Collected(s.pending))
  }

  /** ... then `window_size_to_be_reclaimed` is read ... */
  function Inspect(s: Source, pool: Pool): Result
    requires s.turn.Collected?
  {
    var total := s.turn.total;
    var turn := if s.toReclaim > 0 then Idle else if total <= 0 && s.toReclaim < 0 then Clearing else Balancing;
    if total > 0 then
      Result(s.(full := s.full - total, turn := turn), Release(pool, total), ReleaseOk(pool, total))
    else
      Result(s.(turn := turn), pool, true)
  }

  /** ... and set to zero if it is negative. */
  function Clear(s: Source): Source
    requires s.turn.Clearing?
  {
    s.(toReclaim := 0, turn := Balancing)
  }

  /** _dynamic_window_rebalance up to the first access to the window. */
  function Weigh(s: Source, pool: Pool): Result
    requires s.turn.Balancing?
  {
    var dynamic := s.full - s.init;
    if dynamic < pool.balanced then
      var offered := Offered(pool, pool.balanced - dynamic);
      Result(s.(full := s.full + offered, turn := Growing(offered)), pool.(free := pool.free - offered), true)
    else if dynamic > pool.balanced then
      Result(s.(turn := Shrinking(dynamic - pool.balanced, s.window)), pool, true)
    else
      Result(s.(turn := Idle), pool, true)
  }

  /** The rest of _inc_balanced. */
  function Grow(s: Source): Source
    requires s.turn.Growing?
  {
    s.(window := s.window + s.turn.offered, turn := Idle,
       wakeups := s.wakeups + if s.window == 0 && s.turn.offered != 0 then 1 else 0)
  }

  /** _dec_balanced: what the free window does not cover is asked back
      (_reclaim_dynamic_window) ... */
  function AskBack(s: Source, pool: Pool): Result
    requires s.turn.Shrinking?
  {
    var dec, seen := s.turn.dec, s.turn.seen;
    if seen <= dec then
      Result(s.(toReclaim := dec - seen, turn := Cutting(if seen == 0 then 0 else seen - 1)), pool,
             s.full - (dec - seen) >= s.init)
    else
      Result(s.(turn := Cutting(dec)), pool, true)
  }

  /** ... and the rest is given to the pool at once. */
  function Cut(s: Source, pool: Pool): Result
    requires s.turn.Cutting?
  {
    var now := s.turn.now;
    Result(s.(full := s.full - now, window := s.window - now, turn := Idle), Release(pool, now),
           s.window >= now && ReleaseOk(pool, now))
  }

  /** The next step of log_source_dynamic_window_realloc. */
  function Advance(s: Source, pool: Pool): Result {
    match s.turn
    case Idle => Result(Collect(s), pool, true)
    case Collected(_) => Inspect(s, pool)
    case Clearing => Result(Clear(s), pool, true)
    case Balancing => Weigh(s, pool)
    case Growing(_) => Result(Grow(s), pool, true)
    case Shrinking(_, _) => AskBack(s, pool)
    case Cutting(_) => Cut(s, pool)
  }

  function StepsLeft(turn: Turn): nat {
    match turn
    case Idle => 0
    case Collected(_) => 5
    case Clearing => 4
    case Balancing => 3
    case Growing(_) => 1
    case Shrinking(_, _) => 2
    case Cutting(_) => 1
  }

  /** The remaining steps with nobody in between. */
  function Complete(r: Result): Result
    decreases StepsLeft(r.source.turn)
  {
    if r.source.turn.Idle? then r
    else
      var t := Advance(r.source, r.pool);
      Complete(t.(ok := r.ok && t.ok))
  }

  lemma CompleteStep(r: Result, t: Result)
    requires !r.source.turn.Idle? && t == Advance(r.source, r.pool)
    ensures Complete(r) == Complete(t.(ok := r.ok && t.ok))
  {
  }

  /** What went wrong before does not change what happens next. */
  lemma {:induction false} CompleteOk(r: Result)
    ensures Complete(r) == Complete(r.(ok := true)).(ok := r.ok && Complete(r.(ok := true)).ok)
    decreases StepsLeft(r.source.turn)
  {
    if r.source.turn.Idle? {
    } else {
      var t := Advance(r.source, r.pool);
      CompleteOk(t.(ok := r.ok && t.ok));
      CompleteOk(t);
    }
  }

  /** log_source_dynamic_window_realloc with nobody in between. */
  function Realloc(s: Source, pool: Pool): Result { Complete(Advance(s, pool)) }

  /** _release_dynamic_window, when the source goes away. */
  function Close(s: Source, pool: Pool): Result {
    var dynamic := s.full - s.init;
    Result(s.(full := s.init, window := s.window - dynamic), Release(pool, dynamic),
           s.window >= dynamic && ReleaseOk(pool, dynamic))
  }

  // ---------------------------------------------------------------------
  // What holds of one source
  // ---------------------------------------------------------------------

  function Reclaimed(halves: seq<Half>): nat {
    if halves == [] then 0 else halves[0].reclaimed + Reclaimed(halves[1..])
  }

  function Returned(halves: seq<Half>): nat {
    if halves == [] then 0 else halves[0].returned + Returned(halves[1..])
  }

  /** Credits the rebalancing has in hand. */
  function InHand(turn: Turn): int {
    match turn
    case Collected(total) => total
    case Growing(offered) => offered
    case _ => 0
  }

  /** Every credit of the full window is free, in flight, on its way back or in hand. */
  predicate Accounted(s: Source) {
    && s.window + s.inFlight + s.pending + Reclaimed(s.halves) + Returned(s.halves) + InHand(s.turn) == s.full
    && s.pending >= 0 && (s.turn.Collected? ==> s.turn.total >= 0)
  }

  /** What the rebalancing has read is still good: the window only grows meanwhile, and
      nothing is reclaimed once it has seen that nothing is. */
  predicate InTurn(s: Source) {
    match s.turn
    case Idle => true
    case Collected(_) => true
    case Clearing => s.toReclaim <= 0
    case Balancing => s.toReclaim <= 0
    case Growing(offered) => offered >= 0
    case Shrinking(dec, seen) => s.toReclaim <= 0 && 0 < dec <= s.full - s.init && 0 <= seen <= s.window
    case Cutting(now) => now == 0 || 0 < now < s.window
  }

  predicate Credited(s: Source) {
    Accounted(s) && s.window >= 0 && InTurn(s)
  }

  /** Reclaimed earlier and not yet collected. */
  function Booked(s: Source): int { s.pending + Reclaimed(s.halves) }

  /** What is being reclaimed is covered by the dynamic part of the window. */
  predicate Covered(s: Source) {
    s.full - s.init - (if s.turn.Cutting? then s.turn.now else 0)
    >= Booked(s) + Max(s.toReclaim, 0) + (if s.turn.Collected? then s.turn.total else 0)
  }

  lemma {:induction false} HalvesConcat(a: seq<Half>, b: seq<Half>)
    ensures Reclaimed(a + b) == Reclaimed(a) + Reclaimed(b) && Returned(a + b) == Returned(a) + Returned(b)
  {
    if a == [] {
      assert a + b == b;
    } else {
      HalvesConcat(a[1..], b);
      assert (a + b)[1..] == a[1..] + b;
    }
  }

  lemma HalvesSplit(halves: seq<Half>, k: nat)
    requires k < |halves|
    ensures Reclaimed(halves) == Reclaimed(halves[..k]) + halves[k].reclaimed + Reclaimed(halves[k + 1..])
    ensures Returned(halves) == Returned(halves[..k]) + halves[k].returned + Returned(halves[k + 1..])
  {
    HalvesConcat(halves[..k], halves[k..]);
    assert halves == halves[..k] + halves[k..] && halves[k..][1..] == halves[k + 1..];
  }

  /** What an acknowledgement keeps at each of its steps, also while the window is being
      rebalanced. */
  predicate AckKeeps(s: Source, t: Source) {
    && (Accounted(s) ==> Accounted(t))
    && (Credited(s) ==> Credited(t))
    && (Covered(s) ==> Covered(t))
    && (s.toReclaim <= 0 ==> t.toReclaim <= 0 && Booked(t) == Booked(s))
    && t.turn == s.turn && t.full == s.full && t.init == s.init
  }

  lemma BeginAckKeeps(s: Source, n: nat, lastSuspended: bool)
    requires n <= s.inFlight
    ensures AckKeeps(s, BeginAck(s, n, lastSuspended))
  {
    var t := BeginAck(s, n, lastSuspended);
    HalvesConcat(s.halves, [t.halves[|s.halves|]]);
  }

  lemma BookAckKeeps(s: Source, k: nat)
    requires k < |s.halves|
    ensures AckKeeps(s, BookAck(s, k))
  {
    var halves := BookAck(s, k).halves;
    HalvesSplit(s.halves, k);
    HalvesSplit(halves, k);
    assert halves[..k] == s.halves[..k] && halves[k + 1..] == s.halves[k + 1..];
  }

  lemma EndAckKeeps(s: Source, k: nat)
    requires k < |s.halves| && s.halves[k].reclaimed == 0
    ensures AckKeeps(s, EndAck(s, k))
  {
    HalvesSplit(s.halves, k);
    HalvesConcat(s.halves[..k], s.halves[k + 1..]);
  }

  /** What a source and its pool own together. */
  function Owned(s: Source, pool: Pool): int { pool.free + (s.full - s.init) }

  /** Taking credits out of and into the pool does not lose any, whatever the state. */
  lemma AdvanceAccounts(s: Source, pool: Pool)
    ensures var r := Advance(s, pool);
            && (Accounted(s) ==> Accounted(r.source))
            && Owned(r.source, r.pool) == Owned(s, pool) && r.pool.size == pool.size
  {
    match s.turn
    case Idle =>
    case Collected(_) =>
    case Clearing =>
    case Balancing =>
    case Growing(_) =>
    case Shrinking(_, _) =>
    case Cutting(_) =>
  }

  lemma AdvanceCredits(s: Source, pool: Pool)
    requires Credited(s) && pool.free >= 0
    ensures Credited(Advance(s, pool).source) && Advance(s, pool).pool.free >= 0
  {
    AdvanceAccounts(s, pool);
    match s.turn
    case Idle =>
    case Collected(_) =>
    case Clearing =>
    case Balancing =>
    case Growing(_) =>
    case Shrinking(_, _) =>
    case Cutting(_) =>
  }

  /** When the window shrinks, what was reclaimed earlier and is not yet collected is no
      more than the dynamic window that remains. */
  predicate Harmless(s: Source)
    requires s.turn.Shrinking?
  {
    var dec, seen := s.turn.dec, s.turn.seen;
    Booked(s) <= s.full - s.init - dec + (if 0 < seen <= dec then 1 else 0)
  }

  /** Rebalancing keeps the reclaimed window covered at each of its steps, except that
      asking credits back does so exactly under that condition. */
  lemma AdvanceCoveredIff(s: Source, pool: Pool)
    requires Credited(s) && Covered(s) && pool.free >= 0
    ensures Covered(Advance(s, pool).source) <==> (s.turn.Shrinking? ==> Harmless(s))
  {
  }

  /** And losing it is harm: once what is in flight comes back, the pool collects so
      much that the full window falls below the initial one. */
  lemma UncoveredFallsBelow(s: Source, pool: Pool)
    requires Accounted(s) && !Covered(s) && s.turn.Idle? && s.halves == [] && s.toReclaim <= s.inFlight
    ensures var t := BookAck(BeginAck(s, s.inFlight, false), 0);
            Inspect(Collect(EndAck(t, 0)), pool).source.full < s.init
  {
  }

  /** A source that had free credits still has one, and the assertions of the source
      hold as long as the pool owns what the source may give back. */
  lemma AdvanceSafe(s: Source, pool: Pool)
    requires Credited(s) && Covered(s) && pool.free >= 0 && Owned(s, pool) <= pool.size
    ensures Advance(s, pool).ok
    ensures s.window > 0 ==> Advance(s, pool).source.window > 0
  {
  }

  /** Nothing reclaimed earlier is on its way. */
  predicate Quiet(s: Source) { s.halves == [] && (s.turn.Idle? || s.pending == 0) }

  lemma QuietIsHarmless(s: Source)
    requires Credited(s) && Quiet(s) && s.turn.Shrinking?
    ensures Harmless(s)
  {
  }

  /** What a rebalancing nobody interrupts keeps from `s` and `pool` to `r`. */
  predicate ReallocKeeps(s: Source, pool: Pool, r: Result) {
    && Credited(r.source) && r.pool.free >= 0 && r.pool.size == pool.size
    && Owned(r.source, r.pool) == Owned(s, pool)
    && Quiet(r.source)
    && (Covered(s) && Owned(s, pool) <= pool.size ==>
          r.ok && Covered(r.source) && (s.window > 0 ==> r.source.window > 0))
  }

  lemma AdvanceKeeps(s: Source, pool: Pool)
    requires Credited(s) && pool.free >= 0 && Quiet(s)
    ensures ReallocKeeps(s, pool, Advance(s, pool))
  {
    AdvanceAccounts(s, pool);
    AdvanceCredits(s, pool);
    if Covered(s) && Owned(s, pool) <= pool.size {
      AdvanceCoveredIff(s, pool);
      AdvanceSafe(s, pool);
      if s.turn.Shrinking? {
        QuietIsHarmless(s);
      }
    }
  }

  lemma {:induction false} CompleteKeeps(s: Source, pool: Pool, r: Result)
    requires ReallocKeeps(s, pool, r)
    ensures ReallocKeeps(s, pool, Complete(r)) && Complete(r).source.turn.Idle?
    decreases StepsLeft(r.source.turn)
  {
    if r.source.turn.Idle? {
    } else {
      var t := Advance(r.source, r.pool);
      AdvanceKeeps(r.source, r.pool);
      CompleteKeeps(s, pool, t.(ok := r.ok && t.ok));
    }
  }

  lemma ReallocSound(s: Source, pool: Pool)
    requires Credited(s) && pool.free >= 0 && s.halves == [] && s.turn.Idle?
    ensures ReallocKeeps(s, pool, Realloc(s, pool)) && Realloc(s, pool).source.turn.Idle?
  {
    AdvanceKeeps(s, pool);
    CompleteKeeps(s, pool, Advance(s, pool));
  }

  /** With nothing in flight, at least the initial window is free. */
  lemma IdleWindow(s: Source)
    requires Credited(s) && Covered(s) && s.inFlight == 0 && s.halves == [] && s.turn.Idle?
    ensures s.window >= s.init
  {
  }

  /** Closing an idle source finds enough free window exactly when no more than the
      initial window is still booked as reclaimed; either way its dynamic window is in the
      pool afterwards. */
  lemma CloseOkIff(s: Source, pool: Pool)
    requires Credited(s) && Covered(s) && s.inFlight == 0 && s.halves == [] && s.turn.Idle?
    requires pool.free >= 0 && Owned(s, pool) <= pool.size
    ensures Close(s, pool).ok <==> s.pending <= s.init
    ensures s.pending <= s.init ==> Close(s, pool).source.window == s.init - s.pending
    ensures var r := Close(s, pool); Owned(r.source, r.pool) == r.pool.free == Owned(s, pool)
  {
  }

  /** Whoever lets a blocked source send again wakes it up. */
  lemma AckWakes(s: Source, k: nat)
    requires k < |s.halves| && s.halves[k].reclaimed == 0 && !FreeToSend(s) && FreeToSend(EndAck(s, k))
    ensures EndAck(s, k).wakeups > s.wakeups
  {
  }

  /** After its last step an acknowledgement lets the source send exactly if there is a
      credit and, where the source was suspended, it is the acknowledgement that resumes
      it; one that reports a suspended destination leaves the suspend bit alone. */
  lemma AckFreesIff(s: Source, k: nat)
    requires k < |s.halves| && s.halves[k].reclaimed == 0 && s.window >= 0
    ensures var h, t := s.halves[k], EndAck(s, k);
            && t.window == s.window + h.returned
            && (FreeToSend(t) <==> t.window > 0 && (!s.suspended || !h.lastSuspended))
            && (h.lastSuspended ==> t.suspended == s.suspended)
            && (!h.lastSuspended && !FreeToSend(s) ==> !t.suspended && t.wakeups > s.wakeups)
  {
  }

  /** A turn first gives to the pool what acknowledgements have returned for it. While more
      is still asked back nothing else happens; otherwise the turn rebalances, and what came
      back beyond the request is forgotten unless this turn handed something over. */
  lemma ReclaimsFirst(s: Source, pool: Pool)
    requires s.turn.Idle?
    ensures var r, gave := Realloc(s, pool), Max(s.pending, 0);
            var paid := s.(full := s.full - gave, pending := 0);
            var p := pool.(free := pool.free + gave);
            if s.toReclaim > 0 then
              r.source == paid && r.pool == p
            else
              var b := Complete(Result(paid.(toReclaim := if s.pending > 0 then s.toReclaim else 0, turn := Balancing), p, true));
              r.source == b.source && r.pool == b.pool
  {
    var c := Advance(s, pool);
    var i := Inspect(c.source, pool);
    CompleteStep(c, i);
    if i.source.turn.Clearing? {
      CompleteStep(i, Result(Clear(i.source), i.pool, true));
    }
    CompleteOk(i);
  }

  /** What rebalancing is for: the dynamic window grows to the balanced one, as far as the
      pool can offer; ... */
  lemma GrowsTowardsBalanced(s: Source, pool: Pool)
    requires s.turn.Balancing? && s.full - s.init <= pool.balanced && pool.free >= 0
    ensures var r := Complete(Result(s, pool, true));
            && r.source.full - r.source.init == Min(pool.balanced, s.full - s.init + pool.free)
            && r.source.window - s.window == r.source.full - s.full == pool.free - r.pool.free
            && (r.source.wakeups > s.wakeups <==> s.window == 0 && r.source.window > 0)
            && r.source.turn.Idle? && r.source.toReclaim == s.toReclaim
  {
    var t := Weigh(s, pool);
    CompleteStep(Result(s, pool, true), t);
    if s.full - s.init < pool.balanced {
      CompleteStep(t, Result(Grow(t.source), t.pool, true));
    }
  }

  /** ... or it shrinks to the balanced one, at once or once what is asked back comes in,
      except that the last free credit is kept for as long as the source is open. */
  lemma ShrinksToBalanced(s: Source, pool: Pool)
    requires s.turn.Balancing? && s.full - s.init > pool.balanced && s.window >= 0 && s.toReclaim <= 0
    ensures var r, dec := Complete(Result(s, pool, true)), s.full - s.init - pool.balanced;
            && r.source.full - r.source.init - Max(r.source.toReclaim, 0)
               == pool.balanced + (if 0 < s.window <= dec then 1 else 0)
            && s.window - r.source.window == s.full - r.source.full == r.pool.free - pool.free
            && (s.window > dec ==> r.source.window == s.window - dec)
            && (0 < s.window <= dec ==> r.source.window == 1)
            && r.source.turn.Idle?
  {
    var t := Weigh(s, pool);
    CompleteStep(Result(s, pool, true), t);
    var u := AskBack(t.source, t.pool);
    CompleteStep(t, u);
    CompleteStep(u, Cut(u.source, u.pool));
  }

  lemma AdvanceWakes(s: Source, pool: Pool)
    requires Credited(s) && pool.free >= 0 && !FreeToSend(s) && FreeToSend(Advance(s, pool).source)
    ensures Advance(s, pool).source.wakeups > s.wakeups
  {
  }
}
