/**
 Nothing is lost and nothing is duplicated: under every interleaving of the
 producers and the output thread, each pushed message is in exactly one place.
 The counters agree with the lists, and a registered callback means that there
 is nothing it should have been called for.
 */
module FifoConservation {
  import opened FifoSteps
  import opened Ints

  /** How often `x` is in a list. */
  function Copies(items: seq<Item>, x: Item): nat {
    if items == [] then 0 else (if items[0] == x then 1 else 0) + Copies(items[1..], x)
  }

  lemma {:induction false} CopiesAreMembers(items: seq<Item>, x: Item)
    ensures Copies(items, x) == multiset(items)[x]
  {
    if items == [] {
    } else {
      CopiesAreMembers(items[1..], x);
      assert items == [items[0]] + items[1..];
    }
  }

  lemma {:induction false} CopiesConcat(a: seq<Item>, b: seq<Item>, x: Item)
    ensures Copies(a + b, x) == Copies(a, x) + Copies(b, x)
  {
    if a == [] {
      assert a + b == b;
    } else {
      CopiesConcat(a[1..], b, x);
      assert (a + b)[1..] == a[1..] + b;
    }
  }

  function Pending(inputs: seq<Input>, x: Item): nat {
    if inputs == [] then 0 else Copies(inputs[0].items, x) + Pending(inputs[1..], x)
  }

  /** How often `x` is in any of the places where messages can be. */
  function Held(s: Fifo, x: Item): nat {
    Copies(s.acked, x) + Copies(s.dropped, x) + Copies(s.backlog.items, x) + Copies(s.output.items, x)
    + Copies(s.wait.items, x) + Pending(s.inputs, x)
  }

  predicate Numbered(pushed: seq<Item>) {
    forall k :: 0 <= k < |pushed| ==> pushed[k].num == k
  }

  /** Every pushed message is in one place, and nothing else is in the queue. */
  ghost predicate Conserved(s: Fifo) {
    Numbered(s.pushed) && forall x :: Held(s, x) == Copies(s.pushed, x)
  }

  /** The statistics, apart from slow path pushes inside the callback; the finish
      callback covers every waiting input; and no wake-up is lost. */
  ghost predicate Booked(s: Fifo) {
    && s.queued + |s.paused| == |s.wait.items| + |s.output.items|
    && s.memory + Bytes(s.paused) == Bytes(s.wait.items) + Bytes(s.output.items)
    && (forall p :: 0 <= p < |s.inputs| && s.inputs[p].items != [] ==> s.inputs[p].registered && !s.inputs[p].moving)
    && (s.callback ==> s.wait.items == [])
  }

  // ---------------------------------------------------------------------
  // Input lists
  // ---------------------------------------------------------------------

  lemma {:induction false} PendingUpdate(inputs: seq<Input>, p: nat, i: Input, x: Item)
    requires p < |inputs|
    ensures Pending(inputs[p := i], x) == Pending(inputs, x) - Copies(inputs[p].items, x) + Copies(i.items, x)
    ensures Copies(inputs[p].items, x) <= Pending(inputs, x)
  {
    var updated := inputs[p := i];
    if p == 0 {
      assert updated[1..] == inputs[1..];
    } else {
      assert updated[1..] == inputs[1..][p - 1 := i];
      PendingUpdate(inputs[1..], p - 1, i, x);
    }
  }

  lemma {:induction false} NothingPending(inputs: seq<Input>, x: Item)
    requires forall p :: 0 <= p < |inputs| ==> inputs[p].items == []
    ensures Pending(inputs, x) == 0
  {
    if inputs == [] {
    } else {
      NothingPending(inputs[1..], x);
    }
  }

  lemma {:induction false} DropKeepsAll(items: seq<Item>, n: nat, x: Item)
    ensures var r := DropOldest(items, n); Copies(items, x) == Copies(r.kept, x) + Copies(r.dropped, x)
  {
    if n > 0 && items != [] {
      var rest := DropOldest(items[1..], if items[0].flowControl then n else n - 1);
      DropKeepsAll(items[1..], if items[0].flowControl then n else n - 1, x);
      CopiesConcat([items[0]], rest.kept, x);
      CopiesConcat([items[0]], rest.dropped, x);
    }
  }

  lemma SplitCopies(items: seq<Item>, k: nat, x: Item)
    requires k <= |items|
    ensures Copies(items, x) == Copies(items[..k], x) + Copies(items[k..], x)
  {
    assert items == items[..k] + items[k..];
    CopiesConcat(items[..k], items[k..], x);
  }

  // ---------------------------------------------------------------------
  // Conservation
  // ---------------------------------------------------------------------

  lemma FastPushHolds(s: Fifo, p: nat, fc: bool, size: nat, x: Item)
    requires p < |s.inputs|
    ensures Held(StepFastPush(s, p, fc, size), x) == Held(s, x) + Copies([Item(p, |s.pushed|, fc, size)], x)
  {
    PendingUpdate(s.inputs, p, StepFastPush(s, p, fc, size).inputs[p], x);
    CopiesConcat(s.inputs[p].items, [Item(p, |s.pushed|, fc, size)], x);
  }

  lemma MoveHolds(s: Fifo, p: nat, seen: int, x: Item)
    requires Counted(s) && p < |s.inputs|
    ensures Held(StepMove(s, p, seen), x) == Held(s, x)
  {
    var i, t := s.inputs[p], StepMove(s, p, seen);
    var d := NumToDrop(seen, i.nfc, s.fifoSize);
    PendingUpdate(s.inputs, p, t.inputs[p], x);
    DropKeepsAll(i.items, d, x);
    CopiesConcat(s.wait.items, DropOldest(i.items, d).kept, x);
    CopiesConcat(s.dropped, DropOldest(i.items, d).dropped, x);
  }

  lemma RefillHolds(s: Fifo, x: Item)
    requires Counted(s)
    ensures Held(Refill(s), x) == Held(s, x)
  {
    CopiesConcat(s.output.items, s.wait.items, x);
  }

  lemma TakeHolds(t: Fifo, x: Item)
    requires t.output.len > 0 && Counted(t)
    ensures Held(StepPop(t), x) == Held(t, x)
  {
    CopiesConcat(t.backlog.items, [t.output.items[0]], x);
  }

  lemma PopHolds(s: Fifo, x: Item)
    requires Counted(s)
    ensures Held(StepPop(s), x) == Held(s, x)
  {
    var t := Refill(s);
    RefillHolds(s, x);
    if t.output.items != [] {
      assert t.output.items == if s.output.len != 0 then s.output.items else s.wait.items;
      TakeHolds(t, x);
    }
  }

  lemma SlowPushHolds(s: Fifo, p: nat, fc: bool, size: nat, seen: int, x: Item)
    ensures Held(StepSlowPush(s, p, fc, size, seen), x) == Held(s, x) + Copies([Item(p, |s.pushed|, fc, size)], x)
  {
    CopiesConcat(s.dropped, [Item(p, |s.pushed|, fc, size)], x);
    CopiesConcat(s.wait.items, [Item(p, |s.pushed|, fc, size)], x);
  }

  lemma RewindAllHolds(s: Fifo, x: Item)
    ensures Held(StepRewindAll(s), x) == Held(s, x)
  {
    CopiesConcat(s.output.items, s.backlog.items, x);
  }

  lemma AckHolds(s: Fifo, n: int, x: Item)
    requires Counted(s)
    ensures Held(StepAck(s, n), x) == Held(s, x)
  {
    var k := Max(0, Min(n, s.backlog.len));
    SplitCopies(s.backlog.items, k, x);
    CopiesConcat(s.acked, s.backlog.items[..k], x);
  }

  lemma RewindHolds(s: Fifo, n: nat, x: Item)
    requires Counted(s)
    ensures Held(StepRewind(s, n), x) == Held(s, x)
  {
    var k := |s.backlog.items| - Min(n, s.backlog.len);
    SplitCopies(s.backlog.items, k, x);
    CopiesConcat(s.backlog.items[k..], s.output.items, x);
  }

  lemma FinishMoveHolds(s: Fifo, p: nat, x: Item)
    requires p < |s.inputs|
    ensures Held(StepFinishMove(s, p), x) == Held(s, x)
  {
    PendingUpdate(s.inputs, p, StepFinishMove(s, p).inputs[p], x);
  }

  lemma OutputStepHolds(s: Fifo, step: Step, x: Item)
    requires Counted(s) && (step.Pop? || step.Ack? || step.Rewind? || step.RewindAll? || step.CheckItems? || step.ResetCallback?)
    ensures Held(Next(s, step), x) == Held(s, x) && Next(s, step).pushed == s.pushed
  {
    match step
    case Pop => PopHolds(s, x);
    case Ack(n) => AckHolds(s, n, x);
    case Rewind(n) => RewindHolds(s, n, x);
    case RewindAll => RewindAllHolds(s, x);
    case _ =>
  }

  /** A step adds what it pushes and otherwise moves messages around. */
  lemma StepHolds(s: Fifo, step: Step, x: Item)
    requires Counted(s) && Enabled(s, step)
    ensures Held(Next(s, step), x) - Held(s, x) == Copies(Next(s, step).pushed, x) - Copies(s.pushed, x)
  {
    match step
    case FastPush(p, fc, size) =>
      FastPushHolds(s, p, fc, size, x);
      CopiesConcat(s.pushed, [Item(p, |s.pushed|, fc, size)], x);
    case Move(p, seen) => MoveHolds(s, p, seen, x);
    case FinishMove(p) => FinishMoveHolds(s, p, x);
    case SlowPush(p, fc, size, seen) =>
      SlowPushHolds(s, p, fc, size, seen, x);
      CopiesConcat(s.pushed, [Item(p, |s.pushed|, fc, size)], x);
    case EndSlowPush(at) =>
    case _ => OutputStepHolds(s, step, x);
  }

  lemma StepConserves(s: Fifo, step: Step)
    requires Counted(s) && Enabled(s, step) && Conserved(s)
    ensures Conserved(Next(s, step))
  {
    forall x ensures Held(Next(s, step), x) == Copies(Next(s, step).pushed, x) {
      StepHolds(s, step, x);
    }
  }

  // ---------------------------------------------------------------------
  // Bookkeeping
  // ---------------------------------------------------------------------

  lemma MoveBooks(s: Fifo, p: nat, seen: int)
    requires Counted(s) && p < |s.inputs| && Booked(s)
    ensures Booked(StepMove(s, p, seen))
  {
    var i := s.inputs[p];
    var d := NumToDrop(seen, i.nfc, s.fifoSize);
    DropCounts(i.items, d);
    CountsConcat(s.wait.items, DropOldest(i.items, d).kept);
  }

  lemma PopBooks(s: Fifo)
    requires Counted(s) && Booked(s)
    ensures Booked(StepPop(s))
  {
    var t := Refill(s);
    assert s.output.items == [] ==> t.output.items == s.wait.items;
    assert Booked(t);
  }

  lemma RewindBooks(s: Fifo, n: nat)
    requires Counted(s) && Booked(s)
    ensures Booked(StepRewind(s, n))
  {
    CountsConcat(s.backlog.items[|s.backlog.items| - Min(n, s.backlog.len)..], s.output.items);
  }

  lemma EndSlowPushBooks(s: Fifo, at: nat)
    requires Booked(s) && at < |s.paused|
    ensures Booked(StepEndSlowPush(s, at))
  {
    CountsConcat(s.paused[..at], s.paused[at..]);
    CountsConcat(s.paused[..at], s.paused[at + 1..]);
    assert s.paused == s.paused[..at] + s.paused[at..];
    assert s.paused[at..][1..] == s.paused[at + 1..];
  }

  lemma SlowPushBooks(s: Fifo, p: nat, fc: bool, size: nat, seen: int)
    requires Counted(s) && Booked(s)
    ensures Booked(StepSlowPush(s, p, fc, size, seen))
  {
    CountsConcat(s.wait.items, [Item(p, |s.pushed|, fc, size)]);
    CountsConcat(s.paused, [Item(p, |s.pushed|, fc, size)]);
  }

  lemma RewindAllBooks(s: Fifo)
    requires Counted(s) && Booked(s)
    ensures Booked(StepRewindAll(s))
  {
    CountsConcat(s.output.items, s.backlog.items);
  }

  lemma StepBooks(s: Fifo, step: Step)
    requires Counted(s) && Enabled(s, step) && Booked(s)
    ensures Booked(Next(s, step))
  {
    match step
    case FastPush(p, fc, size) =>
    case Move(p, seen) => MoveBooks(s, p, seen);
    case FinishMove(p) =>
    case SlowPush(p, fc, size, seen) => SlowPushBooks(s, p, fc, size, seen);
    case EndSlowPush(at) => EndSlowPushBooks(s, at);
    case Pop => PopBooks(s);
    case Ack(n) =>
    case Rewind(n) => RewindBooks(s, n);
    case RewindAll => RewindAllBooks(s);
    case CheckItems =>
    case ResetCallback =>
  }

  // ---------------------------------------------------------------------
  // Runs
  // ---------------------------------------------------------------------

  lemma {:induction false} RunFrom(s: Fifo, steps: seq<Step>)
    requires Counted(s) && Conserved(s) && Booked(s)
    ensures Conserved(Run(s, steps)) && Booked(Run(s, steps))
    decreases |steps|
  {
    if steps == [] {
    } else {
      if Enabled(s, steps[0]) {
        StepConserves(s, steps[0]);
        StepBooks(s, steps[0]);
      }
      RunFrom(if Enabled(s, steps[0]) then Next(s, steps[0]) else s, steps[1..]);
    }
  }

  /** In every reachable state of every queue: pushed messages are in exactly one of
      the input, wait, output and backlog lists or were acknowledged or dropped; the
      length fields and the statistics are right; every waiting input has its finish
      callback registered; and a registered push callback finds the wait list empty. */
  lemma RunConserves(threads: nat, fifoSize: int, steps: seq<Step>)
    ensures var s := NewFifo(threads, fifoSize);
            Counted(s) && var t := Run(s, steps); Counted(t) && Conserved(t) && Booked(t)
  {
    var s := NewFifo(threads, fifoSize);
    forall x ensures Held(s, x) == 0 {
      NothingPending(s.inputs, x);
    }
    RunFrom(s, steps);
  }

  // ---------------------------------------------------------------------
  // Looking from outside
  // ---------------------------------------------------------------------

  /** log_queue_fifo_is_empty_racy */
  predicate IsEmptyRacy(s: Fifo) {
    s.wait.len + s.output.len <= 0 && forall p :: 0 <= p < |s.inputs| ==> !s.inputs[p].registered
  }

  /** A queue that reports to be empty holds nothing but its backlog. */
  lemma EmptyMeansEmpty(s: Fifo)
    requires Counted(s) && Conserved(s) && Booked(s) && IsEmptyRacy(s)
    ensures multiset(s.pushed) == multiset(s.acked) + multiset(s.dropped) + multiset(s.backlog.items)
  {
    forall x ensures multiset(s.pushed)[x] == (multiset(s.acked) + multiset(s.dropped) + multiset(s.backlog.items))[x] {
      NothingPending(s.inputs, x);
      assert Held(s, x) == Copies(s.pushed, x);
      CopiesAreMembers(s.pushed, x);
      CopiesAreMembers(s.acked, x);
      CopiesAreMembers(s.dropped, x);
      CopiesAreMembers(s.backlog.items, x);
    }
  }
}
