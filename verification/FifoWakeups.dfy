/**
 What the steps of the destination queue are for: which messages are dropped, how
 many are popped, acknowledged and rewound, and that a consumer that went to sleep
 on an empty queue is woken up by the first message that arrives.
 */
module FifoWakeups {
  import opened FifoSteps
  import opened FifoConservation

  // ---------------------------------------------------------------------
  // Pushing
  // ---------------------------------------------------------------------

  /** A push without a thread index drops its message exactly when that is not flow
      controlled and the queue is seen full; otherwise the message is the last one of
      the wait list. */
  lemma SlowPushDropsIff(s: Fifo, p: nat, fc: bool, size: nat, seen: int)
    ensures var item, t := Item(p, |s.pushed|, fc, size), StepSlowPush(s, p, fc, size, seen);
            && t.pushed == s.pushed + [item]
            && (t.dropped == s.dropped + [item] <==> !fc && seen >= s.fifoSize)
            && (t.dropped != s.dropped ==> t.wait.items == s.wait.items)
            && (t.dropped == s.dropped <==> t.wait.items == s.wait.items + [item])
  {
    var item := Item(p, |s.pushed|, fc, size);
    assert |s.dropped + [item]| != |s.dropped| && |s.wait.items + [item]| != |s.wait.items|;
  }

  predicate NoneFlowControlled(items: seq<Item>) { forall x :: x in items ==> !x.flowControl }

  lemma {:induction false} DropsOnlyOthers(items: seq<Item>, n: nat)
    ensures NoneFlowControlled(DropOldest(items, n).dropped)
  {
    if n == 0 || items == [] {
    } else {
      DropsOnlyOthers(items[1..], if items[0].flowControl then n else n - 1);
    }
  }

  lemma StepDropsOnlyOthers(s: Fifo, step: Step)
    requires Counted(s) && Enabled(s, step) && NoneFlowControlled(s.dropped)
    ensures NoneFlowControlled(Next(s, step).dropped)
  {
    match step
    case Move(p, seen) => DropsOnlyOthers(s.inputs[p].items, NumToDrop(seen, s.inputs[p].nfc, s.fifoSize));
    case SlowPush(_, _, _, _) =>
    case _ =>
  }

  lemma {:induction false} RunDropsOnlyOthers(s: Fifo, steps: seq<Step>)
    requires Counted(s) && NoneFlowControlled(s.dropped)
    ensures NoneFlowControlled(Run(s, steps).dropped)
    decreases |steps|
  {
    if steps == [] {
    } else if Enabled(s, steps[0]) {
      StepDropsOnlyOthers(s, steps[0]);
      RunDropsOnlyOthers(Next(s, steps[0]), steps[1..]);
    } else {
      RunDropsOnlyOthers(s, steps[1..]);
    }
  }

  /** In every run, however full the queue and whatever the producers read, no flow
      controlled message is dropped. */
  lemma FlowControlledIsKept(threads: nat, fifoSize: int, steps: seq<Step>)
    ensures forall x :: x in Run(NewFifo(threads, fifoSize), steps).dropped ==> !x.flowControl
  {
    RunDropsOnlyOthers(NewFifo(threads, fifoSize), steps);
  }

  // ---------------------------------------------------------------------
  // The output thread
  // ---------------------------------------------------------------------

  /** A pop takes exactly one message if there is any, the oldest of output or else of
      wait, and puts it behind the backlog. */
  lemma PopTakesOne(s: Fifo)
    requires Counted(s)
    ensures var t := StepPop(s);
            if s.output.items + s.wait.items == [] then t.backlog.items == s.backlog.items
            else t.backlog.items == s.backlog.items + [(s.output.items + s.wait.items)[0]]
                 && t.output.items + t.wait.items == (s.output.items + s.wait.items)[1..]
  {
    if s.output.items == [] {
      assert s.output.items + s.wait.items == s.wait.items;
      assert s.wait.items != [] ==> s.wait.items[1..] + [] == s.wait.items[1..];
    } else {
      assert (s.output.items + s.wait.items)[1..] == s.output.items[1..] + s.wait.items;
    }
  }

  /** An acknowledgement of `n` messages takes that many from the head of the backlog, or
      all there are. */
  lemma AckTakes(s: Fifo, n: nat)
    requires Counted(s)
    ensures var t := StepAck(s, n);
            && t.acked + t.backlog.items == s.acked + s.backlog.items
            && s.acked <= t.acked
            && (n <= |s.backlog.items| ==> |t.acked| == |s.acked| + n)
            && (n > |s.backlog.items| ==> t.backlog.items == [])
  {
    var k := if n <= |s.backlog.items| then n else |s.backlog.items|;
    assert s.backlog.items == s.backlog.items[..k] + s.backlog.items[k..];
    assert StepAck(s, n).acked == s.acked + s.backlog.items[..k];
  }

  /** Rewinding `n` messages puts that many from the end of the backlog in front of the
      output list, or all there are. */
  lemma RewindPutsBack(s: Fifo, n: nat)
    requires Counted(s)
    ensures var t := StepRewind(s, n);
            && t.backlog.items + t.output.items == s.backlog.items + s.output.items
            && (n <= |s.backlog.items| ==> |t.output.items| == |s.output.items| + n)
            && (n > |s.backlog.items| ==> t.backlog.items == [])
  {
    var k := if n <= |s.backlog.items| then |s.backlog.items| - n else 0;
    assert s.backlog.items == s.backlog.items[..k] + s.backlog.items[k..];
    assert StepRewind(s, n).output.items == s.backlog.items[k..] + s.output.items;
  }

  // ---------------------------------------------------------------------
  // Wake-ups
  // ---------------------------------------------------------------------

  /** Looking for messages registers the callback exactly when there are none. */
  lemma CheckItemsRegistersIff(s: Fifo)
    requires Counted(s)
    ensures StepCheckItems(s).callback <==> s.wait.items == [] && s.output.items == []
    ensures StepCheckItems(s) == s.(callback := StepCheckItems(s).callback)
  {
  }

  /** A step that hands over an input list or queues a message directly. */
  predicate Arrives(s: Fifo, step: Step) {
    step.Move? || (step.SlowPush? && (step.flowControl || step.seen < s.fifoSize))
  }

  /** The consumer neither looks again nor withdraws its callback. */
  predicate Sleeps(step: Step) { !step.CheckItems? && !step.ResetCallback? }

  /** Only an arrival calls the callback, and it does so once. */
  lemma StepNotifiesIff(s: Fifo, step: Step)
    requires Counted(s) && Enabled(s, step) && Sleeps(step)
    ensures var t := Next(s, step);
            && t.notified == s.notified + (if s.callback && Arrives(s, step) then 1 else 0)
            && (t.callback <==> s.callback && !Arrives(s, step))
            && (!Arrives(s, step) ==> |t.wait.items| <= |s.wait.items|)
  {
    match step
    case FastPush(_, _, _) =>
    case Move(_, _) =>
    case FinishMove(_) =>
    case SlowPush(_, _, _, _) =>
    case EndSlowPush(_) =>
    case Pop =>
    case Ack(_) =>
    case Rewind(_) =>
    case RewindAll =>
  }

  predicate AllSleep(steps: seq<Step>) { forall k :: 0 <= k < |steps| ==> Sleeps(steps[k]) }

  /** Some step of the run lets a message arrive. */
  predicate SomeArrives(s: Fifo, steps: seq<Step>)
    requires Counted(s)
    decreases |steps|
  {
    steps != []
    && if Enabled(s, steps[0]) then Arrives(s, steps[0]) || SomeArrives(Next(s, steps[0]), steps[1..])
       else SomeArrives(s, steps[1..])
  }

  lemma {:induction false} AwakeStaysAwake(s: Fifo, steps: seq<Step>)
    requires Counted(s) && AllSleep(steps) && !s.callback
    ensures Run(s, steps).notified == s.notified && !Run(s, steps).callback
    decreases |steps|
  {
    if steps == [] {
    } else if Enabled(s, steps[0]) {
      StepNotifiesIff(s, steps[0]);
      AwakeStaysAwake(Next(s, steps[0]), steps[1..]);
    } else {
      AwakeStaysAwake(s, steps[1..]);
    }
  }

  lemma {:induction false} SleeperIsWokenFrom(s: Fifo, steps: seq<Step>)
    requires Counted(s) && Booked(s) && s.callback && AllSleep(steps)
    ensures var t := Run(s, steps);
            && t.notified == s.notified + (if SomeArrives(s, steps) then 1 else 0)
            && (!SomeArrives(s, steps) ==> t.callback && t.wait.items == [])
    decreases |steps|
  {
    if steps == [] {
    } else if Enabled(s, steps[0]) {
      StepNotifiesIff(s, steps[0]);
      StepBooks(s, steps[0]);
      if Arrives(s, steps[0]) {
        AwakeStaysAwake(Next(s, steps[0]), steps[1..]);
      } else {
        SleeperIsWokenFrom(Next(s, steps[0]), steps[1..]);
      }
    } else {
      SleeperIsWokenFrom(s, steps[1..]);
    }
  }

  /** A consumer that found the queue empty, in any reachable state, is notified exactly
      once as soon as a message arrives, by the very step that brings it; until then
      nothing is waiting. */
  lemma SleeperIsWoken(threads: nat, fifoSize: int, before: seq<Step>, after: seq<Step>)
    requires AllSleep(after)
    ensures var s := Run(NewFifo(threads, fifoSize), before);
            s.wait.items == [] && s.output.items == [] ==>
              var t := Run(StepCheckItems(s), after);
              && t.notified == s.notified + (if SomeArrives(StepCheckItems(s), after) then 1 else 0)
              && (!SomeArrives(StepCheckItems(s), after) ==> t.wait.items == [])
  {
    RunConserves(threads, fifoSize, before);
    var s := Run(NewFifo(threads, fifoSize), before);
    if s.wait.items == [] && s.output.items == [] {
      CheckItemsRegistersIff(s);
      StepBooks(s, CheckItems);
      SleeperIsWokenFrom(StepCheckItems(s), after);
    }
  }

  /** A consumer that withdraws its callback is not called. */
  lemma WithdrawnIsNotCalled(s: Fifo, after: seq<Step>)
    requires Counted(s) && AllSleep(after)
    ensures Run(Next(s, ResetCallback), after).notified == s.notified
    ensures Next(s, ResetCallback) == s.(callback := false)
  {
    AwakeStaysAwake(Next(s, ResetCallback), after);
  }

  /** How often the consumer looked. */
  function Checks(steps: seq<Step>): nat {
    if steps == [] then 0 else (if steps[0].CheckItems? then 1 else 0) + Checks(steps[1..])
  }

  lemma {:induction false} CallsAreAskedForFrom(s: Fifo, steps: seq<Step>)
    requires Counted(s)
    ensures var t := Run(s, steps);
            t.notified + (if t.callback then 1 else 0) <= s.notified + (if s.callback then 1 else 0) + Checks(steps)
    decreases |steps|
  {
    if steps == [] {
    } else if Enabled(s, steps[0]) {
      if Sleeps(steps[0]) {
        StepNotifiesIff(s, steps[0]);
      }
      CallsAreAskedForFrom(Next(s, steps[0]), steps[1..]);
    } else {
      CallsAreAskedForFrom(s, steps[1..]);
    }
  }

  /** In every run the callback is called at most once per look of the consumer. */
  lemma CallsAreAskedFor(threads: nat, fifoSize: int, steps: seq<Step>)
    ensures Run(NewFifo(threads, fifoSize), steps).notified <= Checks(steps)
  {
    CallsAreAskedForFrom(NewFifo(threads, fifoSize), steps);
  }

  // ---------------------------------------------------------------------
  // The input lists
  // ---------------------------------------------------------------------

  /** Every thread can push: with a number of its own into its input list, unless it is
      handing that over, and otherwise directly. */
  lemma EveryThreadPushes(s: Fifo, p: nat, fc: bool, size: nat, seen: int)
    ensures Enabled(s, SlowPush(p, fc, size, seen)) <==> p >= |s.inputs|
    ensures Enabled(s, FastPush(p, fc, size)) <==> p < |s.inputs| && !s.inputs[p].moving
  {
  }

  /** A push into an input list asks for it to be handed over; the hand-over empties it,
      has to be finished, and leaves it as new. */
  lemma InputIsHandedOver(s: Fifo, p: nat, fc: bool, size: nat, seen: int)
    requires Counted(s) && Enabled(s, FastPush(p, fc, size))
    ensures var t := Next(s, FastPush(p, fc, size));
            && Enabled(t, Move(p, seen))
            && var u := Next(t, Move(p, seen));
               && u.inputs[p].items == [] && Enabled(u, FinishMove(p))
               && Next(u, FinishMove(p)).inputs[p] == NO_INPUT
               && forall q :: 0 <= q < |s.inputs| && q != p ==> Next(u, FinishMove(p)).inputs[q] == s.inputs[q]
  {
  }

  /** An input list is registered only while it holds messages or is being handed over. */
  ghost predicate RegisteredRight(s: Fifo) {
    forall p :: 0 <= p < |s.inputs| && s.inputs[p].registered ==> s.inputs[p].items != [] || s.inputs[p].moving
  }

  lemma {:induction false} RegisteredFrom(s: Fifo, steps: seq<Step>)
    requires Counted(s) && RegisteredRight(s)
    ensures RegisteredRight(Run(s, steps))
    decreases |steps|
  {
    if steps == [] {
    } else if Enabled(s, steps[0]) {
      StepRegisters(s, steps[0]);
      RegisteredFrom(Next(s, steps[0]), steps[1..]);
    } else {
      RegisteredFrom(s, steps[1..]);
    }
  }

  lemma StepRegisters(s: Fifo, step: Step)
    requires Counted(s) && RegisteredRight(s) && Enabled(s, step)
    ensures RegisteredRight(Next(s, step))
  {
    match step
    case FastPush(_, _, _) =>
    case Move(_, _) =>
    case FinishMove(_) =>
    case _ =>
  }

  /** In every reachable state with no hand-over under way, the queue reports to be empty
      exactly if nothing is in its input, wait and output lists. */
  lemma EmptyIff(threads: nat, fifoSize: int, steps: seq<Step>)
    ensures var t := Run(NewFifo(threads, fifoSize), steps);
            (forall p :: 0 <= p < |t.inputs| ==> !t.inputs[p].moving) ==>
              (IsEmptyRacy(t) <==> && t.wait.items == [] && t.output.items == []
                                   && forall p :: 0 <= p < |t.inputs| ==> t.inputs[p].items == [])
  {
    RunConserves(threads, fifoSize, steps);
    RegisteredFrom(NewFifo(threads, fifoSize), steps);
  }
}
