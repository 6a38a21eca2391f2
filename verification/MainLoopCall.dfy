/**
 Cross-thread calls into the main loop (lib/mainloop-call.c): a thread fills in
 its call site, queues it for the main thread and may wait for the result.  Two
 locks are involved, and `pending` is cleared under one of them while waiters
 sleep on the other.

 Steps are what a thread does between taking or releasing a lock.  The main task
 lock is held in the phases InCheck, LoopPrevious and LoopCall of a caller and in
 the phase Looping of the handler; the site lock only ever within one step.
 */
module MainLoopCall {
  datatype Phase =
    | Idle
    | Check          // main_loop_wait_for_pending_call_to_finish, about to lock
    | InCheck        // about to look at `pending` under the site lock
    | LoopPrevious   // waiting loop for an earlier call, holding the lock
    | SleepPrevious  // in g_cond_wait
    | WokenPrevious  // woken up, about to take the lock again
    | Ready          // no earlier call is pending
    | Filled         // the call site is filled in
    | LoopCall       // waiting loop for the call itself, holding the lock
    | SleepCall
    | WokenCall

  datatype Made = Made(call: nat, wait: bool)

  datatype Return = Return(call: nat, result: int)

  /** `next`, `nextWait`: arguments of the main_loop_call that is running; `pending` to
      `result`: its call site.  `made`, `ran`, `returned`: what was called, executed, and
      returned to a waiting caller so far. */
  datatype Caller = Caller(
    phase: Phase, next: nat, nextWait: bool,
    pending: bool, wait: bool, call: nat, result: int,
    made: seq<Made>, ran: seq<nat>, returned: seq<Return>)

  datatype Handler =
    | Resting
    | Looping                                 // at the head of the loop, holding the lock
    | Executing(site: nat)
    | Finishing(site: nat, result: int)       // about to store the result
    | Signalling(site: nat, wakeup: bool)     // about to lock and signal

  datatype State = State(callers: seq<Caller>, queue: seq<nat>, posted: bool, handler: Handler)

  /** What the called functions return. */
  type Functions = nat -> int

  datatype Step =
    | Begin(at: nat, call: nat, wait: bool)
    | Lock(at: nat)
    | Inspect(at: nat)
    | Look(at: nat)
    | Fill(at: nat)
    | Submit(at: nat)
    | Wake(at: nat)  // g_cond_wait may return for no reason
    | HandlerStart
    | HandlerPop
    | HandlerRun
    | HandlerFinish
    | HandlerSignal

  const NEW_CALLER := Caller(Idle, 0, false, false, false, 0, 0, [], [], [])

  function NewState(threads: nat): State { State(seq(threads, _ => NEW_CALLER), [], false, Resting) }

  predicate Holds(phase: Phase) { phase.InCheck? || phase.LoopPrevious? || phase.LoopCall? }

  /** The main task lock is free. */
  predicate LockFree(s: State) {
    !s.handler.Looping? && forall i :: 0 <= i < |s.callers| ==> !Holds(s.callers[i].phase)
  }

  predicate Enabled(s: State, step: Step) {
    match step
    case Begin(i, _, _) => i < |s.callers| && s.callers[i].phase == Idle
    case Lock(i) =>
      && i < |s.callers| && LockFree(s)
      && (s.callers[i].phase.Check? || s.callers[i].phase.WokenPrevious? || s.callers[i].phase.WokenCall?)
    case Inspect(i) => i < |s.callers| && s.callers[i].phase.InCheck?
    case Look(i) => i < |s.callers| && (s.callers[i].phase.LoopPrevious? || s.callers[i].phase.LoopCall?)
    case Fill(i) => i < |s.callers| && s.callers[i].phase.Ready?
    case Submit(i) => i < |s.callers| && s.callers[i].phase.Filled? && LockFree(s)
    case Wake(i) => i < |s.callers| && (s.callers[i].phase.SleepPrevious? || s.callers[i].phase.SleepCall?)
    case HandlerStart => s.handler.Resting? && s.posted && LockFree(s)
    case HandlerPop => s.handler.Looping?
    case HandlerRun => s.handler.Executing?
    case HandlerFinish => s.handler.Finishing? && s.handler.site < |s.callers|
    case HandlerSignal => s.handler.Signalling? && s.handler.site < |s.callers| && LockFree(s)
  }

  function AfterWake(phase: Phase): Phase {
    if phase.SleepPrevious? then WokenPrevious else if phase.SleepCall? then WokenCall else phase
  }

  // ---------------------------------------------------------------------
  // Callers
  // ---------------------------------------------------------------------

  function Locked(c: Caller): Caller {
    c.(phase := if c.phase.Check? then InCheck else if c.phase.WokenPrevious? then LoopPrevious else LoopCall)
  }

  /** Asks to be woken up if an earlier call is pending. */
  function Inspected(c: Caller): Caller {
    if c.pending then c.(wait := true, phase := LoopPrevious) else c.(phase := Ready)
  }

  /** One turn of a waiting loop. */
  function Looked(c: Caller): Caller {
    if c.phase.LoopPrevious? then c.(phase := if c.pending then SleepPrevious else Ready)
    else if c.pending then c.(phase := SleepCall)
    else c.(phase := Idle, returned := c.returned + [Return(c.next, c.result)])
  }

  /** The call site is filled in without any lock. */
  function FilledIn(c: Caller): Caller {
    c.(phase := Filled, pending := true, call := c.next, wait := c.nextWait,
       made := c.made + [Made(c.next, c.nextWait)])
  }

  function Submitted(c: Caller): Caller { c.(phase := if c.nextWait then LoopCall else Idle) }

  // ---------------------------------------------------------------------
  // Steps
  // ---------------------------------------------------------------------

  function With(s: State, i: nat, c: Caller): State
    requires i < |s.callers|
  {
    s.(callers := s.callers[i := c])
  }

  function Next(f: Functions, s: State, step: Step): State
    requires Enabled(s, step)
  {
    match step
    case Begin(i, call, wait) => With(s, i, s.callers[i].(phase := Check, next := call, nextWait := wait))
    case Lock(i) => With(s, i, Locked(s.callers[i]))
    case Inspect(i) => With(s, i, Inspected(s.callers[i]))
    case Look(i) => With(s, i, Looked(s.callers[i]))
    case Fill(i) => With(s, i, FilledIn(s.callers[i]))
    case Submit(i) => With(s, i, Submitted(s.callers[i])).(queue := [i] + s.queue, posted := true)
    case Wake(i) => With(s, i, s.callers[i].(phase := AfterWake(s.callers[i].phase)))
    case HandlerStart => s.(posted := false, handler := Looping)
    case HandlerPop =>
      if s.queue == [] then s.(handler := Resting)
      else s.(queue := s.queue[1..], handler := Executing(s.queue[0]))
    case HandlerRun =>
      var i := s.handler.site;
      if i >= |s.callers| then s
      else
        var c := s.callers[i];
        With(s, i, c.(ran := c.ran + [c.call])).(handler := Finishing(i, f(c.call)))
    case HandlerFinish =>
      var i := s.handler.site;
      var c := s.callers[i];
      With(s, i, c.(result := s.handler.result, pending := false)).(handler := Signalling(i, c.wait))
    case HandlerSignal =>
      var i := s.handler.site;
      var c := s.callers[i];
      With(s, i, if s.handler.wakeup then c.(phase := AfterWake(c.phase)) else c).(handler := Looping)
  }

  function Run(f: Functions, s: State, steps: seq<Step>): State
    decreases |steps|
  {
    if steps == [] then s else Run(f, if Enabled(s, steps[0]) then Next(f, s, steps[0]) else s, steps[1..])
  }

  // ---------------------------------------------------------------------
  // The invariant
  // ---------------------------------------------------------------------

  /** The call of `i` has been filled in and not been executed. */
  predicate NotRun(s: State, i: nat)
    requires i < |s.callers|
  {
    s.callers[i].phase.Filled? || i in s.queue || s.handler == Executing(i)
  }

  predicate Asleep(phase: Phase) { phase.SleepPrevious? || phase.SleepCall? }

  predicate WaitsPrevious(phase: Phase) { phase.LoopPrevious? || phase.SleepPrevious? || phase.WokenPrevious? }

  predicate WaitsCall(phase: Phase) { phase.LoopCall? || phase.SleepCall? || phase.WokenCall? }

  /** A call is pending exactly while it is filled in, queued, executed or finished. */
  predicate PendingRight(s: State, i: nat)
    requires i < |s.callers|
  {
    && (s.callers[i].pending <==> NotRun(s, i) || (s.handler.Finishing? && s.handler.site == i))
    && (s.callers[i].phase.Ready? ==> !s.callers[i].pending)
    && (s.callers[i].phase.Filled? ==> i !in s.queue && s.handler != Executing(i) && !(s.handler.Finishing? && s.handler.site == i))
    && (i in s.queue ==> s.handler != Executing(i) && !(s.handler.Finishing? && s.handler.site == i))
  }

  /** Whoever waits for a pending call has asked to be woken up, and whoever sleeps
      on a call that is not pending is about to be. */
  predicate WakeUpRight(s: State, i: nat)
    requires i < |s.callers|
  {
    && (WaitsPrevious(s.callers[i].phase) || WaitsCall(s.callers[i].phase) ==> s.callers[i].pending ==> s.callers[i].wait)
    && (Asleep(s.callers[i].phase) && !s.callers[i].pending ==> s.handler == Signalling(i, true))
  }

  /** What was called, and what of it was called with `wait`, in order. */
  function Calls(made: seq<Made>): seq<nat> {
    if made == [] then [] else Calls(made[..|made| - 1]) + [made[|made| - 1].call]
  }

  function Waited(made: seq<Made>): seq<nat> {
    if made == [] then []
    else Waited(made[..|made| - 1]) + if made[|made| - 1].wait then [made[|made| - 1].call] else []
  }

  lemma OneMoreMade(made: seq<Made>, m: Made)
    ensures Calls(made + [m]) == Calls(made) + [m.call]
    ensures Waited(made + [m]) == Waited(made) + if m.wait then [m.call] else []
  {
    assert (made + [m])[..|made|] == made;
  }

  /** From the moment its site is filled in, a call with `wait` is waited for. */
  predicate Awaits(c: Caller) { (c.phase.Filled? && c.nextWait) || WaitsCall(c.phase) }

  /** While a caller is inside its call, the call site is about this very call. */
  predicate SiteRight(c: Caller) {
    && (c.phase.Filled? || WaitsCall(c.phase) ==> c.call == c.next && c.wait == c.nextWait)
    && (WaitsCall(c.phase) ==> c.nextWait)
  }

  /** Every call that was waited for has returned the result of its function, in order,
      up to the one that is being waited for. */
  predicate ReturnsRight(f: Functions, c: Caller) {
    var outstanding := if Awaits(c) then [c.next] else [];
    && |Waited(c.made)| == |c.returned| + |outstanding|
    && (forall k :: 0 <= k < |c.returned| ==> c.returned[k] == Return(Waited(c.made)[k], f(Waited(c.made)[k])))
    && Waited(c.made)[|c.returned|..] == outstanding
  }

  /** Calls are executed once each, in order, and give the result of their function. */
  predicate ResultsRight(f: Functions, s: State, i: nat)
    requires i < |s.callers|
  {
    && Calls(s.callers[i].made) == s.callers[i].ran + (if NotRun(s, i) then [s.callers[i].call] else [])
    && (s.handler.Finishing? && s.handler.site == i ==> s.handler.result == f(s.callers[i].call))
    && (WaitsCall(s.callers[i].phase) && !s.callers[i].pending ==> s.callers[i].result == f(s.callers[i].call))
    && SiteRight(s.callers[i]) && ReturnsRight(f, s.callers[i])
  }

  ghost predicate QueueRight(s: State) {
    && (forall k :: 0 <= k < |s.queue| ==> s.queue[k] < |s.callers|)
    && (forall k, l :: 0 <= k < l < |s.queue| ==> s.queue[k] != s.queue[l])
    && (s.queue != [] && s.handler.Resting? ==> s.posted)
    && (s.handler.Executing? || s.handler.Finishing? || s.handler.Signalling? ==> s.handler.site < |s.callers|)
  }

  predicate CallerRight(f: Functions, s: State, i: nat)
    requires i < |s.callers|
  {
    PendingRight(s, i) && WakeUpRight(s, i) && ResultsRight(f, s, i)
  }

  ghost predicate Inv(f: Functions, s: State) {
    QueueRight(s) && forall i: nat :: i < |s.callers| ==> CallerRight(f, s, i)
  }

  // ---------------------------------------------------------------------
  // Callers keep it
  // ---------------------------------------------------------------------

  /** Only caller `i` changed, and it is still right. */
  lemma OneCaller(f: Functions, s: State, i: nat, c: Caller)
    requires Inv(f, s) && i < |s.callers| && CallerRight(f, With(s, i, c), i)
    ensures Inv(f, With(s, i, c))
  {
    var t := With(s, i, c);
    forall j: nat | j < |t.callers| ensures CallerRight(f, t, j) {
      assert CallerRight(f, s, j);
    }
  }

  lemma FillReturns(f: Functions, c: Caller)
    requires ReturnsRight(f, c) && c.phase.Ready?
    ensures ReturnsRight(f, FilledIn(c))
  {
    OneMoreMade(c.made, Made(c.next, c.nextWait));
    assert Waited(c.made)[|c.returned|..] == [] && |Waited(c.made)| == |c.returned|;
  }

  lemma LookReturns(f: Functions, c: Caller)
    requires ReturnsRight(f, c) && SiteRight(c) && (c.phase.LoopPrevious? || c.phase.LoopCall?)
    requires c.phase.LoopCall? && !c.pending ==> c.result == f(c.call)
    ensures ReturnsRight(f, Looked(c))
  {
    var w := Waited(c.made);
    if c.phase.LoopCall? && !c.pending {
      assert w[|c.returned|] == w[|c.returned|..][0] == c.next;
    }
  }

  lemma FillKeeps(f: Functions, s: State, i: nat)
    requires Inv(f, s) && Enabled(s, Fill(i))
    ensures Inv(f, Next(f, s, Fill(i)))
  {
    var c := s.callers[i];
    assert CallerRight(f, s, i);
    assert c.ran + [] == c.ran;
    OneMoreMade(c.made, Made(c.next, c.nextWait));
    FillReturns(f, c);
    OneCaller(f, s, i, FilledIn(c));
  }

  lemma LookKeeps(f: Functions, s: State, i: nat)
    requires Inv(f, s) && Enabled(s, Look(i))
    ensures Inv(f, Next(f, s, Look(i)))
  {
    assert CallerRight(f, s, i);
    LookReturns(f, s.callers[i]);
    OneCaller(f, s, i, Looked(s.callers[i]));
  }

  lemma SameReturns(f: Functions, c: Caller, d: Caller)
    requires ReturnsRight(f, c) && d.made == c.made && d.returned == c.returned
    requires Awaits(d) == Awaits(c) && (Awaits(c) ==> d.next == c.next)
    ensures ReturnsRight(f, d)
  {
  }

  lemma BeginKeeps(f: Functions, s: State, i: nat, call: nat, wait: bool)
    requires Inv(f, s) && Enabled(s, Begin(i, call, wait))
    ensures Inv(f, Next(f, s, Begin(i, call, wait)))
  {
    var c := s.callers[i].(phase := Check, next := call, nextWait := wait);
    assert CallerRight(f, s, i);
    SameReturns(f, s.callers[i], c);
    OneCaller(f, s, i, c);
  }

  lemma LockKeeps(f: Functions, s: State, i: nat)
    requires Inv(f, s) && Enabled(s, Lock(i))
    ensures Inv(f, Next(f, s, Lock(i)))
  {
    assert CallerRight(f, s, i);
    SameReturns(f, s.callers[i], Locked(s.callers[i]));
    OneCaller(f, s, i, Locked(s.callers[i]));
  }

  lemma InspectKeeps(f: Functions, s: State, i: nat)
    requires Inv(f, s) && Enabled(s, Inspect(i))
    ensures Inv(f, Next(f, s, Inspect(i)))
  {
    assert CallerRight(f, s, i);
    SameReturns(f, s.callers[i], Inspected(s.callers[i]));
    OneCaller(f, s, i, Inspected(s.callers[i]));
  }

  lemma WakeKeeps(f: Functions, s: State, i: nat)
    requires Inv(f, s) && i < |s.callers|
    ensures Inv(f, With(s, i, s.callers[i].(phase := AfterWake(s.callers[i].phase))))
  {
    var c := s.callers[i].(phase := AfterWake(s.callers[i].phase));
    assert CallerRight(f, s, i);
    SameReturns(f, s.callers[i], c);
    OneCaller(f, s, i, c);
  }

  lemma SubmitKeeps(f: Functions, s: State, i: nat)
    requires Inv(f, s) && Enabled(s, Submit(i))
    ensures Inv(f, Next(f, s, Submit(i)))
  {
    var t := Next(f, s, Submit(i));
    assert CallerRight(f, s, i);
    assert t.queue[0] == i && t.queue[1..] == s.queue;
    forall j: nat | j < |t.callers| ensures CallerRight(f, t, j) {
      assert CallerRight(f, s, j);
      assert j in t.queue <==> j == i || j in s.queue;
    }
  }

  // ---------------------------------------------------------------------
  // The handler keeps it
  // ---------------------------------------------------------------------

  lemma StartKeeps(f: Functions, s: State)
    requires Inv(f, s) && Enabled(s, HandlerStart)
    ensures Inv(f, Next(f, s, HandlerStart))
  {
    var t := Next(f, s, HandlerStart);
    forall j: nat | j < |t.callers| ensures CallerRight(f, t, j) {
      assert CallerRight(f, s, j);
    }
  }

  lemma PopKeeps(f: Functions, s: State)
    requires Inv(f, s) && s.handler.Looping?
    ensures Inv(f, Next(f, s, HandlerPop))
  {
    var t := Next(f, s, HandlerPop);
    assert s.queue != [] ==> s.queue == [s.queue[0]] + t.queue;
    forall j: nat | j < |t.callers| ensures CallerRight(f, t, j) {
      assert CallerRight(f, s, j);
      assert s.queue != [] ==> (j in s.queue <==> j == s.queue[0] || j in t.queue);
      assert s.queue != [] && j == s.queue[0] ==> j !in t.queue;
    }
  }

  lemma HandlerRunKeeps(f: Functions, s: State)
    requires Inv(f, s) && s.handler.Executing?
    ensures Inv(f, Next(f, s, HandlerRun))
  {
    var t, i := Next(f, s, HandlerRun), s.handler.site;
    forall j: nat | j < |t.callers| ensures CallerRight(f, t, j) {
      assert CallerRight(f, s, j);
      assert j == i ==> t.callers[i].ran + [] == t.callers[i].ran;
    }
  }

  lemma FinishKeeps(f: Functions, s: State)
    requires Inv(f, s) && Enabled(s, HandlerFinish)
    ensures Inv(f, Next(f, s, HandlerFinish))
  {
    var t := Next(f, s, HandlerFinish);
    forall j: nat | j < |t.callers| ensures CallerRight(f, t, j) {
      assert CallerRight(f, s, j);
    }
  }

  lemma SignalKeeps(f: Functions, s: State)
    requires Inv(f, s) && Enabled(s, HandlerSignal)
    ensures Inv(f, Next(f, s, HandlerSignal))
  {
    var i := s.handler.site;
    var c := s.callers[i];
    var woken := With(s, i, if s.handler.wakeup then c.(phase := AfterWake(c.phase)) else c);
    if s.handler.wakeup {
      WakeKeeps(f, s, i);
    } else {
      assert woken == s;
    }
    var t := woken.(handler := Looping);
    forall j: nat | j < |t.callers| ensures CallerRight(f, t, j) {
      assert CallerRight(f, woken, j);
    }
  }

  lemma StepKeeps(f: Functions, s: State, step: Step)
    requires Inv(f, s) && Enabled(s, step)
    ensures Inv(f, Next(f, s, step))
  {
    match step
    case Begin(i, call, wait) => BeginKeeps(f, s, i, call, wait);
    case Lock(i) => LockKeeps(f, s, i);
    case Inspect(i) => InspectKeeps(f, s, i);
    case Look(i) => LookKeeps(f, s, i);
    case Fill(i) => FillKeeps(f, s, i);
    case Submit(i) => SubmitKeeps(f, s, i);
    case Wake(i) => WakeKeeps(f, s, i);
    case HandlerStart => StartKeeps(f, s);
    case HandlerPop => PopKeeps(f, s);
    case HandlerRun => HandlerRunKeeps(f, s);
    case HandlerFinish => FinishKeeps(f, s);
    case HandlerSignal => SignalKeeps(f, s);
  }

  // ---------------------------------------------------------------------
  // Runs
  // ---------------------------------------------------------------------

  lemma {:induction false} RunKeeps(f: Functions, s: State, steps: seq<Step>)
    requires Inv(f, s)
    ensures Inv(f, Run(f, s, steps))
    decreases |steps|
  {
    if steps == [] {
    } else if Enabled(s, steps[0]) {
      StepKeeps(f, s, steps[0]);
      RunKeeps(f, Next(f, s, steps[0]), steps[1..]);
    } else {
      RunKeeps(f, s, steps[1..]);
    }
  }

  lemma {:induction false} RunKeepsCallers(f: Functions, s: State, steps: seq<Step>)
    ensures |Run(f, s, steps).callers| == |s.callers|
    decreases |steps|
  {
    if steps == [] {
    } else {
      RunKeepsCallers(f, if Enabled(s, steps[0]) then Next(f, s, steps[0]) else s, steps[1..]);
    }
  }

  /** The main task lock has at most one holder. */
  predicate Exclusive(s: State) {
    && (forall i, j :: 0 <= i < |s.callers| && 0 <= j < |s.callers| && Holds(s.callers[i].phase) && Holds(s.callers[j].phase)
                       ==> i == j)
    && (s.handler.Looping? ==> forall i :: 0 <= i < |s.callers| ==> !Holds(s.callers[i].phase))
  }

  /** Changing one caller keeps the lock exclusive if it held the lock before or does not
      hold it afterwards, or if the lock was free. */
  lemma OneCallerExclusive(s: State, i: nat, c: Caller)
    requires i < |s.callers| && Exclusive(s)
    requires Holds(c.phase) ==> Holds(s.callers[i].phase) || LockFree(s)
    ensures Exclusive(With(s, i, c))
  {
  }

  lemma StepExclusive(f: Functions, s: State, step: Step)
    requires Exclusive(s) && Enabled(s, step)
    ensures Exclusive(Next(f, s, step))
  {
    match step
    case Begin(i, call, wait) => OneCallerExclusive(s, i, s.callers[i].(phase := Check, next := call, nextWait := wait));
    case Lock(i) => OneCallerExclusive(s, i, Locked(s.callers[i]));
    case Inspect(i) => OneCallerExclusive(s, i, Inspected(s.callers[i]));
    case Look(i) => OneCallerExclusive(s, i, Looked(s.callers[i]));
    case Fill(i) => OneCallerExclusive(s, i, FilledIn(s.callers[i]));
    case Submit(i) => OneCallerExclusive(s, i, Submitted(s.callers[i]));
    case Wake(i) => OneCallerExclusive(s, i, s.callers[i].(phase := AfterWake(s.callers[i].phase)));
    case HandlerStart =>
    case HandlerPop =>
    case HandlerRun => HandlerRunExclusive(f, s);
    case HandlerFinish =>
      var c := s.callers[s.handler.site];
      OneCallerExclusive(s, s.handler.site, c.(result := s.handler.result, pending := false));
    case HandlerSignal =>
      var c := s.callers[s.handler.site];
      var d := if s.handler.wakeup then c.(phase := AfterWake(c.phase)) else c;
      assert !Holds(d.phase);
      OneCallerExclusive(s, s.handler.site, d);
  }

  lemma HandlerRunExclusive(f: Functions, s: State)
    requires Exclusive(s) && s.handler.Executing?
    ensures Exclusive(Next(f, s, HandlerRun))
  {
    if s.handler.site < |s.callers| {
      var c := s.callers[s.handler.site];
      OneCallerExclusive(s, s.handler.site, c.(ran := c.ran + [c.call]));
    }
  }

  /** In every run at most one of the callers and the handler holds the lock. */
  lemma {:induction false} RunExclusive(f: Functions, s: State, steps: seq<Step>)
    requires Exclusive(s)
    ensures Exclusive(Run(f, s, steps))
    decreases |steps|
  {
    if steps == [] {
    } else if Enabled(s, steps[0]) {
      StepExclusive(f, s, steps[0]);
      RunExclusive(f, Next(f, s, steps[0]), steps[1..]);
    } else {
      RunExclusive(f, s, steps[1..]);
    }
  }

  /** In every run, for every thread: its calls are executed exactly once and in order,
      the last one possibly still outstanding; its calls with `wait` have returned the
      results of their own functions, each of them and in order, up to the one it is
      waiting for; and if it sleeps on a finished call, the handler is committed to
      signal it. */
  lemma CallsRunOnce(f: Functions, threads: nat, steps: seq<Step>, i: nat)
    requires i < threads
    ensures var s := Run(f, NewState(threads), steps);
            i < |s.callers|
            && var c := s.callers[i];
               && Calls(c.made) == c.ran + (if NotRun(s, i) then [c.call] else [])
               && |Waited(c.made)| == |c.returned| + (if Awaits(c) then 1 else 0)
               && (forall k :: 0 <= k < |c.returned| ==>
                     c.returned[k] == Return(Waited(c.made)[k], f(Waited(c.made)[k])))
               && (Awaits(c) ==> Waited(c.made)[|c.returned|] == c.next)
               && (Asleep(c.phase) && !c.pending ==> s.handler == Signalling(i, true))
               && (i in s.queue ==> s.posted || !s.handler.Resting?)
  {
    var t := Run(f, NewState(threads), steps);
    ReachesInv(f, threads, steps);
    RunKeepsCallers(f, NewState(threads), steps);
    assert CallerRight(f, t, i);
    OutstandingIsLast(f, t.callers[i]);
  }

  lemma OutstandingIsLast(f: Functions, c: Caller)
    requires ReturnsRight(f, c)
    ensures Awaits(c) ==> |Waited(c.made)| > |c.returned| && Waited(c.made)[|c.returned|] == c.next
  {
    if Awaits(c) {
      assert Waited(c.made)[|c.returned|] == Waited(c.made)[|c.returned|..][0];
    }
  }

  // ---------------------------------------------------------------------
  // Nobody waits for ever
  // ---------------------------------------------------------------------

  /** Steps that some thread is bound to take: neither new calls nor spurious wake-ups. */
  predicate Bound(s: State, step: Step) { Enabled(s, step) && !step.Begin? && !step.Wake? }

  lemma HolderMoves(s: State)
    requires !LockFree(s)
    ensures exists step :: Bound(s, step)
  {
    if s.handler.Looping? {
      assert Bound(s, HandlerPop);
    } else {
      var i: nat :| i < |s.callers| && Holds(s.callers[i].phase);
      assert if s.callers[i].phase.InCheck? then Bound(s, Inspect(i)) else Bound(s, Look(i));
    }
  }

  lemma HandlerMoves(s: State)
    requires QueueRight(s) && LockFree(s) && (!s.handler.Resting? || s.posted)
    ensures exists step :: Bound(s, step)
  {
    match s.handler
    case Resting => assert Bound(s, HandlerStart);
    case Looping =>
    case Executing(_) => assert Bound(s, HandlerRun);
    case Finishing(_, _) => assert Bound(s, HandlerFinish);
    case Signalling(_, _) => assert Bound(s, HandlerSignal);
  }

  /** As long as a thread is inside a call there is a step that some thread is bound to
      take. */
  lemma NoDeadlock(f: Functions, s: State, i: nat)
    requires Inv(f, s) && i < |s.callers| && !s.callers[i].phase.Idle?
    ensures exists step :: Bound(s, step)
  {
    assert CallerRight(f, s, i);
    if !LockFree(s) {
      HolderMoves(s);
    } else if !s.handler.Resting? || s.posted {
      HandlerMoves(s);
    } else {
      assert s.queue == [];
      match s.callers[i].phase
      case Ready => assert Bound(s, Fill(i));
      case Filled => assert Bound(s, Submit(i));
      case Check => assert Bound(s, Lock(i));
      case WokenPrevious => assert Bound(s, Lock(i));
      case WokenCall => assert Bound(s, Lock(i));
      case _ =>
    }
  }

  /** Steps a caller may still take; being woken up costs two. */
  function PhaseWork(phase: Phase): nat {
    match phase
    case Idle => 0
    case SleepCall => 1
    case LoopCall => 2
    case WokenCall => 3
    case Filled => 11
    case Ready => 12
    case SleepPrevious => 13
    case LoopPrevious => 14
    case WokenPrevious => 15
    case InCheck => 15
    case Check => 16
  }

  function HandlerWork(handler: Handler): nat {
    match handler
    case Resting => 0
    case Looping => 1
    case Signalling(_, _) => 4
    case Finishing(_, _) => 5
    case Executing(_) => 6
  }

  function CallersWork(callers: seq<Caller>): nat {
    if callers == [] then 0 else PhaseWork(callers[0].phase) + CallersWork(callers[1..])
  }

  /** What is left to do, as long as nobody makes a new call. */
  function Work(s: State): nat {
    CallersWork(s.callers) + 6 * |s.queue| + HandlerWork(s.handler) + if s.posted then 2 else 0
  }

  lemma {:induction false} WorkOfOne(callers: seq<Caller>, i: nat, c: Caller)
    requires i < |callers|
    ensures CallersWork(callers[i := c]) - PhaseWork(c.phase) == CallersWork(callers) - PhaseWork(callers[i].phase)
  {
    if i == 0 {
      assert callers[0 := c][1..] == callers[1..];
    } else {
      assert callers[i := c][1..] == callers[1..][i - 1 := c];
      WorkOfOne(callers[1..], i - 1, c);
    }
  }

  lemma CallerDrains(f: Functions, s: State, step: Step)
    requires Bound(s, step) && (step.Lock? || step.Inspect? || step.Look? || step.Fill? || step.Submit?)
    ensures Work(Next(f, s, step)) < Work(s)
  {
    var i := step.at;
    var c := Next(f, s, step).callers[i];
    WorkOfOne(s.callers, i, c);
    if step.Submit? {
      SubmitDrains(f, s, i);
    } else {
      CallerMoves(f, s, step);
    }
  }

  /** The work of the caller alone. */
  lemma CallerMoves(f: Functions, s: State, step: Step)
    requires Bound(s, step) && (step.Lock? || step.Inspect? || step.Look? || step.Fill?)
    ensures var t, c := Next(f, s, step), Next(f, s, step).callers[step.at];
            t == With(s, step.at, c) && PhaseWork(c.phase) < PhaseWork(s.callers[step.at].phase)
  {
  }

  lemma SubmitDrains(f: Functions, s: State, i: nat)
    requires Enabled(s, Submit(i))
    ensures var t, c := Next(f, s, Submit(i)), Submitted(s.callers[i]);
            && t.callers == s.callers[i := c] && |t.queue| == |s.queue| + 1 && t.handler == s.handler
            && PhaseWork(c.phase) + 9 <= PhaseWork(s.callers[i].phase)
  {
  }

  lemma HandlerDrains(f: Functions, s: State, step: Step)
    requires s.handler.Executing? ==> s.handler.site < |s.callers|
    requires Bound(s, step) && !(step.Lock? || step.Inspect? || step.Look? || step.Fill? || step.Submit?)
    ensures Work(Next(f, s, step)) < Work(s)
  {
    match step
    case HandlerStart =>
    case HandlerPop =>
    case HandlerRun => WorkOfOne(s.callers, s.handler.site, Next(f, s, step).callers[s.handler.site]);
    case HandlerFinish => WorkOfOne(s.callers, s.handler.site, Next(f, s, step).callers[s.handler.site]);
    case HandlerSignal => WorkOfOne(s.callers, s.handler.site, Next(f, s, step).callers[s.handler.site]);
  }

  /** Every bound step leaves less to do. */
  lemma StepsDrain(f: Functions, s: State, step: Step)
    requires Inv(f, s) && Bound(s, step)
    ensures Work(Next(f, s, step)) < Work(s)
  {
    if step.Lock? || step.Inspect? || step.Look? || step.Fill? || step.Submit? {
      CallerDrains(f, s, step);
    } else {
      HandlerDrains(f, s, step);
    }
  }

  predicate AllBound(f: Functions, s: State, steps: seq<Step>)
    decreases |steps|
  {
    steps == [] || (Bound(s, steps[0]) && AllBound(f, Next(f, s, steps[0]), steps[1..]))
  }

  /** Whichever bound steps are taken, they come to an end. */
  lemma {:induction false} BoundRunsEnd(f: Functions, s: State, steps: seq<Step>)
    requires Inv(f, s) && AllBound(f, s, steps)
    ensures |steps| + Work(Run(f, s, steps)) <= Work(s)
    decreases |steps|
  {
    if steps == [] {
    } else {
      StepKeeps(f, s, steps[0]);
      StepsDrain(f, s, steps[0]);
      BoundRunsEnd(f, Next(f, s, steps[0]), steps[1..]);
    }
  }

  /** And where no bound step is left, nobody is inside a call: every caller has
      returned, and with it, if it waited, the result of its own call. */
  lemma EveryoneReturns(f: Functions, threads: nat, steps: seq<Step>, i: nat)
    requires i < threads && !exists step :: Bound(Run(f, NewState(threads), steps), step)
    ensures var s := Run(f, NewState(threads), steps);
            i < |s.callers|
            && var c := s.callers[i];
               && c.phase.Idle? && |c.returned| == |Waited(c.made)|
               && forall k :: 0 <= k < |c.returned| ==> c.returned[k] == Return(Waited(c.made)[k], f(Waited(c.made)[k]))
  {
    CallsRunOnce(f, threads, steps, i);
    ReachesInv(f, threads, steps);
    if !Run(f, NewState(threads), steps).callers[i].phase.Idle? {
      NoDeadlock(f, Run(f, NewState(threads), steps), i);
    }
  }

  lemma ReachesInv(f: Functions, threads: nat, steps: seq<Step>)
    ensures Inv(f, Run(f, NewState(threads), steps))
  {
    var s := NewState(threads);
    forall j: nat | j < |s.callers| ensures CallerRight(f, s, j) {
    }
    RunKeeps(f, s, steps);
  }
}
