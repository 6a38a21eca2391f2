/**
 The internal() source (lib/afinter.c): any thread may post an internal message;
 the thread of the source moves messages from a bounded queue into the log path
 while its window allows; destinations acknowledge from their own threads.

 Steps are critical sections and atomic accesses.  The source thread runs one
 handler at a time, each in several steps, so posters and acknowledgements may
 come in between.
 */
module InternalSource {
  /** Where the source thread is. */
  datatype Phase =
    | Starting       // afinter_source_run before the main loop
    | Between        // in the main loop, between handlers
    | PostCheck      // afinter_source_post, before looking at the window
    | PostPop        // about to pop a message
    | PostSend(msg: nat)
    | UpdateCheck    // afinter_source_update_watches, before looking at the window
    | FallAsleep     // about to clear free_to_send
    | StopWatches    // about to stop the watches
    | RestartWatches // about to stop and start the watches
    | WakeUp         // about to look at the queue and set free_to_send

  /** `committed`: acknowledgements that made the window usable and are about to post
      the wake-up event.  `accepted`, `sent`: history of queued and sent messages. */
  datatype Source = Source(
    phase: Phase, queue: seq<nat>, capacity: nat, freeToSend: bool, watchesRunning: bool,
    post: bool, restart: bool, wakeup: bool,
    window: int, suspended: bool, committed: nat,
    accepted: seq<nat>, dropped: nat, sent: seq<nat>)

  datatype Step =
    | PostMessage(msg: nat)
    | Ack(count: nat, lastSuspended: bool)
    | PostWakeup
    | Suspend
    | Start
    | DispatchPost
    | DispatchRestart
    | DispatchWakeup
    | Proceed

  function NewSource(capacity: nat, window: nat): Source {
    Source(Starting, [], capacity, false, false, false, false, false, window, false, 0, [], 0, [])
  }

  /** log_source_free_to_send */
  predicate Free(s: Source) { s.window != 0 && !s.suspended }

  predicate Enabled(s: Source, step: Step) {
    match step
    case PostMessage(_) => true
    case Ack(_, _) => true
    case PostWakeup => s.committed > 0
    case Suspend => true
    case Start => s.phase.Starting?
    case DispatchPost => s.phase.Between? && s.post
    case DispatchRestart => s.phase.Between? && s.restart
    case DispatchWakeup => s.phase.Between? && s.wakeup
    case Proceed => !s.phase.Starting? && !s.phase.Between?
  }

  /** afinter_message_posted */
  function Posted(s: Source, msg: nat): Source {
    if |s.queue| >= s.capacity then s.(dropped := s.dropped + 1)
    else s.(queue := s.queue + [msg], accepted := s.accepted + [msg], post := s.post || s.freeToSend)
  }

  /** _flow_control_window_size_adjust, up to the call of the wakeup method. */
  function Acked(s: Source, count: nat, lastSuspended: bool): Source {
    var resume := !lastSuspended && (s.suspended || s.window == 0);
    s.(window := s.window + count, suspended := s.suspended && !resume,
       committed := s.committed + if s.window == 0 || resume then 1 else 0)
  }

  /** afinter_source_stop_watches */
  function Stopped(s: Source): Source {
    if s.watchesRunning then s.(restart := false, watchesRunning := false) else s
  }

  /** The next step of the handler that is running. */
  function Proceeded(s: Source): Source {
    match s.phase
    case PostCheck => s.(phase := if Free(s) then PostPop else UpdateCheck)
    case PostPop =>
      if s.queue == [] then s.(phase := UpdateCheck)
      else s.(phase := PostSend(s.queue[0]), queue := s.queue[1..])
    case PostSend(msg) => s.(phase := PostCheck, window := s.window - 1, sent := s.sent + [msg])
    case UpdateCheck => s.(phase := if Free(s) then RestartWatches else FallAsleep)
    case FallAsleep => s.(phase := StopWatches, freeToSend := false)
    case StopWatches => Stopped(s).(phase := Between)
    case RestartWatches => Stopped(s).(phase := WakeUp, watchesRunning := true)
    case WakeUp => s.(phase := Between, freeToSend := true, restart := s.restart || s.queue != [])
    case _ => s
  }

  function Next(s: Source, step: Step): Source
    requires Enabled(s, step)
  {
    match step
    case PostMessage(msg) => Posted(s, msg)
    case Ack(count, last) => Acked(s, count, last)
    case PostWakeup => s.(committed := s.committed - 1, wakeup := true)
    case Suspend => s.(suspended := true)
    case Start => s.(phase := UpdateCheck, freeToSend := true, watchesRunning := true)
    case DispatchPost => s.(phase := PostCheck, post := false)
    case DispatchRestart => s.(phase := PostCheck, restart := false)
    case DispatchWakeup => s.(phase := UpdateCheck, wakeup := false)
    case Proceed => Proceeded(s)
  }

  /** What the code relies on: a message is sent only with a free window, and the
      restart task is registered only when it is not registered. */
  predicate StepOk(s: Source, step: Step) {
    step.Proceed? ==> (s.phase.PostSend? ==> s.window > 0) && (s.phase.WakeUp? && s.queue != [] ==> !s.restart)
  }

  function Run(s: Source, steps: seq<Step>): Source
    decreases |steps|
  {
    if steps == [] then s else Run(if Enabled(s, steps[0]) then Next(s, steps[0]) else s, steps[1..])
  }

  predicate AllOk(s: Source, steps: seq<Step>)
    decreases |steps|
  {
    steps == [] || if Enabled(s, steps[0]) then StepOk(s, steps[0]) && AllOk(Next(s, steps[0]), steps[1..])
                   else AllOk(s, steps[1..])
  }

  // ---------------------------------------------------------------------
  // The invariant
  // ---------------------------------------------------------------------

  function InHand(s: Source): seq<nat> { if s.phase.PostSend? then [s.phase.msg] else [] }

  /** A wake-up is on its way. */
  predicate WakeupDue(s: Source) { s.wakeup || s.committed > 0 }

  /** The source thread is asleep or about to be: it saw that it could not send. */
  predicate Asleep(s: Source) {
    s.phase.FallAsleep? || s.phase.StopWatches? || (s.phase.Between? && !s.freeToSend)
  }

  /** Messages are in line, and the queue is within its capacity. */
  predicate LineRight(s: Source) {
    |s.queue| <= s.capacity && s.accepted == s.sent + InHand(s) + s.queue
  }

  predicate WindowRight(s: Source) {
    s.window >= 0 && (s.phase.PostPop? || s.phase.PostSend? ==> s.window > 0)
  }

  predicate WatchesRight(s: Source) {
    && (s.restart ==> s.watchesRunning)
    && (s.phase.WakeUp? ==> !s.restart && s.watchesRunning)
    && (s.phase.StopWatches? ==> !s.freeToSend)
  }

  predicate EventsRight(s: Source) {
    && (Asleep(s) && Free(s) ==> WakeupDue(s))
    && (s.phase.Between? && s.freeToSend && s.queue != [] ==> s.post || s.restart)
  }

  predicate Inv(s: Source) { LineRight(s) && WindowRight(s) && WatchesRight(s) && EventsRight(s) }

  /** A message is dropped exactly when the queue is full; otherwise it is the last one
      of the queue, and the source is told if it listens. */
  lemma PostedDropsIff(s: Source, msg: nat)
    ensures Enabled(s, PostMessage(msg))
    ensures var t := Posted(s, msg);
            && (t.dropped == s.dropped + 1 <==> |s.queue| >= s.capacity)
            && (t.dropped == s.dropped <==> t.queue == s.queue + [msg])
            && (t.dropped != s.dropped ==> t.queue == s.queue && t.post == s.post)
            && (t.dropped == s.dropped && s.freeToSend ==> t.post)
            && (t.post ==> s.post || s.freeToSend)
  {
    assert |s.queue + [msg]| != |s.queue|;
  }

  /** An acknowledgement frees the source exactly if there is a credit and it resumes a
      suspended source; one that frees a blocked source is committed to wake it up. */
  lemma AckFreesIff(s: Source, count: nat, lastSuspended: bool)
    requires s.window >= 0
    ensures Enabled(s, Ack(count, lastSuspended))
    ensures var t := Acked(s, count, lastSuspended);
            && t.window == s.window + count
            && (Free(t) <==> t.window > 0 && (!s.suspended || !lastSuspended))
            && (lastSuspended ==> t.suspended == s.suspended)
            && (!Free(s) && Free(t) ==> t.committed > s.committed)
  {
  }

  lemma CheckKeeps(s: Source)
    requires Inv(s) && (s.phase.PostCheck? || s.phase.UpdateCheck?)
    ensures Inv(Proceeded(s)) && Proceeded(s).capacity == s.capacity
  {
    assert InHand(Proceeded(s)) == InHand(s);
  }

  lemma PopKeeps(s: Source)
    requires Inv(s) && s.phase.PostPop?
    ensures Inv(Proceeded(s)) && Proceeded(s).capacity == s.capacity
  {
    if s.queue != [] {
      var x, rest := s.queue[0], s.queue[1..];
      assert s.queue == [x] + rest;
      assert s.sent + [] + ([x] + rest) == s.sent + [x] + rest;
    }
  }

  lemma SendKeeps(s: Source)
    requires Inv(s) && s.phase.PostSend?
    ensures Inv(Proceeded(s)) && Proceeded(s).capacity == s.capacity
  {
    assert s.sent + [s.phase.msg] + [] == s.sent + [s.phase.msg];
  }

  lemma SleepKeeps(s: Source)
    requires Inv(s) && (s.phase.FallAsleep? || s.phase.StopWatches?)
    ensures Inv(Proceeded(s)) && Proceeded(s).capacity == s.capacity
  {
    assert InHand(Proceeded(s)) == InHand(s);
  }

  lemma WakeKeeps(s: Source)
    requires Inv(s) && (s.phase.RestartWatches? || s.phase.WakeUp?)
    ensures Inv(Proceeded(s)) && Proceeded(s).capacity == s.capacity
  {
    assert InHand(Proceeded(s)) == InHand(s);
  }

  lemma PostKeeps(s: Source, msg: nat)
    requires Inv(s)
    ensures Inv(Posted(s, msg))
  {
    if |s.queue| < s.capacity {
      assert s.sent + InHand(s) + s.queue + [msg] == s.sent + InHand(s) + (s.queue + [msg]);
    }
  }

  lemma ProceedKeeps(s: Source)
    requires Inv(s) && Enabled(s, Proceed)
    ensures Inv(Proceeded(s)) && StepOk(s, Proceed) && Proceeded(s).capacity == s.capacity
  {
    match s.phase
    case PostCheck => CheckKeeps(s);
    case PostPop => PopKeeps(s);
    case PostSend(_) => SendKeeps(s);
    case UpdateCheck => CheckKeeps(s);
    case FallAsleep => SleepKeeps(s);
    case StopWatches => SleepKeeps(s);
    case RestartWatches => WakeKeeps(s);
    case WakeUp => WakeKeeps(s);
  }

  lemma StepKeeps(s: Source, step: Step)
    requires Inv(s) && Enabled(s, step)
    ensures Inv(Next(s, step)) && StepOk(s, step) && Next(s, step).capacity == s.capacity
  {
    match step
    case PostMessage(msg) => PostKeeps(s, msg);
    case Ack(count, last) =>
    case PostWakeup =>
    case Suspend =>
    case Start =>
    case DispatchPost =>
    case DispatchRestart =>
    case DispatchWakeup =>
    case Proceed => ProceedKeeps(s);
  }

  /** In every run: the queue stays within its capacity, messages are sent in the order
      they were accepted, none is lost, the window is never overdrawn, and whenever the
      source thread is between handlers, a waiting message together with a free window
      means that a handler is due or an acknowledgement is about to cause one. */
  lemma {:induction false} RunKeeps(s: Source, steps: seq<Step>)
    requires Inv(s)
    ensures var t := Run(s, steps);
            && Inv(t) && t.capacity == s.capacity
            && (t.phase.Between? && t.queue != [] && Free(t) ==> t.post || t.restart || t.wakeup || t.committed > 0)
    ensures AllOk(s, steps)
    decreases |steps|
  {
    if steps == [] {
    } else if Enabled(s, steps[0]) {
      StepKeeps(s, steps[0]);
      RunKeeps(Next(s, steps[0]), steps[1..]);
    } else {
      RunKeeps(s, steps[1..]);
    }
  }

  lemma NoStrandedMessage(capacity: nat, window: nat, steps: seq<Step>)
    ensures var t := Run(NewSource(capacity, window), steps);
            && |t.queue| <= capacity
            && t.accepted == t.sent + InHand(t) + t.queue
            && (t.phase.Between? && t.queue != [] && Free(t) ==> t.post || t.restart || t.wakeup || t.committed > 0)
    ensures AllOk(NewSource(capacity, window), steps)
  {
    RunKeeps(NewSource(capacity, window), steps);
  }

  // ---------------------------------------------------------------------
  // Progress
  // ---------------------------------------------------------------------

  /** Steps that nothing from outside is needed for. */
  predicate Own(step: Step) { !step.PostMessage? && !step.Ack? && !step.Suspend? }

  predicate AllOwn(s: Source, steps: seq<Step>)
    decreases |steps|
  {
    steps == [] || (Own(steps[0]) && Enabled(s, steps[0]) && AllOwn(Next(s, steps[0]), steps[1..]))
  }

  /** No such step is possible. */
  ghost predicate Settled(s: Source) { forall step :: Own(step) ==> !Enabled(s, step) }

  function PhaseWork(s: Source): nat {
    match s.phase
    case Starting => 15
    case Between => 0
    case PostCheck => 7
    case PostPop => 6
    case PostSend(_) => 8
    case UpdateCheck => 5 + if Free(s) && s.queue != [] then 8 else 0
    case FallAsleep => 4
    case StopWatches => 3
    case RestartWatches => 4 + if s.queue != [] then 8 else 0
    case WakeUp => 3 + if s.queue != [] then 8 else 0
  }

  /** How many steps of its own the source can take at most. */
  function Work(s: Source): nat {
    PhaseWork(s) + 3 * |s.queue| + 15 * s.committed
    + (if s.wakeup then 14 else 0) + (if s.post then 8 else 0) + (if s.restart then 8 else 0)
  }

  lemma PostWorks(s: Source)
    requires s.phase.PostCheck? || s.phase.PostPop? || s.phase.PostSend?
    ensures Work(Proceeded(s)) < Work(s) && Proceeded(s).accepted == s.accepted
  {
  }

  lemma UpdateWorks(s: Source)
    requires WatchesRight(s)
    requires s.phase.UpdateCheck? || s.phase.FallAsleep? || s.phase.StopWatches? || s.phase.RestartWatches? || s.phase.WakeUp?
    ensures Work(Proceeded(s)) < Work(s) && Proceeded(s).accepted == s.accepted
  {
  }

  lemma OwnStepWorks(s: Source, step: Step)
    requires WatchesRight(s) && Own(step) && Enabled(s, step)
    ensures Work(Next(s, step)) < Work(s) && Next(s, step).accepted == s.accepted
  {
    match step
    case Proceed =>
      if s.phase.PostCheck? || s.phase.PostPop? || s.phase.PostSend? {
        PostWorks(s);
      } else {
        UpdateWorks(s);
      }
    case PostWakeup =>
    case Start =>
    case DispatchPost =>
    case DispatchRestart =>
    case DispatchWakeup =>
  }

  /** Left alone, the source comes to rest within `Work` steps, whichever it takes; it
      rests only when everything accepted is sent or it is not allowed to send. */
  lemma {:induction false} ComesToRest(s: Source, steps: seq<Step>)
    requires Inv(s) && AllOwn(s, steps)
    ensures var t := Run(s, steps);
            && |steps| + Work(t) <= Work(s)
            && (Settled(t) ==> t.sent == s.accepted || !Free(t))
    decreases |steps|
  {
    if steps == [] {
      RestsIff(s);
    } else {
      StepKeeps(s, steps[0]);
      OwnStepWorks(s, steps[0]);
      ComesToRest(Next(s, steps[0]), steps[1..]);
    }
  }

  /** After any run at all, what has been accepted is sent in the end unless the window
      or a suspended destination forbids it. */
  lemma AcceptedIsSentOrBlocked(capacity: nat, window: nat, before: seq<Step>, alone: seq<Step>)
    requires AllOwn(Run(NewSource(capacity, window), before), alone)
    ensures var s := Run(NewSource(capacity, window), before);
            var t := Run(s, alone);
            && |alone| <= Work(s)
            && (Settled(t) && Free(t) ==> t.sent == s.accepted)
  {
    RunKeeps(NewSource(capacity, window), before);
    ComesToRest(Run(NewSource(capacity, window), before), alone);
  }

  /** At rest the source is between handlers and no event is due. */
  lemma RestsIff(s: Source)
    ensures Settled(s) <==> s.phase.Between? && !s.post && !s.restart && !s.wakeup && s.committed == 0
  {
    if Settled(s) {
      assert !Enabled(s, Start) && !Enabled(s, Proceed) && !Enabled(s, PostWakeup);
      assert !Enabled(s, DispatchPost) && !Enabled(s, DispatchRestart) && !Enabled(s, DispatchWakeup);
    }
  }

  /** No acknowledgement of the run resumes the source. */
  predicate NoneResumes(steps: seq<Step>) {
    forall k :: 0 <= k < |steps| ==> (steps[k].Ack? ==> steps[k].lastSuspended)
  }

  /** Messages that a suspended source still sends: the one it has already decided to. */
  function Decided(s: Source): nat { if s.phase.PostPop? || s.phase.PostSend? then 1 else 0 }

  lemma ProceedsSilently(s: Source)
    requires s.suspended
    ensures var t := Proceeded(s); t.suspended && |t.sent| + Decided(t) <= |s.sent| + Decided(s)
  {
    match s.phase
    case PostCheck =>
    case PostPop =>
    case PostSend(_) =>
    case UpdateCheck =>
    case FallAsleep =>
    case StopWatches =>
    case RestartWatches =>
    case WakeUp =>
    case Starting =>
    case Between =>
  }

  lemma StepsSilently(s: Source, step: Step)
    requires s.suspended && Enabled(s, step) && (step.Ack? ==> step.lastSuspended)
    ensures var t := Next(s, step); t.suspended && |t.sent| + Decided(t) <= |s.sent| + Decided(s)
  {
    match step
    case PostMessage(_) =>
    case Ack(_, _) =>
    case PostWakeup =>
    case Suspend =>
    case Start =>
    case DispatchPost =>
    case DispatchRestart =>
    case DispatchWakeup =>
    case Proceed => ProceedsSilently(s);
  }

  /** Until an acknowledgement resumes it, a suspended source sends at most the one
      message it had already decided to send. */
  lemma {:induction false} SuspendedIsSilent(s: Source, steps: seq<Step>)
    requires s.suspended && NoneResumes(steps)
    ensures var t := Run(s, steps); t.suspended && |t.sent| + Decided(t) <= |s.sent| + Decided(s)
    decreases |steps|
  {
    if steps == [] {
    } else {
      var t := if Enabled(s, steps[0]) then Next(s, steps[0]) else s;
      if Enabled(s, steps[0]) {
        StepsSilently(s, steps[0]);
      }
      SuspendedIsSilent(t, steps[1..]);
    }
  }

  lemma SuspendSilences(s: Source, steps: seq<Step>)
    requires NoneResumes(steps)
    ensures Enabled(s, Suspend)
    ensures var t := Run(Next(s, Suspend), steps); |t.sent| <= |s.sent| + 1
  {
    SuspendedIsSilent(Next(s, Suspend), steps);
  }
}
