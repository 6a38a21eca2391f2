/**
 The in-memory destination queue (lib/logqueue-fifo.c, lib/logqueue.c): each
 producer thread has an unlocked input list, a locked wait list collects them,
 the output thread owns the output list and the backlog of messages that were
 sent but not acknowledged.

 The queue is a state machine.  A step is what one thread does between two
 points where another one may interfere: a critical section, or an access to a
 list only that thread touches.  `pushed`, `acked` and `dropped` record what has
 happened so far.
 */
module FifoSteps {
  import opened Ints

  /** `num` is the position of the message among all pushed ones. */
  datatype Item = Item(producer: nat, num: nat, flowControl: bool, size: nat)

  datatype Input = Input(items: seq<Item>, len: int, nfc: int, registered: bool, moving: bool)

  datatype Overflow = Overflow(items: seq<Item>, len: int, nfc: int)

  const NO_INPUT := Input([], 0, 0, false, false)
  const NO_ITEMS := Overflow([], 0, 0)

  /** `paused`: slow path pushes inside the notify callback; their message is in the
      wait list already, their share of the counters is not.  `callback`: a push
      notification is registered; `notified`: how many were called so far. */
  datatype Fifo = Fifo(
    inputs: seq<Input>, wait: Overflow, output: Overflow, backlog: Overflow, fifoSize: int,
    queued: int, memory: int, callback: bool, notified: nat, paused: seq<Item>,
    pushed: seq<Item>, acked: seq<Item>, dropped: seq<Item>)

  function NewFifo(threads: nat, fifoSize: int): Fifo {
    Fifo(seq(threads, _ => NO_INPUT), NO_ITEMS, NO_ITEMS, NO_ITEMS, fifoSize, 0, 0, false, 0, [], [], [], [])
  }

  // ---------------------------------------------------------------------
  // Counting
  // ---------------------------------------------------------------------

  function One(item: Item): nat { if item.flowControl then 0 else 1 }

  /** The number of messages that are not flow controlled. */
  function Nfc(items: seq<Item>): nat {
    if items == [] then 0 else One(items[0]) + Nfc(items[1..])
  }

  function Bytes(items: seq<Item>): nat {
    if items == [] then 0 else items[0].size + Bytes(items[1..])
  }

  lemma {:induction false} CountsConcat(a: seq<Item>, b: seq<Item>)
    ensures Nfc(a + b) == Nfc(a) + Nfc(b) && Bytes(a + b) == Bytes(a) + Bytes(b)
  {
    if a == [] {
      assert a + b == b;
    } else {
      CountsConcat(a[1..], b);
      assert (a + b)[1..] == a[1..] + b;
    }
  }

  predicate Counts(items: seq<Item>, len: int, nfc: int) { len == |items| && nfc == Nfc(items) }

  /** The length fields of every list are right. */
  ghost predicate Counted(s: Fifo) {
    && (forall p :: 0 <= p < |s.inputs| ==> Counts(s.inputs[p].items, s.inputs[p].len, s.inputs[p].nfc))
    && Counts(s.wait.items, s.wait.len, s.wait.nfc)
    && Counts(s.output.items, s.output.len, s.output.nfc)
    && Counts(s.backlog.items, s.backlog.len, s.backlog.nfc)
  }

  // ---------------------------------------------------------------------
  // Dropping
  // ---------------------------------------------------------------------

  datatype Split = Split(kept: seq<Item>, dropped: seq<Item>)

  /** log_queue_fifo_drop_messages_from_input_queue: walks the list from its head and
      drops what is not flow controlled, until `n` messages are dropped. */
  function DropOldest(items: seq<Item>, n: nat): Split {
    if n == 0 || items == [] then Split(items, [])
    else if items[0].flowControl then
      var r := DropOldest(items[1..], n);
      Split([items[0]] + r.kept, r.dropped)
    else
      var r := DropOldest(items[1..], n - 1);
      Split(r.kept, [items[0]] + r.dropped)
  }

  /** log_queue_fifo_calculate_num_of_messages_to_drop.  The input length is narrowed
      to 16 bits; `seen` is the racy read of the non flow controlled length. */
  function NumToDrop(seen: int, inputNfc: int, fifoSize: int): (d: int)
    requires inputNfc >= 0
    ensures 0 <= d <= inputNfc
  {
    var len16 := inputNfc % 0x1_0000;
    if seen + len16 > fifoSize then len16 - Max(0, fifoSize - seen) else 0
  }

  // ---------------------------------------------------------------------
  // Steps
  // ---------------------------------------------------------------------

  /** `seen`: what a producer reads of the length of lists the output thread is
      changing at the same time; it may be any number. */
  datatype Step =
    | FastPush(producer: nat, flowControl: bool, size: nat)
    | Move(producer: nat, seen: int)
    | FinishMove(producer: nat)
    | SlowPush(producer: nat, flowControl: bool, size: nat, seen: int)
    | EndSlowPush(at: nat)
    | Pop
    | Ack(count: int)
    | Rewind(back: nat)
    | RewindAll
    | CheckItems
    | ResetCallback

  /** Threads with a number of their own use the fast path; a thread inside its
      batch callback does not push. */
  predicate Enabled(s: Fifo, step: Step) {
    match step
    case FastPush(p, _, _) => p < |s.inputs| && !s.inputs[p].moving
    case Move(p, _) => p < |s.inputs| && s.inputs[p].registered && !s.inputs[p].moving
    case FinishMove(p) => p < |s.inputs| && s.inputs[p].moving
    case SlowPush(p, _, _, _) => p >= |s.inputs|
    case EndSlowPush(at) => at < |s.paused|
    case _ => true
  }

  /** log_queue_fifo_push_tail with a thread index */
  function StepFastPush(s: Fifo, p: nat, flowControl: bool, size: nat): Fifo
    requires p < |s.inputs|
  {
    var item, i := Item(p, |s.pushed|, flowControl, size), s.inputs[p];
    s.(inputs := s.inputs[p := Input(i.items + [item], i.len + 1, i.nfc + One(item), true, i.moving)],
       pushed := s.pushed + [item])
  }

  /** log_queue_fifo_move_input up to the release of the lock; a registered callback
      is taken and called. */
  function StepMove(s: Fifo, p: nat, seen: int): Fifo
    requires p < |s.inputs| && s.inputs[p].nfc >= 0
  {
    var i := s.inputs[p];
    var d := NumToDrop(seen, i.nfc, s.fifoSize);
    var split := DropOldest(i.items, d);
    s.(inputs := s.inputs[p := Input([], 0, 0, i.registered, true)],
       wait := Overflow(s.wait.items + split.kept, s.wait.len + (i.len - d), s.wait.nfc + (i.nfc - d)),
       queued := s.queued + (i.len - d),
       memory := s.memory + Bytes(split.kept),
       callback := false, notified := s.notified + if s.callback then 1 else 0,
       dropped := s.dropped + split.dropped)
  }

  /** The rest of log_queue_fifo_move_input, outside the lock. */
  function StepFinishMove(s: Fifo, p: nat): Fifo
    requires p < |s.inputs|
  {
    s.(inputs := s.inputs[p := s.inputs[p].(registered := false, moving := false)])
  }

  /** log_queue_fifo_push_tail without a thread index, up to the end or to the call of
      the notify callback. */
  function StepSlowPush(s: Fifo, p: nat, flowControl: bool, size: nat, seen: int): Fifo {
    var item := Item(p, |s.pushed|, flowControl, size);
    var t := s.(pushed := s.pushed + [item]);
    if !flowControl && seen >= s.fifoSize then
      t.(dropped := s.dropped + [item])
    else
      var u := t.(wait := Overflow(s.wait.items + [item], s.wait.len + 1, s.wait.nfc + One(item)));
      if s.callback then u.(callback := false, notified := s.notified + 1, paused := s.paused + [item])
      else u.(queued := s.queued + 1, memory := s.memory + size)
  }

  /** A slow path push back from the callback. */
  function StepEndSlowPush(s: Fifo, at: nat): Fifo
    requires at < |s.paused|
  {
    s.(paused := s.paused[..at] + s.paused[at + 1..], queued := s.queued + 1, memory := s.memory + s.paused[at].size)
  }

  /** _move_items_from_wait_queue_to_output_queue */
  function Refill(s: Fifo): Fifo {
    if s.output.len != 0 then s
    else s.(output := Overflow(s.output.items + s.wait.items, s.wait.len, s.wait.nfc), wait := NO_ITEMS)
  }

  /** log_queue_fifo_pop_head */
  function StepPop(s: Fifo): Fifo {
    var t := Refill(s);
    if t.output.len <= 0 || t.output.items == [] then t
    else
      var item := t.output.items[0];
      t.(output := Overflow(t.output.items[1..], t.output.len - 1, t.output.nfc - One(item)),
         backlog := Overflow(t.backlog.items + [item], t.backlog.len + 1, t.backlog.nfc + One(item)),
         queued := t.queued - 1, memory := t.memory - item.size)
  }

  /** log_queue_fifo_ack_backlog: the oldest `n` messages of the backlog, or all of them. */
  function StepAck(s: Fifo, n: int): Fifo
    requires s.backlog.len == |s.backlog.items|
  {
    var k := Max(0, Min(n, s.backlog.len));
    var now := s.backlog.items[..k];
    s.(backlog := Overflow(s.backlog.items[k..], s.backlog.len - k, s.backlog.nfc - Nfc(now)),
       acked := s.acked + now)
  }

  /** log_queue_fifo_rewind_backlog: the youngest `n` back to the head of the output list. */
  function StepRewind(s: Fifo, n: nat): Fifo
    requires s.backlog.len == |s.backlog.items|
  {
    var k := Min(n, s.backlog.len);
    var rest, back := s.backlog.items[..|s.backlog.items| - k], s.backlog.items[|s.backlog.items| - k..];
    s.(backlog := Overflow(rest, s.backlog.len - k, s.backlog.nfc - Nfc(back)),
       output := Overflow(back + s.output.items, s.output.len + k, s.output.nfc + Nfc(back)),
       queued := s.queued + k, memory := s.memory + Bytes(back))
  }

  /** log_queue_fifo_rewind_backlog_all: the whole backlog, behind the output list. */
  function StepRewindAll(s: Fifo): Fifo {
    s.(output := Overflow(s.output.items + s.backlog.items, s.output.len + s.backlog.len, s.output.nfc + s.backlog.nfc),
       queued := s.queued + s.backlog.len, memory := s.memory + Bytes(s.backlog.items), backlog := NO_ITEMS)
  }

  /** log_queue_check_items, the part about the callback. */
  function StepCheckItems(s: Fifo): Fifo { s.(callback := s.wait.len + s.output.len == 0) }

  function Next(s: Fifo, step: Step): (t: Fifo)
    requires Counted(s) && Enabled(s, step)
    ensures Counted(t)
  {
    match step
    case FastPush(p, fc, size) =>
      FastPushCounts(s, p, fc, size);
      StepFastPush(s, p, fc, size)
    case Move(p, seen) =>
      MoveCounts(s, p, seen);
      StepMove(s, p, seen)
    case FinishMove(p) => StepFinishMove(s, p)
    case SlowPush(p, fc, size, seen) =>
      SlowPushCounts(s, p, fc, size, seen);
      StepSlowPush(s, p, fc, size, seen)
    case EndSlowPush(at) => StepEndSlowPush(s, at)
    case Pop =>
      PopCounts(s);
      StepPop(s)
    case Ack(n) =>
      AckCounts(s, n);
      StepAck(s, n)
    case Rewind(n) =>
      RewindCounts(s, n);
      StepRewind(s, n)
    case RewindAll =>
      RewindAllCounts(s);
      StepRewindAll(s)
    case CheckItems => StepCheckItems(s)
    case ResetCallback => s.(callback := false)
  }

  lemma FastPushCounts(s: Fifo, p: nat, fc: bool, size: nat)
    requires Counted(s) && p < |s.inputs|
    ensures Counted(StepFastPush(s, p, fc, size))
  {
    CountsConcat(s.inputs[p].items, [Item(p, |s.pushed|, fc, size)]);
  }

  lemma SlowPushCounts(s: Fifo, p: nat, fc: bool, size: nat, seen: int)
    requires Counted(s)
    ensures Counted(StepSlowPush(s, p, fc, size, seen))
  {
    CountsConcat(s.wait.items, [Item(p, |s.pushed|, fc, size)]);
  }

  lemma RewindAllCounts(s: Fifo)
    requires Counted(s)
    ensures Counted(StepRewindAll(s))
  {
    CountsConcat(s.output.items, s.backlog.items);
  }

  lemma MoveCounts(s: Fifo, p: nat, seen: int)
    requires Counted(s) && p < |s.inputs|
    ensures Counted(StepMove(s, p, seen))
  {
    var i := s.inputs[p];
    var d := NumToDrop(seen, i.nfc, s.fifoSize);
    DropCounts(i.items, d);
    CountsConcat(s.wait.items, DropOldest(i.items, d).kept);
  }

  lemma PopCounts(s: Fifo)
    requires Counted(s)
    ensures Counted(StepPop(s))
  {
    var t := Refill(s);
    CountsConcat(s.output.items, s.wait.items);
    if t.output.items != [] {
      CountsConcat(t.backlog.items, [t.output.items[0]]);
    }
  }

  lemma AckCounts(s: Fifo, n: int)
    requires Counted(s)
    ensures Counted(StepAck(s, n))
  {
    var k := Max(0, Min(n, s.backlog.len));
    CountsConcat(s.backlog.items[..k], s.backlog.items[k..]);
    assert s.backlog.items == s.backlog.items[..k] + s.backlog.items[k..];
  }

  lemma RewindCounts(s: Fifo, n: nat)
    requires Counted(s)
    ensures Counted(StepRewind(s, n))
  {
    var k := |s.backlog.items| - Min(n, s.backlog.len);
    CountsConcat(s.backlog.items[..k], s.backlog.items[k..]);
    CountsConcat(s.backlog.items[k..], s.output.items);
    assert s.backlog.items == s.backlog.items[..k] + s.backlog.items[k..];
  }

  /** Dropping takes exactly `n` messages when there are that many. */
  lemma {:induction false} DropCounts(items: seq<Item>, n: nat)
    requires n <= Nfc(items)
    ensures var r := DropOldest(items, n);
            && |r.dropped| == n == Nfc(r.dropped)
            && |r.kept| == |items| - n && Nfc(r.kept) == Nfc(items) - n
  {
    if n == 0 {
    } else {
      var rest := DropOldest(items[1..], if items[0].flowControl then n else n - 1);
      DropCounts(items[1..], if items[0].flowControl then n else n - 1);
      CountsConcat([items[0]], rest.kept);
      CountsConcat([items[0]], rest.dropped);
    }
  }

  // ---------------------------------------------------------------------
  // Runs
  // ---------------------------------------------------------------------

  /** The state after a run that starts in `s`; steps that are not enabled do not happen. */
  function Run(s: Fifo, steps: seq<Step>): (t: Fifo)
    requires Counted(s)
    ensures Counted(t)
    decreases |steps|
  {
    if steps == [] then s
    else Run(if Enabled(s, steps[0]) then Next(s, steps[0]) else s, steps[1..])
  }
}
