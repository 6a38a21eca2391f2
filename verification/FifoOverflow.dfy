/**
 Overflow handling of the destination queue: what is dropped when an input list
 does not fit, and how far the queue can grow.
 */
module FifoOverflow {
  import opened FifoSteps
  import opened Ints

  /** The messages of a list that are flow controlled, or those that are not. */
  function Only(items: seq<Item>, flowControl: bool): seq<Item> {
    if items == [] then []
    else if items[0].flowControl == flowControl then [items[0]] + Only(items[1..], flowControl)
    else Only(items[1..], flowControl)
  }

  lemma OnlyCons(x: Item, rest: seq<Item>, flowControl: bool)
    ensures Only([x] + rest, flowControl)
         == if x.flowControl == flowControl then [x] + Only(rest, flowControl) else Only(rest, flowControl)
  {
    assert ([x] + rest)[1..] == rest;
  }

  lemma {:induction false} DroppableLength(items: seq<Item>)
    ensures |Only(items, false)| == Nfc(items)
  {
    if items == [] {
    } else {
      DroppableLength(items[1..]);
    }
  }

  /** No flow controlled message is ever dropped, and the dropped ones are the oldest
      of the others, in order. */
  lemma {:induction false} DropsOldest(items: seq<Item>, n: nat)
    requires n <= |Only(items, false)|
    ensures var r := DropOldest(items, n);
            && Only(r.kept, true) == Only(items, true)
            && r.dropped == Only(items, false)[..n]
            && Only(r.kept, false) == Only(items, false)[n..]
  {
    if n == 0 {
    } else {
      var x, rest := items[0], items[1..];
      if x.flowControl {
        DropsOldest(rest, n);
        OnlyCons(x, DropOldest(rest, n).kept, true);
        OnlyCons(x, DropOldest(rest, n).kept, false);
      } else {
        DropsOldest(rest, n - 1);
        var all := Only(rest, false);
        assert ([x] + all)[..n] == [x] + all[..n - 1] && ([x] + all)[n..] == all[n - 1..];
      }
    }
  }

  function NfcLength(s: Fifo): int { s.wait.nfc + s.output.nfc }

  /** Moving an input list keeps the non flow controlled length within the configured
      size, or within what it was already, exactly when the input list is shorter
      than 2^16 or fits anyway.  (No pop or rewind interferes: the length the producer
      reads is the actual one.) */
  lemma MoveBoundedIff(s: Fifo, p: nat)
    requires Counted(s) && p < |s.inputs|
    ensures var l, q := s.inputs[p].nfc, NfcLength(s);
            NfcLength(StepMove(s, p, q)) <= Max(s.fifoSize, q) <==> l < 0x1_0000 || q + l <= s.fifoSize
  {
    var l, q := s.inputs[p].nfc, NfcLength(s);
    var low := l % 0x1_0000;
    assert l < 0x1_0000 ==> low == l;
    assert low <= l && (l >= 0x1_0000 ==> low < l);
    assert NfcLength(StepMove(s, p, q)) == q + l - NumToDrop(q, l, s.fifoSize);
  }

  /** How much is dropped: what exceeds the room that is left, as long as the length
      fits into 16 bits. */
  lemma DropsExcess(seen: int, inputNfc: nat, fifoSize: int)
    requires inputNfc < 0x1_0000
    ensures NumToDrop(seen, inputNfc, fifoSize) == Min(inputNfc, Max(0, seen + inputNfc - fifoSize))
  {
  }

  /** A slow path push never exceeds the bound. */
  lemma SlowPushBounded(s: Fifo, p: nat, fc: bool, size: nat)
    requires Counted(s)
    ensures NfcLength(StepSlowPush(s, p, fc, size, NfcLength(s))) <= Max(s.fifoSize, NfcLength(s))
  {
  }

  // ---------------------------------------------------------------------
  // Runs
  // ---------------------------------------------------------------------

  /** No producer reads a length below the actual one, as it is when the output thread
      only pops meanwhile; no input list has 2^16 messages; nothing is rewound. */
  predicate OrderlyStep(s: Fifo, step: Step)
    requires Enabled(s, step)
  {
    match step
    case Move(p, seen) => seen >= NfcLength(s) && s.inputs[p].nfc < 0x1_0000
    case SlowPush(_, _, _, seen) => seen >= NfcLength(s)
    case Rewind(_) => false
    case RewindAll => false
    case _ => true
  }

  predicate Orderly(s: Fifo, steps: seq<Step>)
    requires Counted(s)
    decreases |steps|
  {
    steps == []
    || if Enabled(s, steps[0]) then OrderlyStep(s, steps[0]) && Orderly(Next(s, steps[0]), steps[1..])
       else Orderly(s, steps[1..])
  }

  lemma MoveBounded(s: Fifo, p: nat, seen: int)
    requires Counted(s) && p < |s.inputs| && seen >= NfcLength(s) && s.inputs[p].nfc < 0x1_0000
    ensures NfcLength(StepMove(s, p, seen)) <= Max(s.fifoSize, NfcLength(s))
  {
    var l := s.inputs[p].nfc;
    assert l % 0x1_0000 == l;
    assert NfcLength(StepMove(s, p, seen)) == NfcLength(s) + l - NumToDrop(seen, l, s.fifoSize);
  }

  lemma StepBounded(s: Fifo, step: Step)
    requires Counted(s) && Enabled(s, step) && OrderlyStep(s, step)
    ensures NfcLength(Next(s, step)) <= Max(s.fifoSize, NfcLength(s)) && Next(s, step).fifoSize == s.fifoSize
  {
    match step
    case FastPush(_, _, _) =>
    case Move(p, seen) => MoveBounded(s, p, seen);
    case FinishMove(_) =>
    case SlowPush(_, _, _, _) =>
    case EndSlowPush(_) =>
    case Pop =>
    case Ack(_) =>
    case Rewind(_) =>
    case RewindAll =>
    case CheckItems =>
    case ResetCallback =>
  }

  lemma {:induction false} RunBoundedFrom(s: Fifo, steps: seq<Step>)
    requires Counted(s) && Orderly(s, steps)
    ensures NfcLength(Run(s, steps)) <= Max(s.fifoSize, NfcLength(s))
    decreases |steps|
  {
    if steps == [] {
    } else if Enabled(s, steps[0]) {
      StepBounded(s, steps[0]);
      RunBoundedFrom(Next(s, steps[0]), steps[1..]);
    } else {
      RunBoundedFrom(s, steps[1..]);
    }
  }

  /** In every orderly run, any number of producers together never get more messages
      that are not flow controlled into the queue than its configured size. */
  lemma RunBounded(threads: nat, fifoSize: nat, steps: seq<Step>)
    requires Orderly(NewFifo(threads, fifoSize), steps)
    ensures NfcLength(Run(NewFifo(threads, fifoSize), steps)) <= fifoSize
  {
    RunBoundedFrom(NewFifo(threads, fifoSize), steps);
  }

  // ---------------------------------------------------------------------
  // A wide input
  // ---------------------------------------------------------------------

  /** One producer pushes `n` messages that are not flow controlled. */
  function Pushes(n: nat): seq<Step> { if n == 0 then [] else [FastPush(0, false, 0)] + Pushes(n - 1) }

  /** Nothing has left the input list of the only producer. */
  ghost predicate Filled(s: Fifo, fifoSize: int, n: nat) {
    && Counted(s) && |s.inputs| == 1 && s.inputs[0].nfc == n && !s.inputs[0].moving
    && (n > 0 ==> s.inputs[0].registered)
    && NfcLength(s) == 0 && s.fifoSize == fifoSize
  }

  lemma {:induction false} PushesFill(s: Fifo, fifoSize: int, m: nat, n: nat)
    requires Filled(s, fifoSize, m)
    ensures Filled(Run(s, Pushes(n)), fifoSize, m + n)
    decreases n
  {
    if n == 0 {
    } else {
      var t := Next(s, FastPush(0, false, 0));
      assert Filled(t, fifoSize, m + 1);
      PushesFill(t, fifoSize, m + 1, n - 1);
      assert Pushes(n)[1..] == Pushes(n - 1);
    }
  }

  lemma {:induction false} RunThenStep(s: Fifo, steps: seq<Step>, last: Step)
    requires Counted(s)
    ensures var t := Run(s, steps);
            Run(s, steps + [last]) == if Enabled(t, last) then Next(t, last) else t
    decreases |steps|
  {
    if steps == [] {
      assert steps + [last] == [last] && [last][1..] == [];
    } else {
      assert (steps + [last])[1..] == steps[1..] + [last];
      RunThenStep(if Enabled(s, steps[0]) then Next(s, steps[0]) else s, steps[1..], last);
    }
  }

  /** 65536 messages are pushed into an empty queue of a smaller size and moved with the
      right length in view: none of them is dropped. */
  lemma WideInputIsKept(fifoSize: nat)
    requires fifoSize < 0x1_0000
    ensures NfcLength(Run(NewFifo(1, fifoSize), Pushes(0x1_0000) + [Move(0, 0)])) == 0x1_0000 > fifoSize
  {
    var n := 0x1_0000;
    var s := Run(NewFifo(1, fifoSize), Pushes(n));
    PushesFill(NewFifo(1, fifoSize), fifoSize, 0, n);
    RunThenStep(NewFifo(1, fifoSize), Pushes(n), Move(0, 0));
    MoveKeepsAll(s);
  }

  lemma MoveKeepsAll(s: Fifo)
    requires Counted(s) && Enabled(s, Move(0, 0)) && s.inputs[0].nfc == 0x1_0000 && s.fifoSize >= 0
    ensures NfcLength(Next(s, Move(0, 0))) == NfcLength(s) + 0x1_0000
  {
    assert 0x1_0000 % 0x1_0000 == 0;
  }
}
