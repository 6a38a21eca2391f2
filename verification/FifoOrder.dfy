/**
 Order: every producer's messages leave the queue in the order they were
 pushed.  Popping, acknowledging and rewinding do not change the line of
 messages at all, except for log_queue_fifo_rewind_backlog_all.
 */
module FifoOrder {
  import opened FifoSteps
  import opened Ints
  import opened FifoConservation

  /** All messages past the input lists, oldest first. */
  function Line(s: Fifo): seq<Item> { s.acked + s.backlog.items + s.output.items + s.wait.items }

  predicate Ordered(line: seq<Item>) {
    forall i, j :: 0 <= i < j < |line| && line[i].producer == line[j].producer ==> line[i].num < line[j].num
  }

  predicate OwnInputs(s: Fifo) {
    forall p, k :: 0 <= p < |s.inputs| && 0 <= k < |s.inputs[p].items| ==> s.inputs[p].items[k].producer == p
  }

  /** For every producer: what has left, what is inside, and what still waits in the
      input list of the producer, is in push order. */
  ghost predicate InOrder(s: Fifo) {
    && OwnInputs(s)
    && Ordered(Line(s))
    && forall p :: 0 <= p < |s.inputs| ==> Ordered(Line(s) + s.inputs[p].items)
  }

  // ---------------------------------------------------------------------
  // The output thread does not change the line
  // ---------------------------------------------------------------------

  lemma Regroup(a: seq<Item>, b: seq<Item>, c: seq<Item>, d: seq<Item>, e: seq<Item>)
    ensures a + (b + c) + d + e == a + b + c + d + e == a + b + (c + d) + e
  {
  }

  lemma PopKeepsLine(s: Fifo)
    requires Counted(s)
    ensures Line(StepPop(s)) == Line(s)
  {
    var t := Refill(s);
    assert Line(t) == Line(s);
    if t.output.items != [] {
      var x, rest := t.output.items[0], t.output.items[1..];
      assert t.output.items == [x] + rest;
      Regroup(t.acked, t.backlog.items, [x], rest, t.wait.items);
    }
  }

  lemma AckKeepsLine(s: Fifo, n: int)
    requires Counted(s)
    ensures Line(StepAck(s, n)) == Line(s)
  {
    var k := Max(0, Min(n, s.backlog.len));
    var now, rest := s.backlog.items[..k], s.backlog.items[k..];
    assert s.backlog.items == now + rest;
    Regroup(s.acked, now, rest, s.output.items, s.wait.items);
  }

  lemma RewindKeepsLine(s: Fifo, n: nat)
    requires Counted(s)
    ensures Line(StepRewind(s, n)) == Line(s)
  {
    var k := |s.backlog.items| - Min(n, s.backlog.len);
    var rest, back := s.backlog.items[..k], s.backlog.items[k..];
    assert s.backlog.items == rest + back;
    Regroup(s.acked, rest, back, s.output.items, s.wait.items);
  }

  lemma SwapShows(a: seq<Item>, b: seq<Item>, o: seq<Item>, c: seq<Item>)
    requires b != [] && o != [] && b[0] != o[0]
    ensures a + b + o + c != a + o + b + c
  {
    assert (a + b + o + c)[|a|] == b[0] && (a + o + b + c)[|a|] == o[0];
  }

  /** Rewinding the whole backlog keeps the line exactly when the output list or the
      backlog is empty. */
  lemma RewindAllKeepsLineIff(s: Fifo)
    requires Counted(s) && Conserved(s)
    ensures Line(StepRewindAll(s)) == Line(s) <==> (s.output.items == [] || s.backlog.items == [])
  {
    var a, b, o, c := s.acked, s.backlog.items, s.output.items, s.wait.items;
    assert Line(StepRewindAll(s)) == a + o + b + c;
    if b != [] && o != [] {
      HeldOnce(s, b[0]);
      MemberCopies(b, 0);
      MemberCopies(o, 0);
      SwapShows(a, b, o, c);
    }
  }

  // ---------------------------------------------------------------------
  // Nothing is in two places
  // ---------------------------------------------------------------------

  lemma {:induction false} MemberCopies(items: seq<Item>, k: nat)
    requires k < |items|
    ensures Copies(items, items[k]) >= 1
  {
    if k == 0 {
    } else {
      MemberCopies(items[1..], k - 1);
    }
  }

  lemma {:induction false} CopiesMember(items: seq<Item>, x: Item)
    requires Copies(items, x) > 0
    ensures x in items
  {
    if items[0] != x {
      CopiesMember(items[1..], x);
    }
  }

  lemma {:induction false} NumberedOnce(pushed: seq<Item>, n: nat, x: Item)
    requires n <= |pushed| && Numbered(pushed)
    ensures Copies(pushed[n..], x) <= 1 && (x.num < n ==> Copies(pushed[n..], x) == 0)
    decreases |pushed| - n
  {
    if n < |pushed| {
      NumberedOnce(pushed, n + 1, x);
      assert pushed[n..][1..] == pushed[n + 1..];
    }
  }

  lemma HeldOnce(s: Fifo, x: Item)
    requires Conserved(s)
    ensures Held(s, x) <= 1
  {
    NumberedOnce(s.pushed, 0, x);
    assert s.pushed[0..] == s.pushed;
  }

  /** Whatever is held was pushed, so its number is below the next one. */
  lemma HeldIsOld(s: Fifo, x: Item)
    requires Conserved(s) && Held(s, x) > 0
    ensures x in s.pushed && x.num < |s.pushed|
  {
    assert Held(s, x) == Copies(s.pushed, x);
    CopiesMember(s.pushed, x);
  }

  lemma LineIsHeld(s: Fifo, k: nat)
    requires k < |Line(s)|
    ensures Held(s, Line(s)[k]) > 0
  {
    var x := Line(s)[k];
    MemberCopies(Line(s), k);
    CopiesConcat(s.acked + s.backlog.items + s.output.items, s.wait.items, x);
    CopiesConcat(s.acked + s.backlog.items, s.output.items, x);
    CopiesConcat(s.acked, s.backlog.items, x);
  }

  lemma InputIsHeld(s: Fifo, p: nat, k: nat)
    requires p < |s.inputs| && k < |s.inputs[p].items|
    ensures Held(s, s.inputs[p].items[k]) > 0
  {
    var x := s.inputs[p].items[k];
    MemberCopies(s.inputs[p].items, k);
    PendingUpdate(s.inputs, p, s.inputs[p], x);
  }

  /** A new message is younger than everything in the queue. */
  lemma NewIsYoungest(s: Fifo)
    requires Conserved(s)
    ensures forall k :: 0 <= k < |Line(s)| ==> Line(s)[k].num < |s.pushed|
    ensures forall p, k :: 0 <= p < |s.inputs| && 0 <= k < |s.inputs[p].items| ==> s.inputs[p].items[k].num < |s.pushed|
  {
    forall k | 0 <= k < |Line(s)| ensures Line(s)[k].num < |s.pushed| {
      LineIsHeld(s, k);
      HeldIsOld(s, Line(s)[k]);
    }
    forall p, k | 0 <= p < |s.inputs| && 0 <= k < |s.inputs[p].items| ensures s.inputs[p].items[k].num < |s.pushed| {
      InputIsHeld(s, p, k);
      HeldIsOld(s, s.inputs[p].items[k]);
    }
  }

  // ---------------------------------------------------------------------
  // Pushing
  // ---------------------------------------------------------------------

  lemma AppendYoungest(line: seq<Item>, x: Item)
    requires Ordered(line) && forall k :: 0 <= k < |line| ==> line[k].num < x.num
    ensures Ordered(line + [x])
  {
  }

  lemma AppendOther(line: seq<Item>, more: seq<Item>, input: seq<Item>)
    requires Ordered(line + more) && Ordered(line + input)
    requires forall i, j :: 0 <= i < |more| && 0 <= j < |input| ==> more[i].producer != input[j].producer
    ensures Ordered(line + more + input)
  {
    var all := line + more + input;
    forall i, j | 0 <= i < j < |all| && all[i].producer == all[j].producer ensures all[i].num < all[j].num {
      if j < |line| + |more| {
        assert all[i] == (line + more)[i] && all[j] == (line + more)[j];
      } else if i < |line| {
        var j' := j - |more|;
        assert all[i] == (line + input)[i] && all[j] == (line + input)[j'];
      } else if i >= |line| + |more| {
        assert all[i] == (line + input)[i - |more|] && all[j] == (line + input)[j - |more|];
      }
    }
  }

  lemma FastPushInOrder(s: Fifo, p: nat, fc: bool, size: nat)
    requires Counted(s) && Conserved(s) && InOrder(s) && p < |s.inputs|
    ensures InOrder(StepFastPush(s, p, fc, size))
  {
    var x, t := Item(p, |s.pushed|, fc, size), StepFastPush(s, p, fc, size);
    NewIsYoungest(s);
    var line := Line(s) + s.inputs[p].items;
    AppendYoungest(line, x);
    assert Line(t) + t.inputs[p].items == line + [x];
  }

  /** Dropping leaves a line in order. */
  lemma {:induction false} DropKeepsOrder(line: seq<Item>, items: seq<Item>, n: nat)
    requires Ordered(line + items)
    ensures Ordered(line + DropOldest(items, n).kept)
    ensures forall x :: x in DropOldest(items, n).kept ==> x in items
    decreases |items|
  {
    if n > 0 && items != [] {
      var x, rest := items[0], items[1..];
      assert line + items == line + [x] + rest;
      if x.flowControl {
        DropKeepsOrder(line + [x], rest, n);
        var kept := DropOldest(rest, n).kept;
        assert line + ([x] + kept) == line + [x] + kept;
      } else {
        Without(line, x, rest);
        DropKeepsOrder(line, rest, n - 1);
      }
    }
  }

  lemma Without(line: seq<Item>, x: Item, rest: seq<Item>)
    requires Ordered(line + [x] + rest)
    ensures Ordered(line + rest)
  {
    var all, less := line + [x] + rest, line + rest;
    forall i, j | 0 <= i < j < |less| && less[i].producer == less[j].producer ensures less[i].num < less[j].num {
      var i', j' := if i < |line| then i else i + 1, if j < |line| then j else j + 1;
      assert less[i] == all[i'] && less[j] == all[j'];
    }
  }

  lemma MoveInOrder(s: Fifo, p: nat, seen: int)
    requires Counted(s) && InOrder(s) && p < |s.inputs|
    ensures InOrder(StepMove(s, p, seen))
  {
    var t, items := StepMove(s, p, seen), s.inputs[p].items;
    var kept := DropOldest(items, NumToDrop(seen, s.inputs[p].nfc, s.fifoSize)).kept;
    DropKeepsOrder(Line(s), items, NumToDrop(seen, s.inputs[p].nfc, s.fifoSize));
    assert Line(t) == Line(s) + kept;
    assert forall i :: 0 <= i < |kept| ==> kept[i] in items;
    forall q | 0 <= q < |t.inputs| ensures Ordered(Line(t) + t.inputs[q].items) {
      if q == p {
        assert Line(t) + [] == Line(t);
      } else {
        AppendOther(Line(s), kept, s.inputs[q].items);
      }
    }
  }

  lemma SlowPushInOrder(s: Fifo, p: nat, fc: bool, size: nat, seen: int)
    requires Counted(s) && Conserved(s) && InOrder(s) && p >= |s.inputs|
    ensures InOrder(StepSlowPush(s, p, fc, size, seen))
  {
    var x, t := Item(p, |s.pushed|, fc, size), StepSlowPush(s, p, fc, size, seen);
    NewIsYoungest(s);
    AppendYoungest(Line(s), x);
    if Line(t) != Line(s) {
      assert Line(t) == Line(s) + [x];
      forall q | 0 <= q < |t.inputs| ensures Ordered(Line(t) + t.inputs[q].items) {
        AppendOther(Line(s), [x], s.inputs[q].items);
      }
    }
  }

  // ---------------------------------------------------------------------
  // Rewinding everything
  // ---------------------------------------------------------------------

  /** No producer has messages both in the backlog and in the output list. */
  predicate Apart(s: Fifo) {
    forall i, j :: 0 <= i < |s.backlog.items| && 0 <= j < |s.output.items| ==>
      s.backlog.items[i].producer != s.output.items[j].producer
  }

  lemma SwapOrdered(a: seq<Item>, b: seq<Item>, o: seq<Item>, c: seq<Item>)
    requires Ordered(a + b + o + c)
    requires forall i, j :: 0 <= i < |b| && 0 <= j < |o| ==> b[i].producer != o[j].producer
    ensures Ordered(a + o + b + c)
  {
    var was, now := a + b + o + c, a + o + b + c;
    forall i, j | 0 <= i < j < |now| && now[i].producer == now[j].producer ensures now[i].num < now[j].num {
      var i', j' := Before(|a|, |b|, |o|, i), Before(|a|, |b|, |o|, j);
      assert now[i] == was[i'] && now[j] == was[j'];
    }
  }

  /** Where the element at `k` was before the middle parts changed places. */
  function Before(a: nat, b: nat, o: nat, k: nat): nat {
    if a <= k < a + o then k + b else if a + o <= k < a + o + b then k - o else k
  }

  /** After rewinding the whole backlog the queue is still in order exactly when no
      producer had messages both in the backlog and in the output list. */
  lemma RewindAllInOrderIff(s: Fifo)
    requires Counted(s) && InOrder(s)
    ensures InOrder(StepRewindAll(s)) <==> Apart(s)
  {
    var t := StepRewindAll(s);
    var a, b, o, c := s.acked, s.backlog.items, s.output.items, s.wait.items;
    assert Line(s) == a + b + o + c;
    assert Line(t) == a + o + b + c;
    if Apart(s) {
      SwapOrdered(a, b, o, c);
      forall q | 0 <= q < |s.inputs| ensures Ordered(Line(t) + s.inputs[q].items) {
        assert Line(s) + s.inputs[q].items == a + b + o + (c + s.inputs[q].items);
        assert Line(t) + s.inputs[q].items == a + o + b + (c + s.inputs[q].items);
        SwapOrdered(a, b, o, c + s.inputs[q].items);
      }
    } else {
      var i, j :| 0 <= i < |b| && 0 <= j < |o| && b[i].producer == o[j].producer;
      assert Line(s)[|a| + i] == b[i] && Line(s)[|a| + |b| + j] == o[j];
      assert Line(t)[|a| + |o| + i] == b[i] && Line(t)[|a| + j] == o[j];
    }
  }

  // ---------------------------------------------------------------------
  // Runs
  // ---------------------------------------------------------------------

  lemma StepInOrder(s: Fifo, step: Step)
    requires Counted(s) && Enabled(s, step) && Conserved(s) && InOrder(s)
    requires step.RewindAll? ==> Apart(s)
    ensures InOrder(Next(s, step))
  {
    match step
    case FastPush(p, fc, size) => FastPushInOrder(s, p, fc, size);
    case Move(p, seen) => MoveInOrder(s, p, seen);
    case FinishMove(p) => assert Line(Next(s, step)) == Line(s);
    case SlowPush(p, fc, size, seen) => SlowPushInOrder(s, p, fc, size, seen);
    case EndSlowPush(at) =>
    case Pop => PopKeepsLine(s);
    case Ack(n) => AckKeepsLine(s, n);
    case Rewind(n) => RewindKeepsLine(s, n);
    case RewindAll => RewindAllInOrderIff(s);
    case CheckItems =>
    case ResetCallback =>
  }

  /** Whenever the run rewinds everything, no producer has messages in both lists;
      in particular, whenever it does so with an empty output list. */
  ghost predicate Careful(s: Fifo, steps: seq<Step>)
    requires Counted(s)
    decreases |steps|
  {
    steps == [] || if Enabled(s, steps[0])
                   then (steps[0].RewindAll? ==> Apart(s)) && Careful(Next(s, steps[0]), steps[1..])
                   else Careful(s, steps[1..])
  }

  lemma {:induction false} CarefulRunFrom(s: Fifo, steps: seq<Step>)
    requires Counted(s) && Conserved(s) && Booked(s) && InOrder(s) && Careful(s, steps)
    ensures InOrder(Run(s, steps))
    decreases |steps|
  {
    if steps == [] {
    } else {
      if Enabled(s, steps[0]) {
        StepConserves(s, steps[0]);
        StepBooks(s, steps[0]);
        StepInOrder(s, steps[0]);
        CarefulRunFrom(Next(s, steps[0]), steps[1..]);
      } else {
        CarefulRunFrom(s, steps[1..]);
      }
    }
  }

  lemma RunInOrder(threads: nat, fifoSize: int, steps: seq<Step>)
    requires Careful(NewFifo(threads, fifoSize), steps)
    ensures InOrder(Run(NewFifo(threads, fifoSize), steps))
  {
    RunConserves(threads, fifoSize, []);
    CarefulRunFrom(NewFifo(threads, fifoSize), steps);
  }

  /** The messages of producer `p` that are not among `without`. */
  function Of(items: seq<Item>, p: nat, without: seq<Item>): seq<Item> {
    if items == [] then []
    else (if items[0].producer == p && items[0] !in without then [items[0]] else []) + Of(items[1..], p, without)
  }

  predicate Rising(items: seq<Item>) {
    forall i, j :: 0 <= i < j < |items| ==> items[i].num < items[j].num
  }

  lemma {:induction false} OfMembers(items: seq<Item>, p: nat, without: seq<Item>)
    ensures forall x :: x in Of(items, p, without) <==> x in items && x.producer == p && x !in without
  {
    if items == [] {
    } else {
      OfMembers(items[1..], p, without);
      assert items == [items[0]] + items[1..];
    }
  }

  lemma {:induction false} OfRises(items: seq<Item>, p: nat, without: seq<Item>)
    requires Ordered(items)
    ensures Rising(Of(items, p, without))
  {
    if items == [] {
    } else {
      assert Ordered(items[1..]) by {
        assert forall i :: 0 <= i < |items| - 1 ==> items[1..][i] == items[i + 1];
      }
      OfRises(items[1..], p, without);
      OfMembers(items[1..], p, without);
      var rest := Of(items[1..], p, without);
      forall k | items[0].producer == p && 0 <= k < |rest| ensures items[0].num < rest[k].num {
        assert rest[k] in items[1..];
      }
    }
  }

  /** Rising lists with the same members are the same. */
  lemma {:induction false} SameRising(a: seq<Item>, b: seq<Item>)
    requires Rising(a) && Rising(b) && forall x :: x in a <==> x in b
    ensures a == b
    decreases |a|
  {
    assert b == [] || b[0] in b;
    if a == [] {
    } else {
      assert a[0] in a && b[0] in a;
      assert a[0] == b[0];
      forall x ensures x in a[1..] <==> x in b[1..] {
        RestOf(a, x);
        RestOf(b, x);
      }
      SameRising(a[1..], b[1..]);
      assert a == [a[0]] + a[1..] && b == [b[0]] + b[1..];
    }
  }

  lemma RestOf(a: seq<Item>, x: Item)
    requires a != [] && Rising(a)
    ensures x in a[1..] <==> x in a && x != a[0]
  {
    assert a == [a[0]] + a[1..];
    if x in a[1..] {
      var k :| 0 <= k < |a[1..]| && a[1..][k] == x;
      assert a[k + 1] == x;
    }
  }

  function InputOf(s: Fifo, p: nat): seq<Item> { if p < |s.inputs| then s.inputs[p].items else [] }

  lemma LineMembers(s: Fifo, p: nat, x: Item)
    requires Conserved(s) && OwnInputs(s) && x.producer == p
    ensures x in Line(s) + InputOf(s, p) <==> x in s.pushed && x !in s.dropped
  {
    HeldOnce(s, x);
    assert Held(s, x) == Copies(s.pushed, x);
    CopiesAreMembers(s.pushed, x);
    CopiesAreMembers(s.dropped, x);
    CopiesAreMembers(s.acked, x);
    CopiesAreMembers(s.backlog.items, x);
    CopiesAreMembers(s.output.items, x);
    CopiesAreMembers(s.wait.items, x);
    OnlyInOwnInput(s.inputs, 0, p, x);
    CopiesAreMembers(InputOf(s, p), x);
    assert s.inputs[0..] == s.inputs;
  }

  lemma {:induction false} OnlyInOwnInput(inputs: seq<Input>, n: nat, p: nat, x: Item)
    requires n <= |inputs| && x.producer == p
    requires forall q, k :: 0 <= q < |inputs| && 0 <= k < |inputs[q].items| ==> inputs[q].items[k].producer == q
    ensures Pending(inputs[n..], x) == if n <= p < |inputs| then Copies(inputs[p].items, x) else 0
    decreases |inputs| - n
  {
    if n < |inputs| {
      OnlyInOwnInput(inputs, n + 1, p, x);
      assert inputs[n..][1..] == inputs[n + 1..];
      if n != p && Copies(inputs[n].items, x) > 0 {
        CopiesMember(inputs[n].items, x);
      }
    }
  }

  /** For every producer, what was acknowledged, followed by what is still in the
      queue, is exactly what the producer pushed and the queue did not drop, in the
      order of pushing. */
  lemma SurvivorsInPushOrder(s: Fifo, p: nat)
    requires Counted(s) && Conserved(s) && InOrder(s)
    ensures Of(Line(s) + InputOf(s, p), p, []) == Of(s.pushed, p, s.dropped)
  {
    var line := Line(s) + InputOf(s, p);
    assert Ordered(line) by {
      assert p >= |s.inputs| ==> line == Line(s);
    }
    OfRises(line, p, []);
    OfRises(s.pushed, p, s.dropped);
    OfMembers(line, p, []);
    OfMembers(s.pushed, p, s.dropped);
    forall x ensures x in Of(line, p, []) <==> x in Of(s.pushed, p, s.dropped) {
      if x.producer == p {
        LineMembers(s, p, x);
      }
    }
    SameRising(Of(line, p, []), Of(s.pushed, p, s.dropped));
  }

  /** The order theorem: whatever the interleaving, if no rewind of the whole backlog
      happens while a producer has messages both in the backlog and in the output
      list, every producer's surviving messages leave in push order. */
  lemma DeliveredInPushOrder(threads: nat, fifoSize: int, steps: seq<Step>, p: nat)
    requires Careful(NewFifo(threads, fifoSize), steps)
    ensures var s := Run(NewFifo(threads, fifoSize), steps);
            Of(Line(s) + InputOf(s, p), p, []) == Of(s.pushed, p, s.dropped)
  {
    RunConserves(threads, fifoSize, steps);
    RunInOrder(threads, fifoSize, steps);
    SurvivorsInPushOrder(Run(NewFifo(threads, fifoSize), steps), p);
  }

  /** A run of one thread that is not careful: two messages, the first one sent, and
      everything rewound.  The second message is now in front. */
  lemma RewindAllSwaps()
    ensures var steps := [FastPush(0, true, 1), FastPush(0, true, 1), Move(0, 0), Pop, RewindAll];
            var s := NewFifo(1, 10);
            Counted(s) && var t := Run(s, steps);
            && t.output.items == [Item(0, 1, true, 1), Item(0, 0, true, 1)]
            && !InOrder(t)
  {
    var s := NewFifo(1, 10);
    var s1 := Next(s, FastPush(0, true, 1));
    var s2 := Next(s1, FastPush(0, true, 1));
    var a, b := Item(0, 0, true, 1), Item(0, 1, true, 1);
    assert s2.inputs[0].items == [a, b];
    assert NumToDrop(0, 0, 10) == 0;
    var s3 := Next(s2, Move(0, 0));
    assert s3.wait.items == [a, b];
    var s4 := Next(s3, Pop);
    assert s4.output.items == [b] && s4.backlog.items == [a];
    var t := Next(s4, RewindAll);
    assert t.output.items == [b, a];
    assert Line(t)[0] == b && Line(t)[1] == a;
    RunUnfolds(s4, [RewindAll]);
    RunUnfolds(s3, [Pop, RewindAll]);
    RunUnfolds(s2, [Move(0, 0), Pop, RewindAll]);
    RunUnfolds(s1, [FastPush(0, true, 1), Move(0, 0), Pop, RewindAll]);
    RunUnfolds(s, [FastPush(0, true, 1), FastPush(0, true, 1), Move(0, 0), Pop, RewindAll]);
  }

  lemma RunUnfolds(s: Fifo, steps: seq<Step>)
    requires Counted(s) && steps != [] && Enabled(s, steps[0])
    ensures Run(s, steps) == Run(Next(s, steps[0]), steps[1..])
  {
  }
}
