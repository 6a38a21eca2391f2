/**
 The destination queue as an object that is updated in place, with the loops of
 lib/logqueue-fifo.c.  Every method performs one step of the state machine, so
 what holds of all runs holds of this object.
 */
module FifoQueue {
  import opened Wrappers
  import opened FifoSteps
  import opened Ints

  /** One more message from the end of the backlog to the head of the output list. */
  lemma RewindOne(rest: seq<Item>, back: seq<Item>, output: seq<Item>)
    requires rest != []
    ensures var node, fewer := rest[|rest| - 1], rest[..|rest| - 1];
            && rest + back == fewer + ([node] + back) && [node] + (back + output) == [node] + back + output
            && Nfc([node] + back) == One(node) + Nfc(back) && Bytes([node] + back) == node.size + Bytes(back)
  {
    assert ([rest[|rest| - 1]] + back)[1..] == back;
  }

  lemma RewindIs(s: Fifo, n: nat, count: nat, rest: seq<Item>, back: seq<Item>)
    requires s.backlog.len == |s.backlog.items| && rest + back == s.backlog.items && |back| == count == Min(n, s.backlog.len)
    ensures StepRewind(s, n)
         == s.(backlog := Overflow(rest, s.backlog.len - count, s.backlog.nfc - Nfc(back)),
               output := Overflow(back + s.output.items, s.output.len + count, s.output.nfc + Nfc(back)),
               queued := s.queued + count, memory := s.memory + Bytes(back))
  {
    var k := |s.backlog.items| - count;
    assert rest == s.backlog.items[..k] && back == s.backlog.items[k..];
  }

  /** One more message from the head of the backlog to the acknowledged ones. */
  lemma AckOne(done: seq<Item>, rest: seq<Item>, acked: seq<Item>)
    requires rest != []
    ensures done + rest == done + [rest[0]] + rest[1..] && acked + done + [rest[0]] == acked + (done + [rest[0]])
    ensures Nfc(done + [rest[0]]) == Nfc(done) + One(rest[0])
  {
    CountsConcat(done, [rest[0]]);
  }

  /** One turn of the drop loop. */
  lemma DropOne(passed: seq<Item>, rest: seq<Item>, left: nat, out: seq<Item>)
    requires rest != [] && left > 0
    ensures var node := rest[0];
            var now, later := DropOldest(rest, left), DropOldest(rest[1..], left - One(node));
            && (node.flowControl ==> passed + now.kept == passed + [node] + later.kept && now.dropped == later.dropped)
            && (!node.flowControl ==> now.kept == later.kept && out + now.dropped == out + [node] + later.dropped)
  {
    var node := rest[0];
    var later := DropOldest(rest[1..], left - One(node));
    assert passed + ([node] + later.kept) == passed + [node] + later.kept;
    assert out + ([node] + later.dropped) == out + [node] + later.dropped;
  }

  /** The loop of log_queue_fifo_drop_messages_from_input_queue.  The cursor splits the
      list into what it passed and the rest; it never runs off the end. */
  method DropLoop(items: seq<Item>, n: int) returns (kept: seq<Item>, out: seq<Item>)
    requires 0 <= n <= Nfc(items)
    ensures Split(kept, out) == DropOldest(items, n)
  {
    var passed: seq<Item>, rest, count := [], items, 0;
    out := [];
    ghost var all := DropOldest(items, n);
    assert passed + all.kept == all.kept && out + all.dropped == all.dropped;
    while count < n
      invariant 0 <= count <= n && n - count <= Nfc(rest)
      invariant all.kept == passed + DropOldest(rest, n - count).kept
      invariant all.dropped == out + DropOldest(rest, n - count).dropped
      decreases |rest|
    {
      var node := rest[0];
      DropOne(passed, rest, n - count, out);
      rest := rest[1..];
      if node.flowControl {
        passed := passed + [node];
      } else {
        out, count := out + [node], count + 1;
      }
    }
    kept := passed + rest;
    assert out + [] == out;
  }

  class LogQueueFifo {
    const fifoSize: int
    var inputs: seq<Input>
    var wait: Overflow
    var output: Overflow
    var backlog: Overflow
    var queued: int
    var memory: int
    var callback: bool
    ghost var notified: nat
    var paused: seq<Item>
    var pushCount: nat
    ghost var pushed: seq<Item>
    ghost var acked: seq<Item>
    ghost var dropped: seq<Item>

    constructor (threads: nat, fifoSize: int)
      ensures Valid() && State() == NewFifo(threads, fifoSize)
    {
      this.fifoSize := fifoSize;
      inputs := seq(threads, _ => NO_INPUT);
      wait, output, backlog := NO_ITEMS, NO_ITEMS, NO_ITEMS;
      queued, memory, callback, paused, pushCount := 0, 0, false, [], 0;
      pushed, acked, dropped, notified := [], [], [], 0;
    }

    ghost function State(): Fifo
      reads this
    {
      Fifo(inputs, wait, output, backlog, fifoSize, queued, memory, callback, notified, paused, pushed, acked, dropped)
    }

    ghost predicate Valid()
      reads this
    {
      Counted(State()) && pushCount == |pushed|
    }

    // -------------------------------------------------------------------
    // Producers
    // -------------------------------------------------------------------

    /** log_queue_fifo_push_tail.  `seen` is the racy read of the length. */
    method PushTail(producer: nat, flowControl: bool, size: nat, seen: int)
      requires Valid() && (producer < |inputs| ==> !inputs[producer].moving)
      modifies this
      ensures State() == if producer < old(|inputs|) then StepFastPush(old(State()), producer, flowControl, size)
                         else StepSlowPush(old(State()), producer, flowControl, size, seen)
      ensures Valid()
    {
      if producer < |inputs| {
        PushToInput(producer, flowControl, size);
      } else {
        PushToWait(producer, flowControl, size, seen);
      }
    }

    method PushToInput(producer: nat, flowControl: bool, size: nat)
      requires Valid() && producer < |inputs|
      modifies this`inputs, this`pushCount, this`pushed
      ensures State() == StepFastPush(old(State()), producer, flowControl, size)
      ensures Valid()
    {
      FastPushCounts(State(), producer, flowControl, size);
      var item, i := Item(producer, pushCount, flowControl, size), inputs[producer];
      i := Input(i.items + [item], i.len + 1, i.nfc, true, i.moving);
      if !flowControl {
        i := i.(nfc := i.nfc + 1);
      }
      inputs := inputs[producer := i];
      pushCount, pushed := pushCount + 1, pushed + [item];
    }

    method AddToWait(item: Item)
      modifies this`wait
      ensures wait == Overflow(old(wait.items) + [item], old(wait.len) + 1, old(wait.nfc) + One(item))
    {
      wait := Overflow(wait.items + [item], wait.len + 1, wait.nfc);
      if !item.flowControl {
        wait := wait.(nfc := wait.nfc + 1);
      }
    }

    method PushToWait(producer: nat, flowControl: bool, size: nat, seen: int)
      requires Valid()
      modifies this`wait, this`callback, this`notified, this`paused, this`queued, this`memory, this`pushCount, this`pushed, this`dropped
      ensures State() == StepSlowPush(old(State()), producer, flowControl, size, seen)
      ensures Valid()
    {
      SlowPushCounts(State(), producer, flowControl, size, seen);
      var item := Item(producer, pushCount, flowControl, size);
      pushCount, pushed := pushCount + 1, pushed + [item];
      if !flowControl && seen >= fifoSize {
        dropped := dropped + [item];
      } else {
        QueueSlowly(item);
      }
    }

    /** The message goes to the wait list; if a callback is registered the lock is
        released around it, and the rest is EndSlowPush. */
    method QueueSlowly(item: Item)
      modifies this`wait, this`callback, this`notified, this`paused, this`queued, this`memory
      ensures wait == Overflow(old(wait.items) + [item], old(wait.len) + 1, old(wait.nfc) + One(item))
      ensures !callback && notified == old(notified) + if old(callback) then 1 else 0
      ensures if old(callback) then paused == old(paused) + [item] && queued == old(queued) && memory == old(memory)
              else paused == old(paused) && queued == old(queued) + 1 && memory == old(memory) + item.size
    {
      AddToWait(item);
      if callback {
        callback, notified, paused := false, notified + 1, paused + [item];
      } else {
        queued, memory := queued + 1, memory + item.size;
      }
    }

    /** log_queue_fifo_push_tail after the callback has returned. */
    method EndSlowPush(at: nat)
      requires Valid() && at < |paused|
      modifies this`queued, this`memory, this`paused
      ensures State() == StepEndSlowPush(old(State()), at)
      ensures Valid()
    {
      queued, memory := queued + 1, memory + paused[at].size;
      paused := paused[..at] + paused[at + 1..];
    }

    /** log_queue_fifo_drop_messages_from_input_queue */
    method DropMessages(p: nat, n: int)
      requires p < |inputs| && 0 <= n <= Nfc(inputs[p].items)
      modifies this`inputs, this`dropped
      ensures var i, r := old(inputs[p]), DropOldest(old(inputs[p].items), n);
              && inputs == old(inputs)[p := Input(r.kept, i.len - n, i.nfc - n, i.registered, i.moving)]
              && dropped == old(dropped) + r.dropped
    {
      var i := inputs[p];
      var kept, out := DropLoop(i.items, n);
      inputs := inputs[p := Input(kept, i.len - n, i.nfc - n, i.registered, i.moving)];
      dropped := dropped + out;
    }

    /** iv_list_update_msg_size */
    method AddMessageSizes(items: seq<Item>)
      modifies this`memory
      ensures memory == old(memory) + Bytes(items)
    {
      var k := 0;
      while k < |items|
        invariant 0 <= k <= |items| && memory + Bytes(items[k..]) == old(memory) + Bytes(items)
      {
        assert items[k..][1..] == items[k + 1..];
        memory := memory + items[k].size;
        k := k + 1;
      }
    }

    /** The drop decision of log_queue_fifo_move_input_unlocked. */
    method DropOverflow(p: nat, seen: int)
      requires Valid() && p < |inputs|
      modifies this`inputs, this`dropped
      ensures var i := old(inputs[p]);
              var d := NumToDrop(seen, i.nfc, fifoSize);
              && inputs == old(inputs)[p := Input(DropOldest(i.items, d).kept, i.len - d, i.nfc - d, i.registered, i.moving)]
              && dropped == old(dropped) + DropOldest(i.items, d).dropped
    {
      var len16 := inputs[p].nfc % 0x1_0000;
      if seen + len16 > fifoSize {
        DropMessages(p, len16 - Max(0, fifoSize - seen));
      }
    }

    /** The splice of log_queue_fifo_move_input_unlocked. */
    method SpliceInput(p: nat)
      requires p < |inputs|
      modifies this`inputs, this`wait, this`queued, this`memory
      ensures var i := old(inputs[p]);
              && inputs == old(inputs)[p := Input([], 0, 0, i.registered, true)]
              && wait == Overflow(old(wait.items) + i.items, old(wait.len) + i.len, old(wait.nfc) + i.nfc)
              && queued == old(queued) + i.len && memory == old(memory) + Bytes(i.items)
    {
      var i := inputs[p];
      queued := queued + i.len;
      AddMessageSizes(i.items);
      wait := Overflow(wait.items + i.items, wait.len + i.len, wait.nfc + i.nfc);
      inputs := inputs[p := Input([], 0, 0, i.registered, true)];
    }

    /** log_queue_push_notify: the registered callback is called once. */
    method PushNotify()
      modifies this`callback, this`notified
      ensures !callback && notified == old(notified) + if old(callback) then 1 else 0
    {
      if callback {
        callback, notified := false, notified + 1;
      }
    }

    /** log_queue_fifo_move_input, up to the release of the lock. */
    method MoveInput(p: nat, seen: int)
      requires Valid() && Enabled(State(), Move(p, seen))
      modifies this`inputs, this`wait, this`queued, this`memory, this`callback, this`notified, this`dropped
      ensures State() == StepMove(old(State()), p, seen)
      ensures Valid()
    {
      MoveCounts(State(), p, seen);
      MoveUnlocked(p, seen);
      PushNotify();
    }

    /** log_queue_fifo_move_input_unlocked */
    method MoveUnlocked(p: nat, seen: int)
      requires Valid() && p < |inputs|
      modifies this`inputs, this`wait, this`queued, this`memory, this`dropped
      ensures State() == StepMove(old(State()), p, seen).(callback := callback, notified := notified)
    {
      ghost var i := inputs[p];
      DropOverflow(p, seen);
      SpliceInput(p);
      assert inputs == old(inputs)[p := Input([], 0, 0, i.registered, true)];
    }

    method FinishMove(p: nat)
      requires Valid() && p < |inputs| && inputs[p].moving
      modifies this`inputs
      ensures State() == StepFinishMove(old(State()), p)
      ensures Valid()
    {
      inputs := inputs[p := inputs[p].(registered := false, moving := false)];
    }

    // -------------------------------------------------------------------
    // The output thread
    // -------------------------------------------------------------------

    /** _move_items_from_wait_queue_to_output_queue, when the output list is empty. */
    method RefillOutput()
      requires Valid()
      modifies this`wait, this`output
      ensures State() == Refill(old(State())) && Valid()
      ensures output.items == if old(output.items) == [] then old(wait.items) else old(output.items)
    {
      if output.len == 0 {
        output := Overflow(output.items + wait.items, wait.len, wait.nfc);
        wait := NO_ITEMS;
        assert output.items == old(wait.items);
      }
    }

    /** log_queue_fifo_pop_head */
    method PopHead() returns (item: Option<Item>)
      requires Valid()
      modifies this`wait, this`output, this`backlog, this`queued, this`memory
      ensures State() == StepPop(old(State()))
      ensures Valid()
      ensures item.None? <==> old(wait.items) == [] && old(output.items) == []
      ensures item.Some? ==> item.value == if old(output.items) != [] then old(output.items)[0] else old(wait.items)[0]
    {
      PopCounts(State());
      RefillOutput();
      if output.len <= 0 {
        return None;
      }
      var node := MoveToBacklog();
      queued, memory := queued - 1, memory - node.size;
      item := Some(node);
    }

    /** The head of the output list goes to the end of the backlog. */
    method MoveToBacklog() returns (node: Item)
      requires output.items != []
      modifies this`output, this`backlog
      ensures node == old(output.items)[0]
      ensures output == Overflow(old(output.items)[1..], old(output.len) - 1, old(output.nfc) - One(node))
      ensures backlog == Overflow(old(backlog.items) + [node], old(backlog.len) + 1, old(backlog.nfc) + One(node))
    {
      node := output.items[0];
      output := Overflow(output.items[1..], output.len - 1, output.nfc);
      backlog := Overflow(backlog.items + [node], backlog.len + 1, backlog.nfc);
      if !node.flowControl {
        output := output.(nfc := output.nfc - 1);
        backlog := backlog.(nfc := backlog.nfc + 1);
      }
    }

    /** The loop of log_queue_fifo_ack_backlog. */
    method AckSome(n: int) returns (ghost done: seq<Item>)
      requires backlog.len == |backlog.items|
      modifies this`backlog, this`acked
      ensures |done| == Max(0, Min(n, old(backlog.len))) && done + backlog.items == old(backlog.items)
      ensures backlog == Overflow(backlog.items, old(backlog.len) - |done|, old(backlog.nfc) - Nfc(done))
      ensures acked == old(acked) + done
    {
      var pos := 0;
      done := [];
      while pos < n && backlog.len > 0
        invariant 0 <= pos == |done| && (pos <= n || pos == 0) && done + backlog.items == old(backlog.items)
        invariant backlog.len == |backlog.items| && backlog.nfc == old(backlog.nfc) - Nfc(done)
        invariant acked == old(acked) + done
        decreases backlog.len
      {
        var node := backlog.items[0];
        AckOne(done, backlog.items, old(acked));
        backlog := Overflow(backlog.items[1..], backlog.len - 1, backlog.nfc);
        if !node.flowControl {
          backlog := backlog.(nfc := backlog.nfc - 1);
        }
        acked, done := acked + [node], done + [node];
        pos := pos + 1;
      }
    }

    /** log_queue_fifo_ack_backlog */
    method AckBacklog(n: int)
      requires Valid()
      modifies this`backlog, this`acked
      ensures State() == StepAck(old(State()), n)
      ensures Valid()
    {
      ghost var s := State();
      ghost var done := AckSome(n);
      assert done == s.backlog.items[..|done|] && backlog.items == s.backlog.items[|done|..];
      AckCounts(s, n);
    }

    /** The loop of log_queue_fifo_rewind_backlog. */
    method RewindSome(count: nat) returns (ghost rest: seq<Item>, ghost back: seq<Item>)
      requires count <= |backlog.items|
      modifies this`backlog, this`output, this`queued, this`memory
      ensures |back| == count && rest + back == old(backlog.items)
      ensures backlog == Overflow(rest, old(backlog.len) - count, old(backlog.nfc) - Nfc(back))
      ensures output == Overflow(back + old(output.items), old(output.len) + count, old(output.nfc) + Nfc(back))
      ensures queued == old(queued) + count && memory == old(memory) + Bytes(back)
    {
      rest, back := backlog.items, [];
      var pos := 0;
      assert back + output.items == output.items && rest + back == rest;
      while pos < count
        invariant 0 <= pos == |back| <= count && rest + back == old(backlog.items)
        invariant backlog == Overflow(rest, old(backlog.len) - pos, old(backlog.nfc) - Nfc(back))
        invariant output == Overflow(back + old(output.items), old(output.len) + pos, old(output.nfc) + Nfc(back))
        invariant queued == old(queued) + pos && memory == old(memory) + Bytes(back)
      {
        var node := backlog.items[|backlog.items| - 1];
        RewindOne(rest, back, old(output.items));
        backlog := Overflow(backlog.items[..|backlog.items| - 1], backlog.len - 1, backlog.nfc);
        output := Overflow([node] + output.items, output.len + 1, output.nfc);
        if !node.flowControl {
          backlog := backlog.(nfc := backlog.nfc - 1);
          output := output.(nfc := output.nfc + 1);
        }
        queued, memory := queued + 1, memory + node.size;
        rest, back := rest[..|rest| - 1], [node] + back;
        pos := pos + 1;
      }
    }

    /** log_queue_fifo_rewind_backlog */
    method RewindBacklog(n: nat)
      requires Valid()
      modifies this`backlog, this`output, this`queued, this`memory
      ensures State() == StepRewind(old(State()), n)
      ensures Valid()
    {
      ghost var s := State();
      var count := if n > backlog.len then backlog.len else n;
      ghost var rest, back := RewindSome(count);
      RewindIs(s, n, count, rest, back);
      RewindCounts(s, n);
    }

    /** log_queue_fifo_rewind_backlog_all */
    method RewindBacklogAll()
      requires Valid()
      modifies this`backlog, this`output, this`queued, this`memory
      ensures State() == StepRewindAll(old(State()))
      ensures Valid()
    {
      RewindAllCounts(State());
      AddMessageSizes(backlog.items);
      output := Overflow(output.items + backlog.items, output.len + backlog.len, output.nfc + backlog.nfc);
      queued := queued + backlog.len;
      backlog := NO_ITEMS;
    }

    /** log_queue_check_items, up to the part about throttling. */
    method CheckItems() returns (more: bool)
      requires Valid()
      modifies this`callback
      ensures State() == StepCheckItems(old(State()))
      ensures Valid()
      ensures more <==> wait.items + output.items != []
    {
      if wait.len + output.len == 0 {
        callback := true;
        return false;
      }
      callback := false;
      return true;
    }

    /** log_queue_fifo_is_empty_racy */
    method IsEmptyRacy() returns (empty: bool)
      requires Valid()
      ensures empty <==> wait.len + output.len <= 0 && forall p :: 0 <= p < |inputs| ==> !inputs[p].registered
    {
      if wait.len + output.len > 0 {
        return false;
      }
      var found, p := false, 0;
      while p < |inputs| && !found
        invariant 0 <= p <= |inputs| && (found <==> exists q :: 0 <= q < p && inputs[q].registered)
      {
        found := inputs[p].registered;
        p := p + 1;
      }
      return !found;
    }
  }
}
