/**
 The parallel scheduler: worker threads assign messages to partitions, collect
 them per partition, and hand them over when their batch callback runs, while
 the partitions flush concurrently.
 */
module Scheduler {
  import opened Wrappers
  import opened SchedulerPartition

  /** `keyed`: a partition key is configured, so its hash decides. */
  datatype Options = Options(numPartitions: nat, batchSize: int, keyed: bool)

  /** A message, the hash of its key, and the partition it was assigned to. */
  datatype Sent = Sent(msg: Msg, hash: nat, partition: nat)

  /** `flushing`: the partition the batch callback of the thread looks at next.
      `sent` records all messages of the thread. */
  datatype Thread = Thread(
    start: nat, lastPartition: nat, countdown: int, pending: seq<seq<Msg>>, numMessages: nat,
    flushing: Option<nat>, sent: seq<Sent>)

  datatype Sched = Sched(options: Options, threads: seq<Thread>, parts: seq<Partition>)

  /** _thread_state_init */
  function NewThread(o: Options, index: nat): Thread
    requires o.numPartitions > 0
  {
    var start := index % o.numPartitions;
    Thread(start, start, o.batchSize, seq(o.numPartitions, _ => []), 0, None, [])
  }

  function NewSched(o: Options, threads: nat): Sched
    requires o.numPartitions > 0
  {
    Sched(o, seq(threads, i requires 0 <= i => NewThread(o, i)), seq(o.numPartitions, _ => NEW_PARTITION))
  }

  // ---------------------------------------------------------------------
  // Assigning partitions
  // ---------------------------------------------------------------------

  function Advance(partition: nat, numPartitions: nat): nat {
    if partition + 1 >= numPartitions then 0 else partition + 1
  }

  /** _get_partition_index: the chosen partition and the thread after the choice. */
  function ChoosePartition(o: Options, t: Thread, hash: nat): (nat, Thread)
    requires o.numPartitions > 0
  {
    if o.keyed then (hash % o.numPartitions, t)
    else if o.batchSize > 0 && t.countdown - 1 > 0 then (t.lastPartition, t.(countdown := t.countdown - 1))
    else
      (t.lastPartition,
       t.(countdown := if o.batchSize > 0 then o.batchSize else t.countdown,
          lastPartition := Advance(t.lastPartition, o.numPartitions)))
  }

  /** The number of consecutive messages that go to one partition. */
  function Stride(o: Options): nat { if o.batchSize > 0 then o.batchSize else 1 }

  /** Where the k-th message of a thread belongs without a partition key. */
  function Target(o: Options, start: nat, k: nat): nat
    requires o.numPartitions > 0
  {
    (start + k / Stride(o)) % o.numPartitions
  }

  /** The cursor of a thread that has sent `k` messages. */
  predicate CursorAt(o: Options, t: Thread, k: nat)
    requires o.numPartitions > 0
  {
    && t.lastPartition == Target(o, t.start, k)
    && (o.batchSize > 0 ==> t.countdown == o.batchSize - k % o.batchSize)
  }

  lemma DivStep(k: nat, b: nat)
    requires b > 0
    ensures if k % b + 1 < b then (k + 1) / b == k / b && (k + 1) % b == k % b + 1
            else (k + 1) / b == k / b + 1 && (k + 1) % b == 0
  {
    var q, r := k / b, k % b;
    assert k == b * q + r;
    if r + 1 < b {
      DivUnique(k + 1, b, q, r + 1);
    } else {
      assert k + 1 == b * (q + 1);
      DivUnique(k + 1, b, q + 1, 0);
    }
  }

  lemma DivUnique(k: nat, b: nat, q: nat, r: nat)
    requires b > 0 && k == b * q + r && r < b
    ensures k / b == q && k % b == r
  {
    var d := k / b - q;
    assert b * d == b * (k / b) - b * q == r - k % b;
    assert d >= 1 ==> b * d >= b;
    assert d <= -1 ==> b * (d + 1) <= 0;
  }

  lemma ModStep(x: nat, n: nat)
    requires n > 0
    ensures (x + 1) % n == Advance(x % n, n)
  {
    DivStep(x, n);
  }

  /** The choice follows the cursor, and moves it on. */
  lemma ChoiceFollowsCursor(o: Options, t: Thread, hash: nat, k: nat)
    requires o.numPartitions > 0 && !o.keyed && CursorAt(o, t, k)
    ensures var (p, u) := ChoosePartition(o, t, hash);
            p == Target(o, t.start, k) && CursorAt(o, u, k + 1)
  {
    DivStep(k, Stride(o));
    ModStep(t.start + k / Stride(o), o.numPartitions);
  }

  // ---------------------------------------------------------------------
  // Steps
  // ---------------------------------------------------------------------

  datatype Move =
    | Push(thread: nat, data: nat, hash: nat)
    | BeginFlush(thread: nat)
    | FlushNext(thread: nat)
    | PartitionStep(partition: nat, step: Step)

  ghost predicate Shaped(s: Sched) {
    && s.options.numPartitions > 0
    && |s.parts| == s.options.numPartitions
    && forall t :: 0 <= t < |s.threads| ==>
         |s.threads[t].pending| == s.options.numPartitions && s.threads[t].lastPartition < s.options.numPartitions
  }

  /** The batch callback runs when the thread has messages; while it runs, the thread
      does not push.  Batches only arrive by flushes. */
  predicate CanMove(s: Sched, m: Move) {
    match m
    case Push(t, _, _) => t < |s.threads| && s.threads[t].flushing.None?
    case BeginFlush(t) => t < |s.threads| && s.threads[t].flushing.None? && s.threads[t].numMessages > 0
    case FlushNext(t) => t < |s.threads| && s.threads[t].flushing.Some?
    case PartitionStep(p, step) => p < |s.parts| && !step.AddBatch? && Enabled(s.parts[p], step)
  }

  /** _queue_thread */
  function PushTo(o: Options, index: nat, t: Thread, data: nat, hash: nat): Thread
    requires o.numPartitions > 0 && |t.pending| == o.numPartitions && t.lastPartition < o.numPartitions
  {
    var (p, u) := ChoosePartition(o, t, hash);
    var msg := Msg(index, |t.sent|, data);
    u.(pending := t.pending[p := t.pending[p] + [msg]],
       numMessages := t.numMessages + 1,
       sent := t.sent + [Sent(msg, hash, p)])
  }

  /** One turn of the loop in _flush_batch, or its end. */
  function FlushPartition(s: Sched, t: nat): Sched
    requires t < |s.threads| && s.threads[t].flushing.Some? && |s.threads[t].pending| == |s.parts|
  {
    var th := s.threads[t];
    var p := th.flushing.value;
    if p >= |s.parts| then
      s.(threads := s.threads[t := th.(numMessages := 0, flushing := None)])
    else if th.pending[p] == [] then
      s.(threads := s.threads[t := th.(flushing := Some(p + 1))])
    else
      s.(threads := s.threads[t := th.(flushing := Some(p + 1), pending := th.pending[p := []])],
         parts := s.parts[p := StepAddBatch(s.parts[p], th.pending[p])])
  }

  function After(s: Sched, m: Move): (r: Sched)
    requires Shaped(s) && CanMove(s, m)
    ensures Shaped(r)
  {
    match m
    case Push(t, data, hash) => s.(threads := s.threads[t := PushTo(s.options, t, s.threads[t], data, hash)])
    case BeginFlush(t) => s.(threads := s.threads[t := s.threads[t].(flushing := Some(0))])
    case FlushNext(t) => FlushPartition(s, t)
    case PartitionStep(p, step) => s.(parts := s.parts[p := Next(s.parts[p], step)])
  }

  function Run(s: Sched, moves: seq<Move>): (r: Sched)
    requires Shaped(s)
    ensures Shaped(r)
    decreases |moves|
  {
    if moves == [] then s else Run(if CanMove(s, moves[0]) then After(s, moves[0]) else s, moves[1..])
  }

  // ---------------------------------------------------------------------
  // What every move keeps
  // ---------------------------------------------------------------------

  /** The messages of thread `t` in a list. */
  function Of(msgs: seq<Msg>, t: nat): seq<Msg> {
    if msgs == [] then [] else (if msgs[0].thread == t then [msgs[0]] else []) + Of(msgs[1..], t)
  }

  /** The messages a thread assigned to partition `p`. */
  function To(sent: seq<Sent>, p: nat): seq<Msg> {
    if sent == [] then [] else To(sent[..|sent| - 1], p) + (if sent[|sent| - 1].partition == p then [sent[|sent| - 1].msg] else [])
  }

  ghost predicate OwnPending(s: Sched) {
    forall t, p, k :: 0 <= t < |s.threads| && 0 <= p < |s.threads[t].pending| && 0 <= k < |s.threads[t].pending[p]| ==>
      s.threads[t].pending[p][k].thread == t
  }

  /** What thread `t` sent to partition `p` has been handed over or is still pending. */
  ghost predicate Handed(s: Sched, t: nat, p: nat)
    requires t < |s.threads| && p < |s.parts| && p < |s.threads[t].pending|
  {
    To(s.threads[t].sent, p) == Of(s.parts[p].added, t) + s.threads[t].pending[p]
  }

  /** A thread with pending messages has its batch callback registered or running. */
  predicate WillFlush(th: Thread) {
    forall p :: 0 <= p < |th.pending| && th.pending[p] != [] ==>
      th.numMessages > 0 && (th.flushing.Some? ==> p >= th.flushing.value)
  }

  ghost predicate Sound(s: Sched)
    requires Shaped(s)
  {
    && OwnPending(s)
    && (forall p :: 0 <= p < |s.parts| ==> Inv(s.parts[p]))
    && (forall t, p :: 0 <= t < |s.threads| && 0 <= p < |s.parts| ==> Handed(s, t, p))
    && (forall t :: 0 <= t < |s.threads| ==> WillFlush(s.threads[t]))
  }

  /** Round robin: every message went where its number says. */
  ghost predicate Distributed(o: Options, th: Thread)
    requires o.numPartitions > 0
  {
    && CursorAt(o, th, |th.sent|)
    && forall k :: 0 <= k < |th.sent| ==> th.sent[k].partition == Target(o, th.start, k)
  }

  lemma {:induction false} OfConcat(a: seq<Msg>, b: seq<Msg>, t: nat)
    ensures Of(a + b, t) == Of(a, t) + Of(b, t)
  {
    if a == [] {
      assert a + b == b;
    } else {
      OfConcat(a[1..], b, t);
      assert (a + b)[1..] == a[1..] + b;
      var head := if a[0].thread == t then [a[0]] else [];
      assert head + (Of(a[1..], t) + Of(b, t)) == (head + Of(a[1..], t)) + Of(b, t);
    }
  }

  lemma {:induction false} OfOwn(msgs: seq<Msg>, u: nat, t: nat)
    requires forall k :: 0 <= k < |msgs| ==> msgs[k].thread == u
    ensures Of(msgs, t) == if t == u then msgs else []
  {
    if msgs == [] {
    } else {
      OfOwn(msgs[1..], u, t);
    }
  }

  lemma PushSends(o: Options, index: nat, t: Thread, data: nat, hash: nat, p: nat)
    requires o.numPartitions > 0 && |t.pending| == o.numPartitions && t.lastPartition < o.numPartitions
    requires p < o.numPartitions
    ensures var u := PushTo(o, index, t, data, hash);
            var extra := if ChoosePartition(o, t, hash).0 == p then [Msg(index, |t.sent|, data)] else [];
            u.pending[p] == t.pending[p] + extra && To(u.sent, p) == To(t.sent, p) + extra
  {
    var u := PushTo(o, index, t, data, hash);
    assert u.sent[..|t.sent|] == t.sent;
    assert t.pending[p] + [] == t.pending[p];
  }

  lemma PushKeeps(s: Sched, t: nat, data: nat, hash: nat)
    requires Shaped(s) && Sound(s) && CanMove(s, Push(t, data, hash))
    ensures Sound(After(s, Push(t, data, hash)))
  {
    var r := After(s, Push(t, data, hash));
    forall u, p | 0 <= u < |r.threads| && 0 <= p < |r.parts| ensures Handed(r, u, p) {
      assert Handed(s, u, p);
      if u == t {
        PushSends(s.options, t, s.threads[t], data, hash, p);
        var extra := if ChoosePartition(s.options, s.threads[t], hash).0 == p then [Msg(t, |s.threads[t].sent|, data)] else [];
        assert Of(s.parts[p].added, t) + s.threads[t].pending[p] + extra
            == Of(s.parts[p].added, t) + (s.threads[t].pending[p] + extra);
      }
    }
  }

  /** The pending messages of thread `t` for partition `p` become a batch. */
  lemma HandOver(s: Sched, r: Sched, t: nat, p: nat, u: nat, q: nat)
    requires Shaped(s) && Sound(s) && t < |s.threads| && p < |s.parts|
    requires r.parts == s.parts[p := StepAddBatch(s.parts[p], s.threads[t].pending[p])]
    requires |r.threads| == |s.threads| && |r.threads[t].pending| == |s.parts|
    requires r.threads[t].sent == s.threads[t].sent && r.threads[t].pending == s.threads[t].pending[p := []]
    requires forall v :: 0 <= v < |s.threads| && v != t ==> r.threads[v] == s.threads[v]
    requires u < |s.threads| && q < |s.parts|
    ensures Handed(r, u, q)
  {
    assert Handed(s, u, q);
    if q == p {
      var batch := s.threads[t].pending[p];
      OfConcat(s.parts[p].added, batch, u);
      OfOwn(batch, t, u);
      var before := Of(s.parts[p].added, u);
      assert before + batch + [] == before + batch && before + [] == before;
    }
  }

  lemma FlushKeeps(s: Sched, t: nat)
    requires Shaped(s) && Sound(s) && CanMove(s, FlushNext(t))
    ensures Sound(FlushPartition(s, t))
  {
    var r, th := FlushPartition(s, t), s.threads[t];
    var p := th.flushing.value;
    forall u, q | 0 <= u < |r.threads| && 0 <= q < |r.parts| ensures Handed(r, u, q) {
      if p < |s.parts| && th.pending[p] != [] {
        HandOver(s, r, t, p, u, q);
      } else {
        assert Handed(s, u, q);
      }
    }
    if p < |s.parts| {
      AddBatchKeeps(s.parts[p], th.pending[p]);
    }
  }

  lemma PartitionKeeps(s: Sched, p: nat, step: Step)
    requires Shaped(s) && Sound(s) && CanMove(s, PartitionStep(p, step))
    ensures Sound(After(s, PartitionStep(p, step)))
  {
    var r := After(s, PartitionStep(p, step));
    StepKeeps(s.parts[p], step);
    forall u, q | 0 <= u < |r.threads| && 0 <= q < |r.parts| ensures Handed(r, u, q) {
      assert Handed(s, u, q);
      assert r.parts[q].added == s.parts[q].added;
    }
  }

  lemma MoveKeeps(s: Sched, m: Move)
    requires Shaped(s) && Sound(s) && CanMove(s, m)
    ensures Sound(After(s, m))
  {
    match m
    case Push(t, data, hash) => PushKeeps(s, t, data, hash);
    case BeginFlush(t) =>
      var r := After(s, m);
      forall u, q | 0 <= u < |r.threads| && 0 <= q < |r.parts| ensures Handed(r, u, q) {
        assert Handed(s, u, q);
      }
    case FlushNext(t) => FlushKeeps(s, t);
    case PartitionStep(p, step) => PartitionKeeps(s, p, step);
  }

  // ---------------------------------------------------------------------
  // Runs
  // ---------------------------------------------------------------------

  lemma NewIsSound(o: Options, threads: nat)
    requires o.numPartitions > 0
    ensures Shaped(NewSched(o, threads)) && Sound(NewSched(o, threads))
  {
    var s := NewSched(o, threads);
    NewPartitionInv();
    forall t, p | 0 <= t < |s.threads| && 0 <= p < |s.parts| ensures Handed(s, t, p) {
    }
  }

  lemma {:induction false} RunFrom(s: Sched, moves: seq<Move>)
    requires Shaped(s) && Sound(s)
    ensures Sound(Run(s, moves))
    decreases |moves|
  {
    if moves == [] {
    } else {
      if CanMove(s, moves[0]) {
        MoveKeeps(s, moves[0]);
        RunFrom(After(s, moves[0]), moves[1..]);
      } else {
        RunFrom(s, moves[1..]);
      }
    }
  }

  /** From one thread to one partition: what was passed on, what waits in the partition
      and what the thread still holds is exactly what it sent there, in push order. */
  lemma SentInOrder(s: Sched, t: nat, p: nat)
    requires Shaped(s) && Sound(s) && t < |s.threads| && p < |s.parts|
    ensures To(s.threads[t].sent, p)
         == Of(s.parts[p].reinjected, t) + Of(Waiting(s.parts[p]), t) + s.threads[t].pending[p]
  {
    assert Handed(s, t, p) && Inv(s.parts[p]);
    OfConcat(s.parts[p].reinjected, Waiting(s.parts[p]), t);
  }

  /** The scheduler theorem: in every run, under every interleaving of threads, flushes
      and partition jobs, messages of one thread to one partition keep their order and
      none is lost or duplicated; and once the thread has flushed and the partition has
      stopped, all of them have been passed on. */
  lemma RunSendsInOrder(o: Options, threads: nat, moves: seq<Move>, t: nat, p: nat)
    requires o.numPartitions > 0 && t < threads && p < o.numPartitions
    ensures Shaped(NewSched(o, threads))
    ensures var s := Run(NewSched(o, threads), moves);
            && t < |s.threads| && p < |s.parts| && p < |s.threads[t].pending|
            && To(s.threads[t].sent, p)
               == Of(s.parts[p].reinjected, t) + Of(Waiting(s.parts[p]), t) + s.threads[t].pending[p]
            && (s.threads[t].numMessages == 0 && !s.parts[p].flushRunning ==>
                  To(s.threads[t].sent, p) == Of(s.parts[p].reinjected, t))
  {
    NewIsSound(o, threads);
    RunFrom(NewSched(o, threads), moves);
    RunKeepsSize(NewSched(o, threads), moves);
    var s := Run(NewSched(o, threads), moves);
    SentInOrder(s, t, p);
    if s.threads[t].numMessages == 0 && !s.parts[p].flushRunning {
      assert s.threads[t].pending[p] == [] && Inv(s.parts[p]);
      StuckMeansDone(s.parts[p]);
      assert Handed(s, t, p);
    }
  }

  lemma {:induction false} RunKeepsSize(s: Sched, moves: seq<Move>)
    requires Shaped(s)
    ensures var r := Run(s, moves);
            |r.threads| == |s.threads| && |r.parts| == |s.parts| && r.options == s.options
    decreases |moves|
  {
    if moves == [] {
    } else {
      RunKeepsSize(if CanMove(s, moves[0]) then After(s, moves[0]) else s, moves[1..]);
    }
  }

  // ---------------------------------------------------------------------
  // Distribution
  // ---------------------------------------------------------------------

  lemma PushDistributes(o: Options, index: nat, t: Thread, data: nat, hash: nat)
    requires o.numPartitions > 0 && |t.pending| == o.numPartitions && t.lastPartition < o.numPartitions
    requires !o.keyed && Distributed(o, t)
    ensures Distributed(o, PushTo(o, index, t, data, hash))
  {
    ChoiceFollowsCursor(o, t, hash, |t.sent|);
  }

  ghost predicate AllDistributed(s: Sched)
    requires Shaped(s)
  {
    forall t :: 0 <= t < |s.threads| ==> Distributed(s.options, s.threads[t])
  }

  lemma MoveDistributes(s: Sched, m: Move)
    requires Shaped(s) && CanMove(s, m) && !s.options.keyed && AllDistributed(s)
    ensures AllDistributed(After(s, m))
  {
    if m.Push? {
      PushDistributes(s.options, m.thread, s.threads[m.thread], m.data, m.hash);
    }
  }

  lemma {:induction false} DistributedFrom(s: Sched, moves: seq<Move>)
    requires Shaped(s) && !s.options.keyed && AllDistributed(s)
    ensures AllDistributed(Run(s, moves))
    decreases |moves|
  {
    if moves == [] {
    } else {
      if CanMove(s, moves[0]) {
        MoveDistributes(s, moves[0]);
        DistributedFrom(After(s, moves[0]), moves[1..]);
      } else {
        DistributedFrom(s, moves[1..]);
      }
    }
  }

  lemma TargetOfFirst(o: Options, start: nat)
    requires start < o.numPartitions
    ensures Target(o, start, 0) == start
  {
    DivUnique(0, Stride(o), 0, 0);
    DivUnique(start, o.numPartitions, 0, start);
  }

  lemma NewThreadDistributed(o: Options, index: nat)
    requires o.numPartitions > 0
    ensures Distributed(o, NewThread(o, index))
  {
    TargetOfFirst(o, index % o.numPartitions);
    if o.batchSize > 0 {
      DivUnique(0, o.batchSize, 0, 0);
    }
  }

  lemma NewDistributed(o: Options, threads: nat)
    requires o.numPartitions > 0 && Shaped(NewSched(o, threads))
    ensures AllDistributed(NewSched(o, threads))
  {
    var s := NewSched(o, threads);
    forall u | 0 <= u < |s.threads| ensures Distributed(o, s.threads[u]) {
      NewThreadDistributed(o, u);
    }
  }

  /** Without a partition key the k-th message of thread `t` goes to partition
      (t mod n + k div max(1, batch size)) mod n, across any number of flushes. */
  lemma RunDistributes(o: Options, threads: nat, moves: seq<Move>, t: nat, k: nat)
    requires o.numPartitions > 0 && !o.keyed && t < threads
    requires Shaped(NewSched(o, threads))
    requires t < |Run(NewSched(o, threads), moves).threads| && k < |Run(NewSched(o, threads), moves).threads[t].sent|
    ensures Run(NewSched(o, threads), moves).threads[t].sent[k].partition == Target(o, t % o.numPartitions, k)
  {
    var s := NewSched(o, threads);
    NewDistributed(o, threads);
    DistributedFrom(s, moves);
    RunKeepsSize(s, moves);
    StartsStay(s, moves, t);
    assert Distributed(o, Run(s, moves).threads[t]);
  }

  lemma {:induction false} StartsStay(s: Sched, moves: seq<Move>, t: nat)
    requires Shaped(s) && t < |s.threads|
    ensures |Run(s, moves).threads| == |s.threads| && Run(s, moves).threads[t].start == s.threads[t].start
    decreases |moves|
  {
    if moves == [] {
    } else {
      StartsStay(if CanMove(s, moves[0]) then After(s, moves[0]) else s, moves[1..], t);
    }
  }

  // ---------------------------------------------------------------------
  // With a partition key
  // ---------------------------------------------------------------------

  ghost predicate PlacedByHash(o: Options, t: Thread)
    requires o.numPartitions > 0
  {
    forall k :: 0 <= k < |t.sent| ==> t.sent[k].partition == t.sent[k].hash % o.numPartitions
  }

  ghost predicate AllPlacedByHash(s: Sched)
    requires Shaped(s)
  {
    forall t :: 0 <= t < |s.threads| ==> PlacedByHash(s.options, s.threads[t])
  }

  lemma {:induction false} PlacedByHashFrom(s: Sched, moves: seq<Move>)
    requires Shaped(s) && s.options.keyed && AllPlacedByHash(s)
    ensures Run(s, moves).options == s.options && AllPlacedByHash(Run(s, moves))
    decreases |moves|
  {
    if moves == [] {
    } else if CanMove(s, moves[0]) {
      MovePlacesByHash(s, moves[0]);
      PlacedByHashFrom(After(s, moves[0]), moves[1..]);
    } else {
      PlacedByHashFrom(s, moves[1..]);
    }
  }

  lemma MovePlacesByHash(s: Sched, m: Move)
    requires Shaped(s) && s.options.keyed && AllPlacedByHash(s) && CanMove(s, m)
    ensures After(s, m).options == s.options && AllPlacedByHash(After(s, m))
  {
    var r := After(s, m);
    forall t | 0 <= t < |r.threads| ensures PlacedByHash(r.options, r.threads[t]) {
      assert PlacedByHash(s.options, s.threads[t]);
    }
  }

  /** With a partition key, in every run, messages whose keys have the same hash go to the
      same partition, from whatever threads: the hash modulo the number of partitions. */
  lemma RunPlacesByHash(o: Options, threads: nat, moves: seq<Move>, t: nat, k: nat)
    requires o.numPartitions > 0 && o.keyed && t < threads
    requires t < |Run(NewSched(o, threads), moves).threads| && k < |Run(NewSched(o, threads), moves).threads[t].sent|
    ensures var x := Run(NewSched(o, threads), moves).threads[t].sent[k];
            x.partition == x.hash % o.numPartitions
  {
    PlacedByHashFrom(NewSched(o, threads), moves);
    assert PlacedByHash(o, Run(NewSched(o, threads), moves).threads[t]);
  }

  /** A push records its message, whatever partition it goes to. */
  lemma PushRecords(s: Sched, t: nat, data: nat, hash: nat)
    requires Shaped(s) && CanMove(s, Push(t, data, hash))
    ensures var th, u := s.threads[t], After(s, Push(t, data, hash)).threads[t];
            && |u.sent| == |th.sent| + 1 && u.sent[..|th.sent|] == th.sent
            && u.sent[|th.sent|].msg == Msg(t, |th.sent|, data) && u.sent[|th.sent|].hash == hash
  {
  }
}
