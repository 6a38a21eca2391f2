/**
 Progress of the parallel scheduler: when no more messages are pushed, every run
 of threads and partitions ends, and then everything pushed has been passed on.
 */
module SchedulerProgress {
  import opened Wrappers
  import opened SchedulerPartition
  import opened Scheduler

  function Sum<T>(f: T -> nat, s: seq<T>): nat {
    if s == [] then 0 else f(s[0]) + Sum(f, s[1..])
  }

  lemma {:induction false} SumOfOne<T>(f: T -> nat, s: seq<T>, i: nat, x: T)
    requires i < |s|
    ensures Sum(f, s[i := x]) + f(s[i]) == Sum(f, s) + f(x)
    decreases |s|
  {
    if i == 0 {
      assert s[i := x][1..] == s[1..];
    } else {
      SumOfOne(f, s[1..], i - 1, x);
      assert s[i := x][1..] == s[1..][i - 1 := x];
    }
  }

  // ---------------------------------------------------------------------
  // How much there is to do
  // ---------------------------------------------------------------------

  /** Messages a thread holds for one partition. */
  function BatchWork(batch: seq<Msg>): nat { if batch == [] then 0 else 6 * |batch| + 11 }

  /** What is left of the batch callback of a thread. */
  function FlushWork(numPartitions: nat, th: Thread): nat {
    match th.flushing
    case Some(p) => 1 + if p < numPartitions then numPartitions - p else 0
    case None => if th.numMessages > 0 then numPartitions + 2 else 0
  }

  function ThreadWork(numPartitions: nat, th: Thread): nat { FlushWork(numPartitions, th) + Sum(BatchWork, th.pending) }

  function TotalWork(s: Sched): nat {
    Sum((th: Thread) => ThreadWork(|s.parts|, th), s.threads) + Sum(Work, s.parts)
  }

  lemma {:induction false} SizeConcat(a: seq<seq<Msg>>, batch: seq<Msg>)
    ensures Size(a + [batch]) == Size(a) + |batch| + 1
  {
    if a == [] {
      assert a + [batch] == [batch] && [batch][1..] == [];
    } else {
      SizeConcat(a[1..], batch);
      assert (a + [batch])[1..] == a[1..] + [batch];
    }
  }

  /** A batch makes no more work than the thread that held it had. */
  lemma AddBatchWorks(p: Partition, batch: seq<Msg>)
    requires Inv(p) && batch != []
    ensures Work(StepAddBatch(p, batch)) <= Work(p) + BatchWork(batch)
  {
    SizeConcat(p.batches, batch);
  }

  // ---------------------------------------------------------------------
  // Every move but a push works
  // ---------------------------------------------------------------------

  lemma OneThreadWorks(s: Sched, t: nat, th: Thread, parts: seq<Partition>)
    requires t < |s.threads| && |parts| == |s.parts|
    requires ThreadWork(|parts|, th) + Sum(Work, parts) < ThreadWork(|s.parts|, s.threads[t]) + Sum(Work, s.parts)
    ensures TotalWork(s.(threads := s.threads[t := th], parts := parts)) < TotalWork(s)
  {
    var n := |s.parts|;
    SumOfOne((u: Thread) => ThreadWork(n, u), s.threads, t, th);
  }

  lemma FlushWorks(s: Sched, t: nat)
    requires Shaped(s) && Sound(s) && CanMove(s, FlushNext(t))
    ensures TotalWork(FlushPartition(s, t)) < TotalWork(s)
  {
    var th := s.threads[t];
    var p := th.flushing.value;
    if p >= |s.parts| {
      OneThreadWorks(s, t, th.(numMessages := 0, flushing := None), s.parts);
    } else if th.pending[p] == [] {
      OneThreadWorks(s, t, th.(flushing := Some(p + 1)), s.parts);
    } else {
      SumOfOne(BatchWork, th.pending, p, []);
      SumOfOne(Work, s.parts, p, StepAddBatch(s.parts[p], th.pending[p]));
      AddBatchWorks(s.parts[p], th.pending[p]);
      OneThreadWorks(s, t, th.(flushing := Some(p + 1), pending := th.pending[p := []]),
                     s.parts[p := StepAddBatch(s.parts[p], th.pending[p])]);
    }
  }

  lemma MoveWorks(s: Sched, m: Move)
    requires Shaped(s) && Sound(s) && CanMove(s, m) && !m.Push?
    ensures TotalWork(After(s, m)) < TotalWork(s)
  {
    match m
    case BeginFlush(t) => OneThreadWorks(s, t, s.threads[t].(flushing := Some(0)), s.parts);
    case FlushNext(t) => FlushWorks(s, t);
    case PartitionStep(p, step) =>
      StepsDrain(s.parts[p], step);
      SumOfOne(Work, s.parts, p, Next(s.parts[p], step));
  }

  // ---------------------------------------------------------------------
  // Runs without pushes
  // ---------------------------------------------------------------------

  predicate NoPushes(s: Sched, moves: seq<Move>)
    requires Shaped(s)
    decreases |moves|
  {
    moves == [] || (!moves[0].Push? && CanMove(s, moves[0]) && NoPushes(After(s, moves[0]), moves[1..]))
  }

  /** Nothing but a push is possible. */
  ghost predicate Settled(s: Sched) { forall m: Move :: !m.Push? ==> !CanMove(s, m) }

  ghost predicate SameSent(s: Sched, r: Sched) {
    |r.threads| == |s.threads| && forall t :: 0 <= t < |s.threads| ==> r.threads[t].sent == s.threads[t].sent
  }

  lemma MoveKeepsSent(s: Sched, m: Move)
    requires Shaped(s) && CanMove(s, m) && !m.Push?
    ensures SameSent(s, After(s, m))
  {
    match m
    case BeginFlush(t) =>
    case FlushNext(t) =>
    case PartitionStep(p, step) =>
  }

  lemma {:induction false} NoPushesKeepSent(s: Sched, moves: seq<Move>)
    requires Shaped(s) && NoPushes(s, moves)
    ensures SameSent(s, Scheduler.Run(s, moves))
    decreases |moves|
  {
    if moves == [] {
    } else {
      MoveKeepsSent(s, moves[0]);
      NoPushesKeepSent(After(s, moves[0]), moves[1..]);
    }
  }

  lemma {:induction false} NoPushesEnd(s: Sched, moves: seq<Move>)
    requires Shaped(s) && Sound(s) && NoPushes(s, moves)
    ensures |moves| + TotalWork(Scheduler.Run(s, moves)) <= TotalWork(s) && Sound(Scheduler.Run(s, moves))
    decreases |moves|
  {
    if moves == [] {
    } else {
      MoveWorks(s, moves[0]);
      MoveKeeps(s, moves[0]);
      NoPushesEnd(After(s, moves[0]), moves[1..]);
    }
  }

  /** At rest, everything a thread sent to a partition has been passed on. */
  lemma SettledIsDone(s: Sched, t: nat, p: nat)
    requires Shaped(s) && Sound(s) && Settled(s) && t < |s.threads| && p < |s.parts|
    ensures To(s.threads[t].sent, p) == Of(s.parts[p].reinjected, t)
  {
    assert !CanMove(s, BeginFlush(t)) && !CanMove(s, FlushNext(t));
    assert WillFlush(s.threads[t]) && s.threads[t].pending[p] == [];
    StuckMeansDone(s.parts[p]);
    if s.parts[p].flushRunning {
      var step: Step :| !step.AddBatch? && Enabled(s.parts[p], step);
      assert CanMove(s, PartitionStep(p, step));
    }
    assert Handed(s, t, p);
  }

  /** After any run, once no more messages are pushed: every sequence of further moves
      comes to an end, and there each partition has passed on exactly what each thread
      sent to it, in order. */
  lemma EverythingIsPassedOn(o: Options, threads: nat, before: seq<Move>, moves: seq<Move>, t: nat, p: nat)
    requires o.numPartitions > 0 && t < threads && p < o.numPartitions && Shaped(NewSched(o, threads))
    requires NoPushes(Scheduler.Run(NewSched(o, threads), before), moves)
    ensures var s := Scheduler.Run(NewSched(o, threads), before);
            var r := Scheduler.Run(s, moves);
            && |moves| <= TotalWork(s)
            && |r.threads| == |s.threads| == threads && |r.parts| == o.numPartitions
            && (Settled(r) ==> To(s.threads[t].sent, p) == Of(r.parts[p].reinjected, t))
  {
    var s := Scheduler.Run(NewSched(o, threads), before);
    NewIsSound(o, threads);
    RunFrom(NewSched(o, threads), before);
    RunKeepsSize(NewSched(o, threads), before);
    NoPushesEnd(s, moves);
    NoPushesKeepSent(s, moves);
    RunKeepsSize(s, moves);
    if Settled(Scheduler.Run(s, moves)) {
      SettledIsDone(Scheduler.Run(s, moves), t, p);
    }
  }
}
