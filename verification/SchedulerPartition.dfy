/**
 One partition of the parallel scheduler (lib/logscheduler.c) and the job it
 submits to the I/O workers (lib/mainloop-io-worker.c).

 Producers append batches under a lock and the first of them triggers the job;
 the job takes all batches, passes their messages on, and looks again; the
 completion callback in the main thread restarts it if it came too late.  A step
 is one critical section or one action of one thread.  Nothing in the state
 says that there is only one job: that is proved.
 */
module SchedulerPartition {

  datatype Msg = Msg(thread: nat, num: nat, data: nat)

  /** One activation of the job.  `hand` are the batches it took off the partition. */
  datatype Job = Submitted | Running(hand: seq<seq<Msg>>) | Returned

  /** `triggers`: producers that decided to submit the job and have not done so yet.
      `completing`: completions that have cleared `working` but not taken the lock.
      `restarts`: completions about to submit the job again. */
  datatype Partition = Partition(
    batches: seq<seq<Msg>>, flushRunning: bool, working: bool,
    triggers: nat, jobs: seq<Job>, completing: nat, restarts: nat,
    added: seq<Msg>, reinjected: seq<Msg>)

  const NEW_PARTITION := Partition([], false, false, 0, [], 0, 0, [], [])

  datatype Step =
    | AddBatch(batch: seq<Msg>)
    | SubmitTrigger
    | StartWork(job: nat)
    | TakeBatches(job: nat)
    | Reinject(job: nat)
    | BeginComplete(job: nat)
    | EndComplete
    | Restart

  predicate Enabled(p: Partition, step: Step) {
    match step
    case AddBatch(_) => true
    case SubmitTrigger => p.triggers > 0
    case StartWork(j) => j < |p.jobs| && p.jobs[j].Submitted?
    case TakeBatches(j) => j < |p.jobs| && p.jobs[j] == Running([])
    case Reinject(j) => j < |p.jobs| && p.jobs[j].Running? && p.jobs[j].hand != []
    case BeginComplete(j) => j < |p.jobs| && p.jobs[j].Returned?
    case EndComplete => p.completing > 0
    case Restart => p.restarts > 0
  }

  /** _partition_add_batch, the critical section. */
  function StepAddBatch(p: Partition, batch: seq<Msg>): Partition {
    var trigger := !p.flushRunning && p.batches == [];
    p.(batches := p.batches + [batch],
       flushRunning := p.flushRunning || trigger,
       triggers := if trigger then p.triggers + 1 else p.triggers,
       added := p.added + batch)
  }

  /** main_loop_io_worker_job_submit and its continuation variant. */
  function Submit(p: Partition): Partition { p.(working := true, jobs := p.jobs + [Submitted]) }

  /** One look of _work at the batch list, under the lock. */
  function StepTakeBatches(p: Partition, j: nat): Partition
    requires j < |p.jobs|
  {
    if p.batches == [] then p.(jobs := p.jobs[j := Returned])
    else p.(jobs := p.jobs[j := Running(p.batches)], batches := [])
  }

  /** The next message of the batches in hand, or the end of an empty batch. */
  function StepReinject(p: Partition, j: nat): Partition
    requires j < |p.jobs| && p.jobs[j].Running? && p.jobs[j].hand != []
  {
    var hand := p.jobs[j].hand;
    if hand[0] == [] then p.(jobs := p.jobs[j := Running(hand[1..])])
    else p.(jobs := p.jobs[j := Running([hand[0][1..]] + hand[1..])], reinjected := p.reinjected + [hand[0][0]])
  }

  /** The completion callback of the scheduler, the critical section. */
  function StepEndComplete(p: Partition): Partition
    requires p.completing > 0
  {
    if p.batches != [] then p.(completing := p.completing - 1, restarts := p.restarts + 1)
    else p.(completing := p.completing - 1, flushRunning := false)
  }

  function Next(p: Partition, step: Step): Partition
    requires Enabled(p, step)
  {
    match step
    case AddBatch(batch) => StepAddBatch(p, batch)
    case SubmitTrigger => Submit(p.(triggers := p.triggers - 1))
    case StartWork(j) => p.(jobs := p.jobs[j := Running([])])
    case TakeBatches(j) => StepTakeBatches(p, j)
    case Reinject(j) => StepReinject(p, j)
    case BeginComplete(j) =>
      p.(working := false, jobs := p.jobs[..j] + p.jobs[j + 1..], completing := p.completing + 1)
    case EndComplete => StepEndComplete(p)
    case Restart => Submit(p.(restarts := p.restarts - 1))
  }

  /** The `working == FALSE` assertions at the two submits. */
  predicate StepOk(p: Partition, step: Step) {
    step.SubmitTrigger? || step.Restart? ==> !p.working
  }

  // ---------------------------------------------------------------------
  // The invariant
  // ---------------------------------------------------------------------

  function Flatten(batches: seq<seq<Msg>>): seq<Msg> {
    if batches == [] then [] else batches[0] + Flatten(batches[1..])
  }

  function InHand(jobs: seq<Job>): seq<Msg> {
    if jobs == [] then []
    else (if jobs[0].Running? then Flatten(jobs[0].hand) else []) + InHand(jobs[1..])
  }

  /** Everything that was added and not yet passed on, in order. */
  function Waiting(p: Partition): seq<Msg> { InHand(p.jobs) + Flatten(p.batches) }

  /** Exactly one trigger, job or restart is outstanding while a flush is running, and
      none otherwise; batches never wait without one; and the line of messages is
      intact. */
  ghost predicate Inv(p: Partition) {
    && p.triggers + |p.jobs| + p.completing + p.restarts == (if p.flushRunning then 1 else 0)
    && (p.working <==> p.jobs != [])
    && (p.batches != [] ==> p.flushRunning)
    && p.added == p.reinjected + Waiting(p)
  }

  lemma {:induction false} FlattenConcat(a: seq<seq<Msg>>, b: seq<seq<Msg>>)
    ensures Flatten(a + b) == Flatten(a) + Flatten(b)
  {
    if a == [] {
      assert a + b == b;
    } else {
      FlattenConcat(a[1..], b);
      assert (a + b)[1..] == a[1..] + b;
      assert a[0] + (Flatten(a[1..]) + Flatten(b)) == (a[0] + Flatten(a[1..])) + Flatten(b);
    }
  }

  lemma FlattenOne(batch: seq<Msg>)
    ensures Flatten([batch]) == batch
  {
    assert [batch][1..] == [];
  }

  lemma InHandOne(job: Job)
    ensures InHand([job]) == if job.Running? then Flatten(job.hand) else []
  {
    assert [job][1..] == [];
  }

  lemma AddBatchKeeps(p: Partition, batch: seq<Msg>)
    requires Inv(p)
    ensures Inv(StepAddBatch(p, batch))
  {
    FlattenConcat(p.batches, [batch]);
    FlattenOne(batch);
    assert p.reinjected + (InHand(p.jobs) + Flatten(p.batches)) + batch
        == p.reinjected + (InHand(p.jobs) + (Flatten(p.batches) + batch));
  }

  lemma TakeBatchesKeeps(p: Partition)
    requires Inv(p) && p.jobs == [Running([])]
    ensures Inv(StepTakeBatches(p, 0))
  {
    var t := StepTakeBatches(p, 0);
    assert t.jobs == [t.jobs[0]];
    InHandOne(Running([]));
    InHandOne(t.jobs[0]);
    assert [] + Flatten(p.batches) == Flatten(p.batches) + [];
  }

  lemma OneMoreOut(r: seq<Msg>, b: seq<Msg>, rest: seq<Msg>, more: seq<Msg>)
    requires b != []
    ensures r + ((b + rest) + more) == (r + [b[0]]) + ((b[1..] + rest) + more)
  {
  }

  lemma FlattenHead(b: seq<Msg>, rest: seq<seq<Msg>>)
    ensures Flatten([b] + rest) == b + Flatten(rest)
  {
    assert ([b] + rest)[1..] == rest;
  }

  lemma ReinjectKeeps(p: Partition, hand: seq<seq<Msg>>)
    requires Inv(p) && p.jobs == [Running(hand)] && hand != []
    ensures Inv(StepReinject(p, 0))
  {
    var t := StepReinject(p, 0);
    var b, rest := hand[0], hand[1..];
    InHandOne(Running(hand));
    if b == [] {
      assert t.jobs == [Running(rest)];
      InHandOne(Running(rest));
      assert b + Flatten(rest) == Flatten(rest);
    } else {
      assert t.jobs == [Running([b[1..]] + rest)];
      InHandOne(Running([b[1..]] + rest));
      FlattenHead(b[1..], rest);
      OneMoreOut(p.reinjected, b, Flatten(rest), Flatten(p.batches));
    }
  }

  lemma SubmitKeeps(p: Partition, t: Partition)
    requires p.jobs == [] && t == Submit(t.(working := false, jobs := [])) && t.batches == p.batches
    requires Inv(p) && t.added == p.added && t.reinjected == p.reinjected && t.flushRunning == p.flushRunning
    requires t.triggers + t.completing + t.restarts == 0 && p.flushRunning
    ensures Inv(t)
  {
    assert t.jobs == [Submitted];
    InHandOne(Submitted);
  }

  lemma StepKeeps(p: Partition, step: Step)
    requires Inv(p) && Enabled(p, step)
    ensures Inv(Next(p, step)) && StepOk(p, step)
  {
    match step
    case AddBatch(batch) => AddBatchKeeps(p, batch);
    case SubmitTrigger => SubmitKeeps(p, Next(p, step));
    case StartWork(j) =>
      assert p.jobs == [Submitted];
      InHandOne(Submitted);
      InHandOne(Running([]));
      assert p.jobs[0 := Running([])] == [Running([])];
    case TakeBatches(j) =>
      assert p.jobs == [Running([])];
      TakeBatchesKeeps(p);
    case Reinject(j) =>
      assert p.jobs == [p.jobs[0]];
      ReinjectKeeps(p, p.jobs[0].hand);
    case BeginComplete(j) =>
      assert p.jobs == [Returned];
      InHandOne(Returned);
      assert p.jobs[..0] + p.jobs[1..] == [];
    case EndComplete =>
    case Restart => SubmitKeeps(p, Next(p, step));
  }

  // ---------------------------------------------------------------------
  // Runs
  // ---------------------------------------------------------------------

  function Run(p: Partition, steps: seq<Step>): Partition
    decreases |steps|
  {
    if steps == [] then p else Run(if Enabled(p, steps[0]) then Next(p, steps[0]) else p, steps[1..])
  }

  predicate AllOk(p: Partition, steps: seq<Step>)
    decreases |steps|
  {
    steps == [] || if Enabled(p, steps[0]) then StepOk(p, steps[0]) && AllOk(Next(p, steps[0]), steps[1..])
                   else AllOk(p, steps[1..])
  }

  /** In every interleaving: one outstanding trigger, job or restart per running flush,
      at most one running job, no failing assertion, no batch without a flush, and
      messages passed on in the order they were added. */
  lemma {:induction false} RunKeeps(p: Partition, steps: seq<Step>)
    requires Inv(p)
    ensures Inv(Run(p, steps)) && AllOk(p, steps)
    ensures |Run(p, steps).jobs| <= 1 && Run(p, steps).reinjected <= Run(p, steps).added
    decreases |steps|
  {
    if steps == [] {
    } else {
      if Enabled(p, steps[0]) {
        StepKeeps(p, steps[0]);
        RunKeeps(Next(p, steps[0]), steps[1..]);
      } else {
        RunKeeps(p, steps[1..]);
      }
    }
  }

  lemma NewPartitionInv()
    ensures Inv(NEW_PARTITION)
  {
  }

  // ---------------------------------------------------------------------
  // Nothing is stranded
  // ---------------------------------------------------------------------

  function Size(batches: seq<seq<Msg>>): nat {
    if batches == [] then 0 else |batches[0]| + 1 + Size(batches[1..])
  }

  function JobRank(p: Partition, job: Job): nat {
    match job
    case Submitted => 4
    case Running(hand) => 3 + Size(hand)
    case Returned => if p.batches != [] then 7 else 2
  }

  /** How much the partition still has to do by itself. */
  function Work(p: Partition): nat {
    6 * Size(p.batches) + 5 * p.triggers + 5 * p.restarts + (if p.batches != [] then 6 else 1) * p.completing
    + if p.jobs == [] then 0 else JobRank(p, p.jobs[0])
  }

  /** Every step but the arrival of a batch brings the work to an end. */
  lemma StepsDrain(p: Partition, step: Step)
    requires Inv(p) && Enabled(p, step) && !step.AddBatch?
    ensures Work(Next(p, step)) < Work(p)
  {
    assert p.jobs != [] ==> p.jobs == [p.jobs[0]];
    match step
    case Reinject(j) =>
      var hand := p.jobs[0].hand;
      if hand[0] != [] {
        assert ([hand[0][1..]] + hand[1..])[1..] == hand[1..];
      }
    case _ =>
  }

  /** As long as the flush is running some step is possible, and without one
      everything that was added has been passed on. */
  lemma StuckMeansDone(p: Partition)
    requires Inv(p)
    ensures p.flushRunning ==> exists step: Step :: !step.AddBatch? && Enabled(p, step)
    ensures !p.flushRunning ==> p.reinjected == p.added
  {
    if p.flushRunning {
      if p.triggers > 0 {
        assert Enabled(p, SubmitTrigger);
      } else if p.completing > 0 {
        assert Enabled(p, EndComplete);
      } else if p.restarts > 0 {
        assert Enabled(p, Restart);
      } else {
        match p.jobs[0]
        case Submitted => assert Enabled(p, StartWork(0));
        case Running(hand) => assert if hand == [] then Enabled(p, TakeBatches(0)) else Enabled(p, Reinject(0));
        case Returned => assert Enabled(p, BeginComplete(0));
      }
    }
  }
}
