/**
 The objects of lib/logscheduler.c: a partition with its batch list and job, and
 the state of one worker thread, with the loops that drain and flush them.
 */
module LogScheduler {
  import opened Wrappers
  import opened SchedulerPartition
  import S = Scheduler

  class LogSchedulerPartition {
    var batches: seq<seq<Msg>>
    var flushRunning: bool
    var working: bool
    var reinjected: seq<Msg>  // what the front pipe received
    ghost var triggers: nat
    ghost var jobs: seq<Job>
    ghost var restarts: nat
    ghost var added: seq<Msg>

    constructor ()
      ensures Valid() && State() == NEW_PARTITION
    {
      batches, flushRunning, working, reinjected := [], false, false, [];
      triggers, jobs, restarts, added := 0, [], 0, [];
    }

    ghost function State(): Partition
      reads this
    {
      Partition(batches, flushRunning, working, triggers, jobs, 0, restarts, added, reinjected)
    }

    ghost predicate Valid()
      reads this
    {
      Inv(State())
    }

    /** _partition_add_batch: the caller has to submit the job if `trigger` is set. */
    method AddBatch(batch: seq<Msg>) returns (trigger: bool)
      requires Valid()
      modifies this`batches, this`flushRunning, this`triggers, this`added
      ensures Valid() && State() == StepAddBatch(old(State()), batch)
      ensures trigger <==> triggers > old(triggers)
    {
      AddBatchKeeps(State(), batch);
      trigger := !flushRunning && batches == [];
      if trigger {
        flushRunning := true;
        triggers := triggers + 1;
      }
      batches := batches + [batch];
      added := added + batch;
    }

    /** main_loop_io_worker_job_submit_continuation: its assertion holds. */
    method SubmitContinuation()
      requires Valid() && triggers > 0
      modifies this`working, this`triggers, this`jobs
      ensures Valid() && State() == Next(old(State()), SubmitTrigger)
    {
      StepKeeps(State(), SubmitTrigger);
      assert !working;
      working, triggers, jobs := true, triggers - 1, jobs + [Submitted];
    }

    /** _work, with nobody adding batches meanwhile: every waiting message reaches the
        front pipe, in order. */
    method Work()
      requires Valid() && jobs == [Submitted]
      modifies this`batches, this`reinjected, this`jobs
      ensures Valid() && jobs == [Returned] && batches == [] && reinjected == added
    {
      InHandOne(Submitted);
      while batches != []
        invariant added == reinjected + Flatten(batches)
        decreases |batches|
      {
        var taken := batches;
        batches := [];
        PassOn(taken);
        assert reinjected + [] == reinjected;
      }
      jobs := [Returned];
      InHandOne(Returned);
      assert reinjected + [] == reinjected;
    }

    /** The two inner loops of _work over the batches that were taken. */
    method PassOn(taken: seq<seq<Msg>>)
      modifies this`reinjected
      ensures reinjected == old(reinjected) + Flatten(taken)
    {
      var rest := taken;
      assert reinjected + Flatten(taken) == old(reinjected) + Flatten(taken);
      while rest != []
        invariant reinjected + Flatten(rest) == old(reinjected) + Flatten(taken)
      {
        var batch := rest[0];
        ghost var more := Flatten(rest[1..]);
        while batch != []
          invariant reinjected + (batch + more) == old(reinjected) + Flatten(taken)
        {
          assert reinjected + (batch + more) == reinjected + [batch[0]] + (batch[1..] + more);
          reinjected := reinjected + [batch[0]];
          batch := batch[1..];
        }
        assert [] + more == more;
        rest := rest[1..];
      }
    }

    /** _complete of the I/O worker and of the scheduler: the job has to be submitted
        again if `restart` is set. */
    method Complete() returns (restart: bool)
      requires Valid() && jobs == [Returned]
      modifies this`working, this`jobs, this`restarts, this`flushRunning
      ensures Valid() && State() == Next(Next(old(State()), BeginComplete(0)), EndComplete)
      ensures restart <==> batches != [] && flushRunning && restarts == 1
      ensures !restart ==> !flushRunning && reinjected == added
    {
      ghost var s := State();
      StepKeeps(s, BeginComplete(0));
      StepKeeps(Next(s, BeginComplete(0)), EndComplete);
      assert s.jobs[..0] + s.jobs[1..] == [];
      working, jobs := false, [];
      restart := batches != [];
      if restart {
        restarts := restarts + 1;
      } else {
        flushRunning := false;
      }
      if !restart {
        StuckMeansDone(State());
      }
    }

    /** main_loop_io_worker_job_submit after a completion: its assertion holds. */
    method Resubmit()
      requires Valid() && restarts > 0
      modifies this`working, this`jobs, this`restarts
      ensures Valid() && State() == Next(old(State()), Restart)
    {
      StepKeeps(State(), Restart);
      assert !working;
      working, restarts, jobs := true, restarts - 1, jobs + [Submitted];
    }
  }

  class LogSchedulerThreadState {
    const options: S.Options
    const index: nat
    ghost const start: nat
    var lastPartition: nat
    var batchCountdown: int
    var batchByPartition: seq<seq<Msg>>
    var numMessages: nat
    var count: nat
    ghost var sent: seq<S.Sent>

    constructor (options: S.Options, index: nat)
      requires options.numPartitions > 0
      ensures this.options == options && this.index == index && Valid() && State() == S.NewThread(options, index)
    {
      this.options, this.index := options, index;
      start := index % options.numPartitions;
      lastPartition := index % options.numPartitions;
      batchCountdown := options.batchSize;
      batchByPartition := seq(options.numPartitions, _ => []);
      numMessages, count, sent := 0, 0, [];
      new;
      S.NewThreadDistributed(options, index);
    }

    ghost function State(): S.Thread
      reads this
    {
      S.Thread(start, lastPartition, batchCountdown, batchByPartition, numMessages, None, sent)
    }

    ghost predicate Valid()
      reads this
    {
      && options.numPartitions > 0 && |batchByPartition| == options.numPartitions
      && lastPartition < options.numPartitions && count == |sent|
      && (!options.keyed ==> S.Distributed(options, State()))
    }

    /** _get_partition_index */
    method GetPartitionIndex(hash: nat) returns (partition: nat)
      requires Valid()
      modifies this`lastPartition, this`batchCountdown
      ensures (partition, State()) == S.ChoosePartition(options, old(State()), hash)
      ensures partition < options.numPartitions && lastPartition < options.numPartitions
    {
      if options.keyed {
        return hash % options.numPartitions;
      }
      if options.batchSize > 0 {
        batchCountdown := batchCountdown - 1;
        if batchCountdown > 0 {
          return lastPartition;
        }
        batchCountdown := options.batchSize;
      }
      partition := lastPartition;
      lastPartition := lastPartition + 1;
      if lastPartition >= options.numPartitions {
        lastPartition := 0;
      }
    }

    /** _queue_thread; `register` asks for the batch callback. */
    method Queue(data: nat, hash: nat) returns (register: bool)
      requires Valid()
      modifies this
      ensures Valid() && State() == S.PushTo(options, index, old(State()), data, hash)
      ensures register <==> old(numMessages) == 0
      ensures !options.keyed ==> sent[old(|sent|)].partition == S.Target(options, start, old(|sent|))
    {
      if !options.keyed {
        S.PushDistributes(options, index, State(), data, hash);
      }
      register := numMessages == 0;
      var msg := Msg(index, count, data);
      var partition := GetPartitionIndex(hash);
      batchByPartition := batchByPartition[partition := batchByPartition[partition] + [msg]];
      numMessages, count := numMessages + 1, count + 1;
      sent := sent + [S.Sent(msg, hash, partition)];
    }

    /** One turn of the loop in _flush_batch. */
    method HandOver(partition: LogSchedulerPartition, p: nat)
      requires p < |batchByPartition| && partition.Valid()
      modifies this`batchByPartition, partition
      ensures partition.Valid() && partition.added == old(partition.added) + old(batchByPartition[p])
      ensures batchByPartition == old(batchByPartition)[p := []]
    {
      if batchByPartition[p] != [] {
        var batch := batchByPartition[p];
        batchByPartition := batchByPartition[p := []];
        var trigger := partition.AddBatch(batch);
        if trigger {
          partition.SubmitContinuation();
        }
      }
    }

    /** _flush_batch: every non-empty list becomes one batch of its partition. */
    method FlushBatch(partitions: seq<LogSchedulerPartition>)
      requires Valid() && |partitions| == options.numPartitions
      requires forall p, q :: 0 <= p < q < |partitions| ==> partitions[p] != partitions[q]
      requires forall p :: 0 <= p < |partitions| ==> partitions[p].Valid()
      modifies this`batchByPartition, this`numMessages, partitions
      ensures Valid() && numMessages == 0
      ensures forall p :: 0 <= p < |partitions| ==> partitions[p].Valid() && batchByPartition[p] == []
      ensures forall p :: 0 <= p < |partitions| ==> partitions[p].added == old(partitions[p].added) + old(batchByPartition[p])
    {
      var p := 0;
      while p < |partitions|
        invariant 0 <= p <= |partitions| == |batchByPartition|
        invariant forall q :: 0 <= q < |partitions| ==> partitions[q].Valid()
        invariant forall q :: 0 <= q < p ==> batchByPartition[q] == []
        invariant forall q :: p <= q < |partitions| ==>
                    batchByPartition[q] == old(batchByPartition[q]) && partitions[q].added == old(partitions[q].added)
        invariant forall q :: 0 <= q < p ==> partitions[q].added == old(partitions[q].added) + old(batchByPartition[q])
      {
        HandOver(partitions[p], p);
        p := p + 1;
      }
      numMessages := 0;
    }
  }
}
