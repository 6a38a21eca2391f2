/**
 All sources of a driver with their shared pool: credits are conserved in every
 run, and no assertion fails in the runs described by `Careful`.
 */
module FlowControlRuns {
  import opened FlowControl

  datatype Net = Net(pool: Pool, sources: seq<Source>)

  datatype Step =
    | Open(init: nat)
    | PostAt(at: nat)
    | BeginAckAt(at: nat, count: nat, lastSuspended: bool)
    | BookAckAt(at: nat, half: nat)
    | EndAckAt(at: nat, half: nat)
    | SuspendAt(at: nat)
    | ReallocAt(at: nat)
    | CloseAt(at: nat)
    | SetBalanced(balanced: nat)

  predicate AtRest(s: Source) { s.inFlight == 0 && s.halves == [] && s.turn.Idle? }

  /** A source posts only when it is free to send and not being rebalanced, which its
      thread does; it is closed when all its messages are acknowledged. */
  predicate Enabled(n: Net, step: Step) {
    match step
    case Open(_) => true
    case PostAt(i) => i < |n.sources| && n.sources[i].turn.Idle? && FreeToSend(n.sources[i])
    case BeginAckAt(i, count, _) => i < |n.sources| && count <= n.sources[i].inFlight
    case BookAckAt(i, half) => i < |n.sources| && half < |n.sources[i].halves|
    case EndAckAt(i, half) =>
      i < |n.sources| && half < |n.sources[i].halves| && n.sources[i].halves[half].reclaimed == 0
    case SuspendAt(i) => i < |n.sources|
    case ReallocAt(i) => i < |n.sources|
    case CloseAt(i) => i < |n.sources| && AtRest(n.sources[i])
    case SetBalanced(_) => true
  }

  function Update(n: Net, i: nat, s: Source): Net
    requires i < |n.sources|
  {
    n.(sources := n.sources[i := s])
  }

  function Next(n: Net, step: Step): Net
    requires Enabled(n, step)
  {
    match step
    case Open(init) => n.(sources := n.sources + [NewSource(init)])
    case PostAt(i) => Update(n, i, Post(n.sources[i]))
    case BeginAckAt(i, count, last) => Update(n, i, BeginAck(n.sources[i], count, last))
    case BookAckAt(i, half) => Update(n, i, BookAck(n.sources[i], half))
    case EndAckAt(i, half) => Update(n, i, EndAck(n.sources[i], half))
    case SuspendAt(i) => Update(n, i, n.sources[i].(suspended := true))
    case ReallocAt(i) =>
      var r := Advance(n.sources[i], n.pool);
      Update(n.(pool := r.pool), i, r.source)
    case CloseAt(i) =>
      Net(Close(n.sources[i], n.pool).pool, n.sources[..i] + n.sources[i + 1..])
    case SetBalanced(b) => n.(pool := n.pool.(balanced := b))
  }

  /** No assertion fails in this step. */
  predicate StepOk(n: Net, step: Step)
    requires Enabled(n, step)
  {
    match step
    case PostAt(i) => n.sources[i].window > 0
    case ReallocAt(i) => Advance(n.sources[i], n.pool).ok
    case CloseAt(i) => Close(n.sources[i], n.pool).ok
    case _ => true
  }

  /** Steps that are not enabled do not happen. */
  function Then(n: Net, step: Step): Net { if Enabled(n, step) then Next(n, step) else n }

  function Run(n: Net, steps: seq<Step>): Net
    decreases |steps|
  {
    if steps == [] then n else Run(Then(n, steps[0]), steps[1..])
  }

  // ---------------------------------------------------------------------
  // Conservation
  // ---------------------------------------------------------------------

  function Dynamic(sources: seq<Source>): int {
    if sources == [] then 0 else (sources[0].full - sources[0].init) + Dynamic(sources[1..])
  }

  /** Every source accounts for its credits, and the pool for the dynamic ones. */
  ghost predicate Conserved(n: Net) {
    && (forall i :: 0 <= i < |n.sources| ==> Accounted(n.sources[i]))
    && n.pool.free + Dynamic(n.sources) == n.pool.size
  }

  /** Nothing is overdrawn, and what is being reclaimed is covered. */
  ghost predicate Sound(n: Net) {
    && (forall i :: 0 <= i < |n.sources| ==> Credited(n.sources[i]) && Covered(n.sources[i]))
    && n.pool.free >= 0
  }

  lemma {:induction false} DynamicConcat(a: seq<Source>, b: seq<Source>)
    ensures Dynamic(a + b) == Dynamic(a) + Dynamic(b)
  {
    if a == [] {
      assert a + b == b;
    } else {
      DynamicConcat(a[1..], b);
      assert (a + b)[1..] == a[1..] + b;
    }
  }

  lemma DynamicSplit(sources: seq<Source>, i: nat)
    requires i < |sources|
    ensures Dynamic(sources) == Dynamic(sources[..i]) + (sources[i].full - sources[i].init) + Dynamic(sources[i + 1..])
  {
    assert sources == sources[..i] + sources[i..];
    DynamicConcat(sources[..i], sources[i..]);
    assert sources[i..][1..] == sources[i + 1..];
  }

  lemma DynamicUpdate(sources: seq<Source>, i: nat, s: Source)
    requires i < |sources|
    ensures Dynamic(sources[i := s]) - (s.full - s.init) == Dynamic(sources) - (sources[i].full - sources[i].init)
  {
    DynamicSplit(sources, i);
    DynamicSplit(sources[i := s], i);
    assert sources[i := s][..i] == sources[..i] && sources[i := s][i + 1..] == sources[i + 1..];
  }

  lemma {:induction false} DynamicCovers(sources: seq<Source>)
    requires forall i :: 0 <= i < |sources| ==> sources[i].full - sources[i].init >= 0
    ensures Dynamic(sources) >= 0
  {
    if sources == [] {
    } else {
      DynamicCovers(sources[1..]);
    }
  }

  /** One source changes together with the pool. */
  lemma UpdateConserves(n: Net, pool: Pool, i: nat, s: Source)
    requires Conserved(n) && i < |n.sources| && Accounted(s)
    requires pool.size == n.pool.size && Owned(s, pool) == Owned(n.sources[i], n.pool)
    ensures Conserved(Net(pool, n.sources[i := s]))
  {
    DynamicUpdate(n.sources, i, s);
  }

  lemma OpenConserves(n: Net, init: nat)
    requires Conserved(n)
    ensures Conserved(Next(n, Open(init)))
  {
    DynamicConcat(n.sources, [NewSource(init)]);
  }

  lemma CloseConserves(n: Net, i: nat)
    requires Conserved(n) && Enabled(n, CloseAt(i))
    ensures Conserved(Next(n, CloseAt(i)))
  {
    DynamicSplit(n.sources, i);
    DynamicConcat(n.sources[..i], n.sources[i + 1..]);
  }

  /** Whatever the state: no step loses or invents a credit. */
  lemma StepConserves(n: Net, step: Step)
    requires Conserved(n) && Enabled(n, step)
    ensures Conserved(Next(n, step))
  {
    match step
    case Open(init) => OpenConserves(n, init);
    case PostAt(i) => UpdateConserves(n, n.pool, i, Post(n.sources[i]));
    case BeginAckAt(i, count, last) =>
      BeginAckKeeps(n.sources[i], count, last);
      UpdateConserves(n, n.pool, i, BeginAck(n.sources[i], count, last));
    case BookAckAt(i, half) =>
      BookAckKeeps(n.sources[i], half);
      UpdateConserves(n, n.pool, i, BookAck(n.sources[i], half));
    case EndAckAt(i, half) =>
      EndAckKeeps(n.sources[i], half);
      UpdateConserves(n, n.pool, i, EndAck(n.sources[i], half));
    case SuspendAt(i) => UpdateConserves(n, n.pool, i, n.sources[i].(suspended := true));
    case ReallocAt(i) =>
      AdvanceAccounts(n.sources[i], n.pool);
      UpdateConserves(n, Advance(n.sources[i], n.pool).pool, i, Advance(n.sources[i], n.pool).source);
    case CloseAt(i) => CloseConserves(n, i);
    case SetBalanced(_) =>
  }

  lemma {:induction false} RunFromConserves(n: Net, steps: seq<Step>)
    requires Conserved(n)
    ensures Conserved(Run(n, steps))
    decreases |steps|
  {
    if steps == [] {
    } else {
      if Enabled(n, steps[0]) {
        StepConserves(n, steps[0]);
      }
      RunFromConserves(Then(n, steps[0]), steps[1..]);
    }
  }

  // ---------------------------------------------------------------------
  // Safety
  // ---------------------------------------------------------------------

  /** What a run has to avoid: asking credits back while more was reclaimed earlier, and
      not yet collected, than the shrunken window covers; and closing a source that has
      more than its initial window booked as reclaimed. */
  predicate CarefulStep(n: Net, step: Step)
    requires Enabled(n, step)
  {
    match step
    case ReallocAt(i) => n.sources[i].turn.Shrinking? ==> Harmless(n.sources[i])
    case CloseAt(i) => n.sources[i].pending <= n.sources[i].init
    case _ => true
  }

  predicate Careful(n: Net, steps: seq<Step>)
    decreases |steps|
  {
    steps == [] || if Enabled(n, steps[0])
                   then CarefulStep(n, steps[0]) && Careful(Next(n, steps[0]), steps[1..])
                   else Careful(n, steps[1..])
  }

  predicate AllOk(n: Net, steps: seq<Step>)
    decreases |steps|
  {
    steps == [] || if Enabled(n, steps[0])
                   then StepOk(n, steps[0]) && AllOk(Next(n, steps[0]), steps[1..])
                   else AllOk(n, steps[1..])
  }

  /** What one source may give back fits into the pool. */
  lemma OwnedFits(n: Net, i: nat)
    requires Conserved(n) && Sound(n) && i < |n.sources|
    ensures Owned(n.sources[i], n.pool) <= n.pool.size
  {
    forall j | 0 <= j < |n.sources| ensures n.sources[j].full - n.sources[j].init >= 0 {
      assert Covered(n.sources[j]) && Credited(n.sources[j]);
    }
    DynamicSplit(n.sources, i);
    DynamicCovers(n.sources[..i]);
    DynamicCovers(n.sources[i + 1..]);
  }

  lemma UpdateSound(n: Net, pool: Pool, i: nat, s: Source)
    requires Sound(n) && i < |n.sources| && Credited(s) && Covered(s) && pool.free >= 0
    ensures Sound(Net(pool, n.sources[i := s]))
  {
  }

  lemma ReallocStepSound(n: Net, i: nat)
    requires Sound(n) && Enabled(n, ReallocAt(i)) && CarefulStep(n, ReallocAt(i))
    ensures Sound(Next(n, ReallocAt(i)))
  {
    var s := n.sources[i];
    AdvanceCredits(s, n.pool);
    AdvanceCoveredIff(s, n.pool);
    UpdateSound(n, Advance(s, n.pool).pool, i, Advance(s, n.pool).source);
  }

  lemma AckStepSound(n: Net, step: Step)
    requires Sound(n) && Enabled(n, step) && (step.BeginAckAt? || step.BookAckAt? || step.EndAckAt?)
    ensures Sound(Next(n, step))
  {
    match step
    case BeginAckAt(i, count, last) =>
      BeginAckKeeps(n.sources[i], count, last);
      UpdateSound(n, n.pool, i, BeginAck(n.sources[i], count, last));
    case BookAckAt(i, half) =>
      BookAckKeeps(n.sources[i], half);
      UpdateSound(n, n.pool, i, BookAck(n.sources[i], half));
    case EndAckAt(i, half) =>
      EndAckKeeps(n.sources[i], half);
      UpdateSound(n, n.pool, i, EndAck(n.sources[i], half));
  }

  lemma CloseSound(n: Net, i: nat)
    requires Sound(n) && Enabled(n, CloseAt(i))
    ensures Sound(Next(n, CloseAt(i)))
  {
    assert Credited(n.sources[i]) && Covered(n.sources[i]);
  }

  lemma StepSound(n: Net, step: Step)
    requires Sound(n) && Enabled(n, step) && CarefulStep(n, step)
    ensures Sound(Next(n, step))
  {
    match step
    case Open(init) =>
    case PostAt(i) => UpdateSound(n, n.pool, i, Post(n.sources[i]));
    case BeginAckAt(_, _, _) => AckStepSound(n, step);
    case BookAckAt(_, _) => AckStepSound(n, step);
    case EndAckAt(_, _) => AckStepSound(n, step);
    case SuspendAt(i) => UpdateSound(n, n.pool, i, n.sources[i].(suspended := true));
    case ReallocAt(i) => ReallocStepSound(n, i);
    case CloseAt(i) => CloseSound(n, i);
    case SetBalanced(_) =>
  }

  lemma StepIsOk(n: Net, step: Step)
    requires Conserved(n) && Sound(n) && Enabled(n, step) && CarefulStep(n, step)
    ensures StepOk(n, step)
  {
    match step
    case PostAt(i) => assert Credited(n.sources[i]);
    case ReallocAt(i) =>
      OwnedFits(n, i);
      AdvanceSafe(n.sources[i], n.pool);
    case CloseAt(i) =>
      OwnedFits(n, i);
      CloseOkIff(n.sources[i], n.pool);
    case _ =>
  }

  /** In a sound state, a step keeps the reclaimed window covered exactly if it is
      careful, apart from closing, which takes the source away. */
  lemma CarefulIsNeeded(n: Net, i: nat)
    requires Sound(n) && Enabled(n, ReallocAt(i))
    ensures Sound(Next(n, ReallocAt(i))) <==> CarefulStep(n, ReallocAt(i))
  {
    var s := n.sources[i];
    AdvanceCoveredIff(s, n.pool);
    if CarefulStep(n, ReallocAt(i)) {
      ReallocStepSound(n, i);
    } else {
      assert Next(n, ReallocAt(i)).sources[i] == Advance(s, n.pool).source;
    }
  }

  lemma {:induction false} CarefulRunFrom(n: Net, steps: seq<Step>)
    requires Conserved(n) && Sound(n) && Careful(n, steps)
    ensures Sound(Run(n, steps)) && AllOk(n, steps)
    decreases |steps|
  {
    if steps == [] {
    } else if Enabled(n, steps[0]) {
      StepConserves(n, steps[0]);
      StepSound(n, steps[0]);
      StepIsOk(n, steps[0]);
      CarefulRunFrom(Next(n, steps[0]), steps[1..]);
    } else {
      CarefulRunFrom(n, steps[1..]);
    }
  }

  function NewNet(poolSize: nat, balanced: nat): Net { Net(Pool(poolSize, poolSize, balanced), []) }

  /** In every run of any number of sources, careful or not: free window, messages in
      flight and credits on their way add up to the full window, and free pool and
      dynamic windows add up to the pool. */
  lemma RunConserves(poolSize: nat, balanced: nat, steps: seq<Step>)
    ensures Conserved(Run(NewNet(poolSize, balanced), steps))
  {
    RunFromConserves(NewNet(poolSize, balanced), steps);
  }

  /** In every careful run of any number of sources, acknowledged and rebalanced in any
      interleaving: nothing is overdrawn; what is reclaimed is covered by the dynamic
      window; no assertion fails; and a source at rest has at least its initial window
      free. */
  lemma CarefulRunIsSafe(poolSize: nat, balanced: nat, steps: seq<Step>)
    requires Careful(NewNet(poolSize, balanced), steps)
    ensures var n := Run(NewNet(poolSize, balanced), steps);
            && Sound(n)
            && forall i :: 0 <= i < |n.sources| && AtRest(n.sources[i]) ==> n.sources[i].window >= n.sources[i].init
    ensures AllOk(NewNet(poolSize, balanced), steps)
  {
    CarefulRunFrom(NewNet(poolSize, balanced), steps);
    var n := Run(NewNet(poolSize, balanced), steps);
    forall i | 0 <= i < |n.sources| && AtRest(n.sources[i]) ensures n.sources[i].window >= n.sources[i].init {
      IdleWindow(n.sources[i]);
    }
  }

  // ---------------------------------------------------------------------
  // Coarse runs
  // ---------------------------------------------------------------------

  /** Rebalancing starts with no acknowledgement under way and none comes in between;
      no source is closed. */
  predicate CoarseStep(n: Net, step: Step)
    requires Enabled(n, step)
  {
    match step
    case BeginAckAt(i, _, _) => n.sources[i].turn.Idle?
    case BookAckAt(i, _) => n.sources[i].turn.Idle?
    case EndAckAt(i, _) => n.sources[i].turn.Idle?
    case ReallocAt(i) => n.sources[i].turn.Idle? ==> n.sources[i].halves == []
    case CloseAt(_) => false
    case _ => true
  }

  predicate Coarse(n: Net, steps: seq<Step>)
    decreases |steps|
  {
    steps == [] || if Enabled(n, steps[0])
                   then CoarseStep(n, steps[0]) && Coarse(Next(n, steps[0]), steps[1..])
                   else Coarse(n, steps[1..])
  }

  ghost predicate AllQuiet(n: Net) {
    forall i :: 0 <= i < |n.sources| && !n.sources[i].turn.Idle? ==> Quiet(n.sources[i])
  }

  lemma CoarseStepIsCareful(n: Net, step: Step)
    requires Sound(n) && AllQuiet(n) && Enabled(n, step) && CoarseStep(n, step)
    ensures CarefulStep(n, step) && AllQuiet(Next(n, step))
  {
    match step
    case ReallocAt(i) =>
      var s := n.sources[i];
      if s.turn.Shrinking? {
        QuietIsHarmless(s);
      }
      assert Quiet(s);
      assert Quiet(Advance(s, n.pool).source);
    case _ =>
  }

  lemma {:induction false} CoarseRunsFrom(n: Net, steps: seq<Step>)
    requires Sound(n) && AllQuiet(n) && Coarse(n, steps)
    ensures Careful(n, steps)
    decreases |steps|
  {
    if steps == [] {
    } else if Enabled(n, steps[0]) {
      CoarseStepIsCareful(n, steps[0]);
      StepSound(n, steps[0]);
      CoarseRunsFrom(Next(n, steps[0]), steps[1..]);
    } else {
      CoarseRunsFrom(n, steps[1..]);
    }
  }

  /** Runs whose rebalancing no acknowledgement interrupts are careful. */
  lemma CoarseIsCareful(poolSize: nat, balanced: nat, steps: seq<Step>)
    requires Coarse(NewNet(poolSize, balanced), steps)
    ensures Careful(NewNet(poolSize, balanced), steps)
  {
    CoarseRunsFrom(NewNet(poolSize, balanced), steps);
  }

  // ---------------------------------------------------------------------
  // Runs that are not careful
  // ---------------------------------------------------------------------

  lemma {:induction false} RunConcat(n: Net, a: seq<Step>, b: seq<Step>)
    ensures Run(n, a + b) == Run(Run(n, a), b)
    decreases |a|
  {
    if a == [] {
      assert a + b == b;
    } else {
      RunConcat(Then(n, a[0]), a[1..], b);
      assert (a + b)[1..] == a[1..] + b;
    }
  }

  lemma RunOne(n: Net, step: Step)
    ensures Run(n, [step]) == Then(n, step)
  {
    assert [step][1..] == [];
  }

  lemma RunThree(n: Net, a: Step, b: Step, c: Step)
    ensures Run(n, [a, b, c]) == Then(Then(Then(n, a), b), c)
  {
    assert [a, b, c] == [a] + [b] + [c];
    RunConcat(n, [a] + [b], [c]);
    RunConcat(n, [a], [b]);
    RunOne(n, a);
    RunOne(Then(n, a), b);
    RunOne(Then(Then(n, a), b), c);
  }

  /** The only source and its pool. */
  function Alone(pool: Pool, s: Source): Net { Net(pool, [s]) }

  lemma UpdateAlone(pool: Pool, s: Source, t: Source)
    ensures Update(Alone(pool, s), 0, t) == Alone(pool, t)
  {
  }

  /** A number of steps of the rebalancing with nobody in between. */
  function Advances(k: nat): seq<Step> { if k == 0 then [] else [ReallocAt(0)] + Advances(k - 1) }

  function Iterate(s: Source, pool: Pool, k: nat): Result
    decreases k
  {
    if k == 0 then Result(s, pool, true)
    else
      var r := Advance(s, pool);
      Iterate(r.source, r.pool, k - 1)
  }

  lemma {:induction false} AdvancesRun(pool: Pool, s: Source, k: nat)
    ensures Run(Alone(pool, s), Advances(k)) == Alone(Iterate(s, pool, k).pool, Iterate(s, pool, k).source)
    decreases k
  {
    if k == 0 {
    } else {
      var r := Advance(s, pool);
      UpdateAlone(r.pool, s, r.source);
      RunConcat(Alone(pool, s), [ReallocAt(0)], Advances(k - 1));
      RunOne(Alone(pool, s), ReallocAt(0));
      AdvancesRun(r.pool, r.source, k - 1);
    }
  }

  /** A new source takes its share of the pool. */
  lemma TakesAll(size: nat)
    requires size > 0
    ensures Iterate(NewSource(1), Pool(size, size, size), 4)
         == Result(Source(1, 1 + size, 1 + size, false, 0, 0, 0, [], Idle, 0), Pool(size, 0, size), true)
  {
    var s, pool := NewSource(1), Pool(size, size, size);
    assert Advance(s, pool).source == s.(turn := Collected(0));
    assert Advance(s.(turn := Collected(0)), pool).source == s.(turn := Balancing);
    var t := s.(full := 1 + size, turn := Growing(size));
    assert Advance(s.(turn := Balancing), pool) == Result(t, Pool(size, 0, size), true);
    assert Iterate(s, pool, 4) == Iterate(s.(turn := Balancing), pool, 2);
  }

  /** With no free window and nothing being reclaimed, the whole excess is asked back. */
  lemma AsksBack(s: Source, pool: Pool)
    requires s.turn == Collected(0) && s.toReclaim == 0 && s.window == 0 && s.full - s.init > pool.balanced
    ensures Iterate(s, pool, 4) == Result(s.(toReclaim := s.full - s.init - pool.balanced, turn := Idle), pool, true)
  {
    var dec := s.full - s.init - pool.balanced;
    assert Advance(s, pool) == Result(s.(turn := Balancing), pool, true);
    assert Advance(s.(turn := Balancing), pool) == Result(s.(turn := Shrinking(dec, 0)), pool, true);
    var t := s.(toReclaim := dec, turn := Cutting(0));
    assert Advance(s.(turn := Shrinking(dec, 0)), pool).source == t;
    assert Iterate(s, pool, 4) == Iterate(s.(turn := Shrinking(dec, 0)), pool, 2);
    assert Advance(t, pool).source == t.(turn := Idle) && Advance(t, pool).pool == pool;
  }

  lemma AsksBackFromIdle(s: Source, pool: Pool)
    requires s.turn == Idle && s.pending == 0
    requires s.toReclaim == 0 && s.window == 0 && s.full - s.init > pool.balanced
    ensures Iterate(s, pool, 5) == Result(s.(toReclaim := s.full - s.init - pool.balanced), pool, true)
  {
    assert Advance(s, pool) == Result(s.(turn := Collected(0)), pool, true);
    AsksBack(s.(turn := Collected(0)), pool);
  }

  /** An acknowledgement of one message, all of it reclaimed. */
  const ACK := [BeginAckAt(0, 1, false), BookAckAt(0, 0), EndAckAt(0, 0)]

  lemma AckRuns(pool: Pool, s: Source)
    requires s.halves == [] && s.toReclaim > 0 && s.inFlight > 0 && s.window == 0 && !s.suspended
    ensures Run(Alone(pool, s), ACK)
         == Alone(pool, s.(toReclaim := s.toReclaim - 1, pending := s.pending + 1, inFlight := s.inFlight - 1,
                           wakeups := s.wakeups + 1))
  {
    RunThree(Alone(pool, s), BeginAckAt(0, 1, false), BookAckAt(0, 0), EndAckAt(0, 0));
    var begun := s.(toReclaim := s.toReclaim - 1, inFlight := s.inFlight - 1, halves := [Half(1, 0, false)]);
    assert BeginAck(s, 1, false) == begun;
    UpdateAlone(pool, s, begun);
    var booked := begun.(pending := s.pending + 1, halves := [Half(0, 0, false)]);
    assert BookAck(begun, 0) == booked;
    UpdateAlone(pool, begun, booked);
    assert booked.halves[..0] + booked.halves[1..] == [];
    UpdateAlone(pool, booked, EndAck(booked, 0));
  }

  // One source with one dynamic credit sends two messages; then the dynamic credit
  // is to be given back.

  const ASKED := Source(1, 2, 0, false, 1, 0, 2, [], Idle, 0)
  const ASK := [Open(1)] + Advances(4) + [PostAt(0), PostAt(0), SetBalanced(0)] + Advances(5)

  lemma AskedIsReached()
    ensures Run(NewNet(1, 1), ASK) == Alone(Pool(1, 0, 0), ASKED)
  {
    Opened(1);
    TakesAll(1);
    Advanced(NewNet(1, 1), [Open(1)], Pool(1, 1, 1), NewSource(1), 4);
    PostsTwo(NewNet(1, 1), [Open(1)] + Advances(4));
    AsksBackFromIdle(Source(1, 2, 0, false, 0, 0, 2, [], Idle, 0), Pool(1, 0, 0));
    Advanced(NewNet(1, 1), [Open(1)] + Advances(4) + [PostAt(0), PostAt(0), SetBalanced(0)],
             Pool(1, 0, 0), Source(1, 2, 0, false, 0, 0, 2, [], Idle, 0), 5);
  }

  lemma Opened(size: nat)
    ensures Run(NewNet(size, size), [Open(1)]) == Alone(Pool(size, size, size), NewSource(1))
  {
    RunOne(NewNet(size, size), Open(1));
    assert [] + [NewSource(1)] == [NewSource(1)];
  }

  lemma Advanced(n: Net, before: seq<Step>, pool: Pool, s: Source, k: nat)
    requires Run(n, before) == Alone(pool, s)
    ensures Run(n, before + Advances(k)) == Alone(Iterate(s, pool, k).pool, Iterate(s, pool, k).source)
  {
    RunConcat(n, before, Advances(k));
    AdvancesRun(pool, s, k);
  }

  lemma PostsTwo(n: Net, before: seq<Step>)
    requires Run(n, before) == Alone(Pool(1, 0, 1), Source(1, 2, 2, false, 0, 0, 0, [], Idle, 0))
    ensures Run(n, before + [PostAt(0), PostAt(0), SetBalanced(0)])
         == Alone(Pool(1, 0, 0), Source(1, 2, 0, false, 0, 0, 2, [], Idle, 0))
  {
    var m := Run(n, before);
    RunConcat(n, before, [PostAt(0), PostAt(0), SetBalanced(0)]);
    RunThree(m, PostAt(0), PostAt(0), SetBalanced(0));
    var once := Source(1, 2, 1, false, 0, 0, 1, [], Idle, 0);
    UpdateAlone(m.pool, m.sources[0], once);
    UpdateAlone(m.pool, once, Source(1, 2, 0, false, 0, 0, 2, [], Idle, 0));
  }

  /** The credit has been acknowledged and booked, and is asked back once more. */
  const TWICE := Source(1, 2, 0, false, 1, 1, 1, [], Idle, 1)

  /** The acknowledgement falls between the two reads of the rebalancing. */
  const BETWEEN_READS := [ReallocAt(0)] + ACK + Advances(4)

  lemma AckedAfterCollect()
    ensures Run(Alone(Pool(1, 0, 0), ASKED), [ReallocAt(0)] + ACK)
         == Alone(Pool(1, 0, 0), TWICE.(toReclaim := 0, turn := Collected(0)))
  {
    var n, collected := Alone(Pool(1, 0, 0), ASKED), ASKED.(turn := Collected(0));
    RunOne(n, ReallocAt(0));
    UpdateAlone(n.pool, ASKED, collected);
    RunConcat(n, [ReallocAt(0)], ACK);
    AckRuns(n.pool, collected);
  }

  lemma AskedBetweenReads()
    ensures Run(Alone(Pool(1, 0, 0), ASKED), BETWEEN_READS) == Alone(Pool(1, 0, 0), TWICE)
  {
    AckedAfterCollect();
    AskedBackAfter(Alone(Pool(1, 0, 0), ASKED), [ReallocAt(0)] + ACK, Pool(1, 0, 0),
                   TWICE.(toReclaim := 0, turn := Collected(0)));
  }

  lemma AskedBackAfter(n: Net, before: seq<Step>, pool: Pool, s: Source)
    requires Run(n, before) == Alone(pool, s)
    requires s.turn == Collected(0) && s.toReclaim == 0 && s.window == 0 && s.full - s.init > pool.balanced
    ensures Run(n, before + Advances(4))
         == Alone(pool, s.(toReclaim := s.full - s.init - pool.balanced, turn := Idle))
  {
    AsksBack(s, pool);
    Advanced(n, before, pool, s, 4);
  }

  /** The rebalancing falls between the two parts of an acknowledgement. */
  const BETWEEN_HALVES := [BeginAckAt(0, 1, false)] + Advances(5) + [BookAckAt(0, 0), EndAckAt(0, 0), SetBalanced(0)]

  lemma AskedBetweenHalves()
    ensures Run(Alone(Pool(1, 0, 0), ASKED), BETWEEN_HALVES) == Alone(Pool(1, 0, 0), TWICE)
  {
    var pool := Pool(1, 0, 0);
    var n, begun := Alone(pool, ASKED), Source(1, 2, 0, false, 0, 0, 1, [Half(1, 0, false)], Idle, 0);
    RunOne(n, BeginAckAt(0, 1, false));
    assert BeginAck(ASKED, 1, false) == begun;
    UpdateAlone(pool, ASKED, begun);
    AsksBackFromIdle(begun, pool);
    Advanced(n, [BeginAckAt(0, 1, false)], pool, begun, 5);
    EndsAfterwards(Alone(pool, begun.(toReclaim := 1)));
    RunConcat(n, [BeginAckAt(0, 1, false)] + Advances(5), [BookAckAt(0, 0), EndAckAt(0, 0), SetBalanced(0)]);
  }

  lemma EndsAfterwards(n: Net)
    requires n == Alone(Pool(1, 0, 0), Source(1, 2, 0, false, 1, 0, 1, [Half(1, 0, false)], Idle, 0))
    ensures Run(n, [BookAckAt(0, 0), EndAckAt(0, 0), SetBalanced(0)]) == Alone(Pool(1, 0, 0), TWICE)
  {
    RunThree(n, BookAckAt(0, 0), EndAckAt(0, 0), SetBalanced(0));
    var s := n.sources[0];
    var booked := s.(pending := 1, halves := [Half(0, 0, false)]);
    assert BookAck(s, 0) == booked;
    UpdateAlone(n.pool, s, booked);
    assert booked.halves[..0] + booked.halves[1..] == [];
    UpdateAlone(n.pool, booked, EndAck(booked, 0));
  }

  /** Another acknowledgement, and the pool is to get back more than it gave. */
  lemma TwiceIsTooMuch(n: Net)
    requires n == Alone(Pool(1, 0, 0), TWICE)
    ensures var m := Run(n, ACK + [ReallocAt(0)]);
            Enabled(m, ReallocAt(0)) && !StepOk(m, ReallocAt(0))
  {
    AckRuns(n.pool, TWICE);
    RunConcat(n, ACK, [ReallocAt(0)]);
    var s := Source(1, 2, 0, false, 0, 2, 0, [], Idle, 2);
    RunOne(Alone(n.pool, s), ReallocAt(0));
    UpdateAlone(n.pool, s, Collect(s));
  }

  /** The same credit is reclaimed a second time if the window is rebalanced between the
      two parts of an acknowledgement, and also if a whole acknowledgement falls between
      the two reads of the rebalancing.  The next time the pool would get back more than
      it gave. */
  lemma ReclaimedTwice(between: seq<Step>)
    requires between == BETWEEN_HALVES || between == BETWEEN_READS
    ensures var n := Run(NewNet(1, 1), ASK + between + (ACK + [ReallocAt(0)]));
            Enabled(n, ReallocAt(0)) && !StepOk(n, ReallocAt(0))
  {
    AskedIsReached();
    AskedBetweenReads();
    AskedBetweenHalves();
    RunConcat(NewNet(1, 1), ASK, between);
    RunConcat(NewNet(1, 1), ASK + between, ACK + [ReallocAt(0)]);
    TwiceIsTooMuch(Run(NewNet(1, 1), ASK + between));
  }

  // Two dynamic credits and three messages in flight; then both are asked back.

  const LENT := Source(1, 3, 0, false, 2, 0, 3, [], Idle, 0)
  const LEND := [Open(1)] + Advances(4) + [PostAt(0), PostAt(0), PostAt(0)] + [SetBalanced(0)] + Advances(5)

  lemma LentIsReached()
    ensures Run(NewNet(2, 2), LEND) == Alone(Pool(2, 0, 0), LENT)
  {
    Opened(2);
    TakesAll(2);
    Advanced(NewNet(2, 2), [Open(1)], Pool(2, 2, 2), NewSource(1), 4);
    PostsThree(NewNet(2, 2), [Open(1)] + Advances(4));
    AsksBackFromIdle(Source(1, 3, 0, false, 0, 0, 3, [], Idle, 0), Pool(2, 0, 0));
    Advanced(NewNet(2, 2), [Open(1)] + Advances(4) + [PostAt(0), PostAt(0), PostAt(0)] + [SetBalanced(0)],
             Pool(2, 0, 0), Source(1, 3, 0, false, 0, 0, 3, [], Idle, 0), 5);
  }

  lemma PostsThree(n: Net, before: seq<Step>)
    requires Run(n, before) == Alone(Pool(2, 0, 2), Source(1, 3, 3, false, 0, 0, 0, [], Idle, 0))
    ensures Run(n, before + [PostAt(0), PostAt(0), PostAt(0)] + [SetBalanced(0)])
         == Alone(Pool(2, 0, 0), Source(1, 3, 0, false, 0, 0, 3, [], Idle, 0))
  {
    var m := Run(n, before);
    RunConcat(n, before, [PostAt(0), PostAt(0), PostAt(0)]);
    RunThree(m, PostAt(0), PostAt(0), PostAt(0));
    var once, more := Source(1, 3, 2, false, 0, 0, 1, [], Idle, 0), Source(1, 3, 1, false, 0, 0, 2, [], Idle, 0);
    var last := Source(1, 3, 0, false, 0, 0, 3, [], Idle, 0);
    UpdateAlone(m.pool, m.sources[0], once);
    UpdateAlone(m.pool, once, more);
    UpdateAlone(m.pool, more, last);
    RunConcat(n, before + [PostAt(0), PostAt(0), PostAt(0)], [SetBalanced(0)]);
    RunOne(Alone(m.pool, last), SetBalanced(0));
  }

  const ACK_ALL := [BeginAckAt(0, 3, false), BookAckAt(0, 0), EndAckAt(0, 0)]

  lemma LentIsAcked()
    ensures Run(Alone(Pool(2, 0, 0), LENT), ACK_ALL)
         == Alone(Pool(2, 0, 0), Source(1, 3, 1, false, -1, 2, 0, [], Idle, 1))
  {
    var pool := Pool(2, 0, 0);
    RunThree(Alone(pool, LENT), BeginAckAt(0, 3, false), BookAckAt(0, 0), EndAckAt(0, 0));
    var begun := Source(1, 3, 0, false, -1, 0, 0, [Half(2, 1, false)], Idle, 0);
    assert BeginAck(LENT, 3, false) == begun;
    UpdateAlone(pool, LENT, begun);
    var booked := begun.(pending := 2, halves := [Half(0, 1, false)]);
    assert BookAck(begun, 0) == booked;
    UpdateAlone(pool, begun, booked);
    assert booked.halves[..0] + booked.halves[1..] == [];
    UpdateAlone(pool, booked, EndAck(booked, 0));
  }

  /** A source closed after its reclaimed window was returned, but before the pool
      collected it, has less free window than its dynamic part. */
  lemma ClosedTooEarly()
    ensures var n := Run(NewNet(2, 2), LEND + ACK_ALL);
            Enabled(n, CloseAt(0)) && !StepOk(n, CloseAt(0))
  {
    LentIsReached();
    RunConcat(NewNet(2, 2), LEND, ACK_ALL);
    LentIsAcked();
  }
}
