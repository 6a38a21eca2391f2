/**
 The call sites and the queue of lib/mainloop-call.c as one object: each method is
 a run of the state machine of calls with nobody in between.
 */
module MainLoopTasks {
  import opened MainLoopCall

  // ---------------------------------------------------------------------
  // The drain loop
  // ---------------------------------------------------------------------

  const TURN := [HandlerPop, HandlerRun, HandlerFinish, HandlerSignal]

  function Turns(n: nat): seq<Step> { if n == 0 then [] else TURN + Turns(n - 1) }

  /** The handler from its start to its end. */
  function HandlerSteps(n: nat): seq<Step> { [HandlerStart] + Turns(n) + [HandlerPop] }

  /** The site of an executed call. */
  function Served(f: Functions, c: Caller): Caller {
    c.(ran := c.ran + [c.call], result := f(c.call), pending := false,
       phase := if c.wait then AfterWake(c.phase) else c.phase)
  }

  /** One turn of the loop: the head of the queue is taken and served. */
  function Turn(f: Functions, s: State): State
    requires s.queue != [] && s.queue[0] < |s.callers|
  {
    var i := s.queue[0];
    s.(queue := s.queue[1..], callers := s.callers[i := Served(f, s.callers[i])])
  }

  predicate NobodyHolds(callers: seq<Caller>) {
    forall i :: 0 <= i < |callers| ==> !Holds(callers[i].phase)
  }

  predicate Distinct(queue: seq<nat>, size: nat) {
    && (forall k :: 0 <= k < |queue| ==> queue[k] < size)
    && forall k, l :: 0 <= k < l < |queue| ==> queue[k] != queue[l]
  }

  /** The handler is in its loop, and nobody else has the lock. */
  ghost predicate Draining(s: State) {
    s.handler.Looping? && NobodyHolds(s.callers) && Distinct(s.queue, |s.callers|)
  }

  lemma {:induction false} RunConcat(f: Functions, s: State, a: seq<Step>, b: seq<Step>)
    ensures Run(f, s, a + b) == Run(f, Run(f, s, a), b)
    decreases |a|
  {
    if a == [] {
      assert a + b == b;
    } else {
      assert (a + b)[1..] == a[1..] + b;
      RunConcat(f, if Enabled(s, a[0]) then Next(f, s, a[0]) else s, a[1..], b);
    }
  }

  lemma RunOne(f: Functions, s: State, step: Step)
    requires Enabled(s, step)
    ensures Run(f, s, [step]) == Next(f, s, step)
  {
    assert [step][1..] == [];
  }

  lemma RunTwo(f: Functions, s: State, a: Step, b: Step)
    requires Enabled(s, a) && Enabled(Next(f, s, a), b)
    ensures Run(f, s, [a, b]) == Next(f, Next(f, s, a), b)
  {
    assert [a, b] == [a] + [b];
    RunConcat(f, s, [a], [b]);
    RunOne(f, s, a);
    RunOne(f, Next(f, s, a), b);
  }

  /** The first two steps of a turn take a call site and call its function ... */
  lemma TurnBegins(f: Functions, s: State)
    requires Draining(s) && s.queue != []
    ensures var i := s.queue[0];
            var c := s.callers[i];
            Run(f, s, [HandlerPop, HandlerRun]) ==
            s.(queue := s.queue[1..], callers := s.callers[i := c.(ran := c.ran + [c.call])],
               handler := Finishing(i, f(c.call)))
  {
    RunTwo(f, s, HandlerPop, HandlerRun);
  }

  /** ... and the other two store the result and wake up the caller. */
  lemma TurnEnds(f: Functions, s: State, i: nat, result: int)
    requires i < |s.callers| && s.handler == Finishing(i, result) && NobodyHolds(s.callers)
    ensures var c := s.callers[i];
            Run(f, s, [HandlerFinish, HandlerSignal]) ==
            s.(callers := s.callers[i := c.(result := result, pending := false,
                                            phase := if c.wait then AfterWake(c.phase) else c.phase)],
               handler := Looping)
  {
    var c := s.callers[i];
    var t := Next(f, s, HandlerFinish);
    assert t == With(s, i, c.(result := result, pending := false)).(handler := Signalling(i, c.wait));
    assert LockFree(t);
    RunTwo(f, s, HandlerFinish, HandlerSignal);
  }

  lemma TurnRuns(f: Functions, s: State)
    requires Draining(s) && s.queue != []
    ensures Run(f, s, TURN) == Turn(f, s) && Draining(Turn(f, s))
  {
    var i, c := s.queue[0], s.callers[s.queue[0]];
    TurnBegins(f, s);
    var t := Run(f, s, [HandlerPop, HandlerRun]);
    assert NobodyHolds(t.callers);
    TurnEnds(f, t, i, f(c.call));
    assert TURN == [HandlerPop, HandlerRun] + [HandlerFinish, HandlerSignal];
    RunConcat(f, s, [HandlerPop, HandlerRun], [HandlerFinish, HandlerSignal]);
  }

  /** The sites of `served` are served, each of them once; no other caller changes. */
  ghost predicate ServedOnly(f: Functions, served: seq<nat>, before: seq<Caller>, after: seq<Caller>) {
    && |after| == |before|
    && forall i: nat :: i < |before| ==> after[i] == if i in served then Served(f, before[i]) else before[i]
  }

  lemma ServeFirst(f: Functions, first: nat, rest: seq<nat>, s: seq<Caller>, t: seq<Caller>)
    requires first < |s| && first !in rest && ServedOnly(f, rest, s[first := Served(f, s[first])], t)
    ensures ServedOnly(f, [first] + rest, s, t)
  {
    forall i: nat | i < |s| ensures t[i] == if i in [first] + rest then Served(f, s[i]) else s[i] {
      assert i in [first] + rest <==> i == first || i in rest;
    }
  }

  /** After `n` turns the first `n` queued sites are served, head first: their calls are
      executed, their results stored, their callers woken up if they asked for it. */
  lemma {:induction false} TurnsServe(f: Functions, s: State, n: nat)
    requires Draining(s) && n <= |s.queue|
    ensures var t := Run(f, s, Turns(n));
            Draining(t) && t.queue == s.queue[n..] && t.posted == s.posted && ServedOnly(f, s.queue[..n], s.callers, t.callers)
    decreases n
  {
    if n == 0 {
      assert s.queue[..0] == [];
    } else {
      TurnRuns(f, s);
      RunConcat(f, s, TURN, Turns(n - 1));
      var u := Turn(f, s);
      TurnsServe(f, u, n - 1);
      ServeRest(f, s, u, Run(f, u, Turns(n - 1)), n);
    }
  }

  lemma ServeRest(f: Functions, s: State, u: State, t: State, n: nat)
    requires Distinct(s.queue, |s.callers|) && 0 < n <= |s.queue| && u == Turn(f, s)
    requires t.queue == u.queue[n - 1..] && ServedOnly(f, u.queue[..n - 1], u.callers, t.callers)
    ensures t.queue == s.queue[n..] && ServedOnly(f, s.queue[..n], s.callers, t.callers)
  {
    var i, rest := s.queue[0], u.queue[..n - 1];
    assert u.queue == s.queue[1..];
    assert i !in rest;
    ServeFirst(f, i, rest, s.callers, t.callers);
    assert s.queue[..n] == [i] + rest && u.queue[n - 1..] == s.queue[n..];
  }

  /** What the handler does to the sites in the queue, and to no other. */
  lemma HandlerServesAll(f: Functions, s: State)
    requires s.handler.Resting? && s.posted && NobodyHolds(s.callers) && Distinct(s.queue, |s.callers|)
    ensures var t := Run(f, s, HandlerSteps(|s.queue|));
            t.queue == [] && !t.posted && t.handler.Resting? && ServedOnly(f, s.queue, s.callers, t.callers)
  {
    var n := |s.queue|;
    var u := s.(posted := false, handler := Looping);
    RunOne(f, s, HandlerStart);
    TurnsServe(f, u, n);
    assert u.queue[..n] == u.queue;
    RunConcat(f, s, [HandlerStart], Turns(n));
    RunConcat(f, s, [HandlerStart] + Turns(n), [HandlerPop]);
    RunOne(f, Run(f, u, Turns(n)), HandlerPop);
  }

  // ---------------------------------------------------------------------
  // The object
  // ---------------------------------------------------------------------

  /** main_loop_call up to its waiting loop, and what follows once it is woken up. */
  function SubmitSteps(i: nat, call: nat, wait: bool): seq<Step> {
    [Begin(i, call, wait), Lock(i)] + [Inspect(i), Fill(i)] + [Submit(i)]
  }

  /** A caller whose call site is filled in and queued. */
  function Queued(c: Caller, call: nat, wait: bool): Caller {
    Caller(if wait then LoopCall else Idle, call, wait, true, wait, call, c.result,
           c.made + [Made(call, wait)], c.ran, c.returned)
  }

  lemma SubmitBegins(f: Functions, s: State, i: nat, call: nat, wait: bool)
    requires i < |s.callers| && s.callers[i].phase.Idle? && LockFree(s)
    ensures Run(f, s, [Begin(i, call, wait), Lock(i)])
         == With(s, i, s.callers[i].(phase := InCheck, next := call, nextWait := wait))
  {
    assert LockFree(Next(f, s, Begin(i, call, wait)));
    RunTwo(f, s, Begin(i, call, wait), Lock(i));
  }

  lemma SubmitFills(f: Functions, s: State, i: nat)
    requires i < |s.callers| && s.callers[i].phase.InCheck? && !s.callers[i].pending
    ensures Run(f, s, [Inspect(i), Fill(i)]) == With(s, i, FilledIn(s.callers[i]))
  {
    RunTwo(f, s, Inspect(i), Fill(i));
  }

  lemma SubmitRuns(f: Functions, s: State, i: nat, call: nat, wait: bool)
    requires i < |s.callers| && s.callers[i].phase.Idle? && !s.callers[i].pending && LockFree(s)
    ensures Run(f, s, SubmitSteps(i, call, wait))
         == With(s, i, Queued(s.callers[i], call, wait)).(queue := [i] + s.queue, posted := true)
  {
    var begun := s.callers[i].(phase := InCheck, next := call, nextWait := wait);
    SubmitBegins(f, s, i, call, wait);
    SubmitFills(f, With(s, i, begun), i);
    RunConcat(f, s, [Begin(i, call, wait), Lock(i)], [Inspect(i), Fill(i)]);
    var u := With(s, i, FilledIn(begun));
    assert With(With(s, i, begun), i, FilledIn(begun)) == u;
    assert LockFree(u);
    RunConcat(f, s, [Begin(i, call, wait), Lock(i)] + [Inspect(i), Fill(i)], [Submit(i)]);
    RunOne(f, u, Submit(i));
    assert With(u, i, Submitted(FilledIn(begun))) == With(s, i, Queued(s.callers[i], call, wait));
  }

  class MainTasks {
    var callers: seq<Caller>
    var queue: seq<nat>
    var posted: bool
    ghost var handler: Handler

    constructor (threads: nat)
      ensures State() == NewState(threads)
    {
      callers, queue, posted, handler := seq(threads, _ => NEW_CALLER), [], false, Resting;
    }

    ghost function State(): MainLoopCall.State
      reads this
    {
      MainLoopCall.State(callers, queue, posted, handler)
    }

    /** main_loop_call up to the waiting loop: the call site goes to the head of the queue. */
    method Submit(ghost f: Functions, i: nat, call: nat, wait: bool)
      requires i < |callers| && callers[i].phase.Idle? && !callers[i].pending && LockFree(State())
      modifies this`callers, this`queue, this`posted
      ensures State() == Run(f, old(State()), SubmitSteps(i, call, wait))
      ensures queue == [i] + old(queue) && callers == old(callers)[i := Queued(old(callers[i]), call, wait)]
    {
      SubmitRuns(f, State(), i, call, wait);
      var c := callers[i].(next := call, nextWait := wait);
      c := c.(pending := true, call := call, wait := wait, made := c.made + [Made(call, wait)]);
      queue := [i] + queue;
      posted := true;
      callers := callers[i := c.(phase := if wait then LoopCall else Idle)];
    }

    /** The waiting loop of main_loop_call, once the call is no longer pending. */
    method TakeResult(ghost f: Functions, i: nat) returns (result: int)
      requires Inv(f, State()) && i < |callers| && callers[i].phase.WokenCall? && !callers[i].pending && LockFree(State())
      modifies this`callers
      ensures State() == Run(f, old(State()), [Lock(i), Look(i)])
      ensures |callers| == |old(callers)| && callers[i].phase.Idle? && result == f(old(callers[i].next))
    {
      assert CallerRight(f, State(), i);
      RunTwo(f, State(), Lock(i), Look(i));
      var c := callers[i];
      result := c.result;
      callers := callers[i := c.(phase := Idle, returned := c.returned + [Return(c.next, result)])];
    }

    /** One turn of the loop of main_loop_call_handler. */
    method ServeHead(f: Functions)
      requires queue != [] && queue[0] < |callers|
      modifies this`queue, this`callers
      ensures State() == Turn(f, old(State()))
    {
      var site := queue[0];
      queue := queue[1..];
      var c := callers[site];
      var result := f(c.call);
      c := c.(ran := c.ran + [c.call], result := result, pending := false);
      if c.wait {
        c := c.(phase := AfterWake(c.phase));
      }
      callers := callers[site := c];
    }

    /** main_loop_call_handler */
    method CallHandler(f: Functions)
      requires handler.Resting? && posted && NobodyHolds(callers) && Distinct(queue, |callers|)
      modifies this
      ensures State() == Run(f, old(State()), HandlerSteps(|old(queue)|))
      ensures queue == [] && ServedOnly(f, old(queue), old(callers), callers)
    {
      ghost var before, n := State(), 0;
      HandlerServesAll(f, before);
      posted, handler := false, Looping;
      ghost var start := State();
      RunOne(f, before, HandlerStart);
      while queue != []
        invariant n <= |start.queue| && queue == start.queue[n..] && Draining(State()) && Draining(start)
        invariant State() == Run(f, start, Turns(n))
        decreases |queue|
      {
        NextTurn(f, start, State(), n);
        ServeHead(f);
        n := n + 1;
      }
      handler := Resting;
      EndOfLoop(f, before, start, n);
    }
  }

  lemma NextTurn(f: Functions, start: State, s: State, n: nat)
    requires Draining(start) && Draining(s) && s == Run(f, start, Turns(n)) && s.queue != []
    ensures Run(f, start, Turns(n + 1)) == Turn(f, s) && Draining(Turn(f, s))
  {
    TurnRuns(f, s);
    TurnsAgain(n);
    RunConcat(f, start, Turns(n), TURN);
  }

  lemma {:induction false} TurnsAgain(n: nat)
    ensures Turns(n + 1) == Turns(n) + TURN
  {
    if n == 0 {
      assert TURN + [] == [] + TURN;
    } else {
      TurnsAgain(n - 1);
      assert TURN + (Turns(n - 1) + TURN) == TURN + Turns(n - 1) + TURN;
    }
  }

  lemma EndOfLoop(f: Functions, before: State, start: State, n: nat)
    requires Enabled(before, HandlerStart) && start == Next(f, before, HandlerStart)
    requires Run(f, start, Turns(n)).queue == [] && Run(f, start, Turns(n)).handler.Looping?
    ensures Run(f, before, HandlerSteps(n)) == Run(f, start, Turns(n)).(handler := Resting)
  {
    RunOne(f, before, HandlerStart);
    RunConcat(f, before, [HandlerStart], Turns(n));
    RunConcat(f, before, [HandlerStart] + Turns(n), [HandlerPop]);
    RunOne(f, Run(f, start, Turns(n)), HandlerPop);
  }
}
