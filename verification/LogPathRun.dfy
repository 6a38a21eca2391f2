/**
 How the runtime executes action lists.  `Runs` says that entering the graph at
 some pipe has exactly the effect of a given meaning, at any nesting depth, for
 every message, options value and state, and without exhausting the call depth.
 */
module LogPathRun {
  import opened Wrappers
  import opened LogPipe
  import opened LogExpr

  // ---------------------------------------------------------------------
  // Executing actions
  // ---------------------------------------------------------------------

  /** The matched cell that belongs to the n-th enclosing junction branch. */
  function Target(o: LogPathOptions, level: nat): Option<nat>
    decreases level
  {
    if level == 0 then o.matched
    else if o.parent.None? then None
    else Target(o.parent.value, level - 1)
  }

  function Nesting(o: LogPathOptions): nat {
    if o.parent.None? then 0 else 1 + Nesting(o.parent.value)
  }

  /** Every cell mentioned along the chain is among the first `n`. */
  predicate Scoped(o: LogPathOptions, n: nat) {
    && (o.matched.Some? ==> o.matched.value < n)
    && (o.parent.Some? ==> Scoped(o.parent.value, n))
  }

  function Act(x: Action, o: LogPathOptions, st: RunState): RunState {
    match x
    case Deliver(d) => st.(deliveries := st.deliveries + [d], acks := st.acks + AckUnit(o))
    case Emit(_) => st
    case Mismatch(level) => Unmatch(Target(o, level), st)
  }

  function ActAll(a: seq<Action>, o: LogPathOptions, st: RunState): RunState {
    if a == [] then st else ActAll(a[1..], o, Act(a[0], o, st))
  }

  /** The whole effect of handing over a message: its actions happen, and the
      acknowledgement that came with it is either consumed or, once per delivery,
      still owed by the destination. */
  function Perform(a: seq<Action>, o: LogPathOptions, st: RunState): RunState {
    DropMessage(o, ActAll(a, o, st))
  }

  ghost predicate Runs(b: Behaviour, g: seq<Pipe>, at: Option<nat>, k: Meaningful, nesting: nat, depth: nat) {
    forall m: LogMessage, o: LogPathOptions, st: RunState, d: nat ::
      d >= depth && Nesting(o) >= nesting && Scoped(o, |st.cells|) ==>
        Forward(b, g, at, m, o, st, d) == Perform(k(Item(m, o.flowControlRequested)), o, st)
  }

  lemma RunsAt(b: Behaviour, g: seq<Pipe>, at: nat, k: Meaningful, depth: nat,
               m: LogMessage, o: LogPathOptions, st: RunState, d: nat)
    requires Runs(b, g, Some(at), k, 0, depth) && d >= depth && Scoped(o, |st.cells|)
    ensures Queue(b, g, at, m, o, st, d) == Perform(k(Item(m, o.flowControlRequested)), o, st)
  {
    assert Queue(b, g, at, m, o, st, d) == Forward(b, g, Some(at), m, o, st, d);
  }

  // ---------------------------------------------------------------------
  // Laws of execution
  // ---------------------------------------------------------------------

  lemma {:induction false} ActAllConcat(a: seq<Action>, b: seq<Action>, o: LogPathOptions, st: RunState)
    ensures ActAll(a + b, o, st) == ActAll(b, o, ActAll(a, o, st))
  {
    if a == [] {
      assert a + b == b;
    } else {
      assert (a + b)[1..] == a[1..] + b;
      ActAllConcat(a[1..], b, o, Act(a[0], o, st));
    }
  }

  lemma {:induction false} ActAllKeepsCells(a: seq<Action>, o: LogPathOptions, st: RunState)
    ensures |ActAll(a, o, st).cells| == |st.cells|
  {
    if a == [] {
    } else {
      ActAllKeepsCells(a[1..], o, Act(a[0], o, st));
    }
  }

  lemma {:induction false} ActAllAcks(a: seq<Action>, o: LogPathOptions, st: RunState, n: int)
    ensures ActAll(a, o, st.(acks := st.acks + n)) == AddAcks(ActAll(a, o, st), n)
  {
    if a == [] {
    } else {
      ActAllAcks(a[1..], o, Act(a[0], o, st), n);
    }
  }

  function AddAcks(st: RunState, n: int): RunState { st.(acks := st.acks + n) }

  lemma {:induction false} ScopedTarget(o: LogPathOptions, n: nat, level: nat)
    requires Scoped(o, n)
    ensures Target(o, level).Some? ==> Target(o, level).value < n
    decreases level
  {
    if level > 0 && o.parent.Some? {
      ScopedTarget(o.parent.value, n, level - 1);
    }
  }

  lemma {:induction false} ScopedGrows(o: LogPathOptions, n: nat, n': nat)
    requires Scoped(o, n) && n <= n'
    ensures Scoped(o, n')
    decreases o
  {
    if o.parent.Some? {
      ScopedGrows(o.parent.value, n, n');
    }
  }

  /** The options inside a branch: own cell on top, the enclosing options below. */
  ghost predicate Inside(lo: LogPathOptions, cell: nat, o: LogPathOptions) {
    && lo.matched == Some(cell) && lo.parent == Some(o) && lo.ackNeeded == o.ackNeeded
  }

  function WithCell(st: RunState, v: bool): RunState { st.(cells := st.cells + [v]) }

  lemma ActInside(x: Action, lo: LogPathOptions, o: LogPathOptions, st: RunState, v: bool)
    requires Inside(lo, |st.cells|, o) && Scoped(o, |st.cells|)
    ensures Act(x, lo, WithCell(st, v)) == WithCell(ActAll(LowerOne(x), o, st), v && x != Mismatch(0))
  {
    if x.Mismatch? && x.level > 0 {
      ScopedTarget(o, |st.cells|, x.level - 1);
      assert Target(lo, x.level) == Target(o, x.level - 1);
    }
  }

  /** Actions performed inside a branch act on its own cell exactly when they are
      mismatches of level 0; everything else is what the enclosing path sees. */
  lemma {:induction false} ActAllInside(a: seq<Action>, lo: LogPathOptions, o: LogPathOptions, st: RunState, v: bool)
    requires Inside(lo, |st.cells|, o) && Scoped(o, |st.cells|)
    ensures ActAll(a, lo, WithCell(st, v)) == WithCell(ActAll(Lower(a), o, st), v && Matches(a))
  {
    if a == [] {
    } else {
      ActInside(a[0], lo, o, st, v);
      var st' := ActAll(LowerOne(a[0]), o, st);
      ActAllKeepsCells(LowerOne(a[0]), o, st);
      ActAllInside(a[1..], lo, o, st', v && a[0] != Mismatch(0));
      ActAllConcat(LowerOne(a[0]), Lower(a[1..]), o, st);
      assert Matches(a) == (a[0] != Mismatch(0) && Matches(a[1..]));
    }
  }

  lemma {:induction false} ActAllLifted(a: seq<Action>, lo: LogPathOptions, o: LogPathOptions, st: RunState)
    requires lo.parent.Some? && lo.ackNeeded == o.ackNeeded
    requires o.matched == lo.parent.value.matched && o.parent == lo.parent.value.parent
    ensures ActAll(Lift(a), lo, st) == ActAll(a, o, st)
  {
    if a == [] {
    } else {
      if a[0].Mismatch? {
        SameTargets(o, lo.parent.value, a[0].level);
        assert Target(lo, a[0].level + 1) == Target(lo.parent.value, a[0].level);
      }
      assert Lift(a)[0] == LiftOne(a[0]) && Lift(a)[1..] == Lift(a[1..]);
      assert Act(LiftOne(a[0]), lo, st) == Act(a[0], o, st);
      ActAllLifted(a[1..], lo, o, Act(a[0], o, st));
    }
  }

  lemma SameTargets(o: LogPathOptions, o': LogPathOptions, level: nat)
    requires o.matched == o'.matched && o.parent == o'.parent
    ensures Target(o, level) == Target(o', level)
  {
  }

  lemma {:induction false} ActAllSameOptions(a: seq<Action>, o: LogPathOptions, o': LogPathOptions, st: RunState)
    requires o.matched == o'.matched && o.parent == o'.parent && o.ackNeeded == o'.ackNeeded
    ensures ActAll(a, o, st) == ActAll(a, o', st)
  {
    if a == [] {
    } else {
      if a[0].Mismatch? {
        SameTargets(o, o', a[0].level);
      }
      ActAllSameOptions(a[1..], o, o', Act(a[0], o, st));
    }
  }

  lemma {:induction false} ActAllPastMidpoint(a: seq<Action>, lo: LogPathOptions, st: RunState)
    requires lo.parent.Some?
    ensures ActAll(PastMidpoint(a), lo, st) == ActAll(a, PopConditional(lo), st)
  {
    if a == [] {
    } else {
      var popped := PopConditional(lo);
      if a[0].Mismatch? {
        if a[0].level == 0 {
          assert Target(lo, 1) == Target(lo.parent.value, 0);
        } else {
          assert Target(popped, a[0].level) == Target(lo, a[0].level);
        }
      }
      assert PastMidpoint(a)[0] == PastMidpointOne(a[0]) && PastMidpoint(a)[1..] == PastMidpoint(a[1..]);
      assert Act(PastMidpointOne(a[0]), lo, st) == Act(a[0], popped, st);
      ActAllPastMidpoint(a[1..], lo, Act(a[0], popped, st));
    }
  }
}
