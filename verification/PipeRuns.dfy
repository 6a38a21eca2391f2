/** Which meaning each kind of pipe runs, given what its successors run. */
module PipeRuns {
  import opened Wrappers
  import opened LogPipe
  import opened LogExpr
  import opened LogPathRun

  predicate PlainFlags(f: PipeFlags) { !f.junctionEnd && !f.conditionalMidpoint }

  lemma RunsEnd(b: Behaviour, g: seq<Pipe>, nesting: nat)
    ensures Runs(b, g, None, EndOfPath, nesting, 0)
  {
  }

  /** Entering a plain pipe changes nothing but the flow control request. */
  lemma {:induction false} NestingAndScope(o: LogPathOptions, o': LogPathOptions, n: nat)
    requires o.matched == o'.matched && o.parent == o'.parent
    ensures Nesting(o) == Nesting(o') && Scoped(o, n) == Scoped(o', n)
  {
  }

  lemma RunsElement(cfg: Config, g: seq<Pipe>, id: nat, e: nat, k: Meaningful, r: Meaningful, nesting: nat, depth: nat)
    requires id < |g| && g[id].kind == Element(e) && PlainFlags(g[id].flags)
    requires Runs(cfg.behaviour, g, g[id].next, k, nesting, depth)
    requires forall i :: r(i) == Bind(MeaningOfElement(cfg, e, OrFlow(i, g[id].flags.hardFlowControl)), k)
    ensures Runs(cfg.behaviour, g, Some(id), r, nesting, depth + 1)
  {
    var b := cfg.behaviour;
    forall m: LogMessage, o: LogPathOptions, st: RunState, d: nat
      | d >= depth + 1 && Nesting(o) >= nesting && Scoped(o, |st.cells|)
      ensures Forward(b, g, Some(id), m, o, st, d) == Perform(r(Item(m, o.flowControlRequested)), o, st)
    {
      var o' := EnterPipe(g[id].flags, o);
      NestingAndScope(o, o', |st.cells|);
      var i := Item(m, o.flowControlRequested);
      var a := MeaningOfElement(cfg, e, OrFlow(i, g[id].flags.hardFlowControl));
      assert Forward(b, g, Some(id), m, o, st, d) == Queue(b, g, id, m, o, st, d);
      match b(e, m)
      case Pass(m') =>
        var j := Item(m', o'.flowControlRequested);
        assert a == [Emit(j)];
        assert Bind(a, k) == k(j);
        assert Forward(b, g, g[id].next, m', o', st, d - 1) == Perform(k(j), o', st);
        ActAllSameOptions(k(j), o, o', st);
      case Reject =>
        assert Bind(a, k) == [Mismatch(0)];
        assert ActAll([Mismatch(0)], o, st) == Unmatch(o.matched, st);
      case Consume =>
        assert Bind(a, k) == a && a[1..] == [];
        assert ActAll(a, o, st) == Act(a[0], o, st);
    }
  }

  lemma RunsForwarder(b: Behaviour, g: seq<Pipe>, id: nat, k: Meaningful, r: Meaningful, nesting: nat, depth: nat)
    requires id < |g| && g[id].kind == Forwarder && PlainFlags(g[id].flags)
    requires Runs(b, g, g[id].next, k, nesting, depth)
    requires forall i :: r(i) == k(OrFlow(i, g[id].flags.hardFlowControl))
    ensures Runs(b, g, Some(id), r, nesting, depth + 1)
  {
    forall m: LogMessage, o: LogPathOptions, st: RunState, d: nat
      | d >= depth + 1 && Nesting(o) >= nesting && Scoped(o, |st.cells|)
      ensures Forward(b, g, Some(id), m, o, st, d) == Perform(r(Item(m, o.flowControlRequested)), o, st)
    {
      var o' := EnterPipe(g[id].flags, o);
      NestingAndScope(o, o', |st.cells|);
      assert Forward(b, g, g[id].next, m, o', st, d - 1)
          == Perform(k(Item(m, o'.flowControlRequested)), o', st);
      ActAllSameOptions(k(Item(m, o'.flowControlRequested)), o, o', st);
    }
  }

  /** The join of a junction restores the options of the enclosing path. */
  lemma RunsJoin(b: Behaviour, g: seq<Pipe>, id: nat, k: Meaningful, lifted: Meaningful, nesting: nat, depth: nat)
    requires id < |g| && g[id].kind == Forwarder
    requires g[id].flags.junctionEnd && !g[id].flags.conditionalMidpoint && !g[id].flags.hardFlowControl
    requires Runs(b, g, g[id].next, k, nesting, depth)
    requires forall i :: lifted(i) == Lift(k(i))
    ensures Runs(b, g, Some(id), lifted, nesting + 1, depth + 1)
  {
    forall m: LogMessage, lo: LogPathOptions, st: RunState, d: nat
      | d >= depth + 1 && Nesting(lo) >= nesting + 1 && Scoped(lo, |st.cells|)
      ensures Forward(b, g, Some(id), m, lo, st, d) == Perform(lifted(Item(m, lo.flowControlRequested)), lo, st)
    {
      var o := PopJunction(lo);
      NestingAndScope(o, lo.parent.value, |st.cells|);
      var i := Item(m, o.flowControlRequested);
      assert Forward(b, g, g[id].next, m, o, st, d - 1) == Perform(k(i), o, st);
      ActAllLifted(k(i), lo, o, st);
    }
  }

  /** Past the midpoint of `if (filter)` a mismatch hits the enclosing path. */
  lemma RunsMidpoint(b: Behaviour, g: seq<Pipe>, id: nat, k: Meaningful, r: Meaningful, nesting: nat, depth: nat)
    requires id < |g| && g[id].kind == Forwarder
    requires g[id].flags.conditionalMidpoint && !g[id].flags.junctionEnd && !g[id].flags.hardFlowControl
    requires nesting > 0 && Runs(b, g, g[id].next, k, nesting, depth)
    requires forall i :: r(i) == PastMidpoint(k(i))
    ensures Runs(b, g, Some(id), r, nesting, depth + 1)
  {
    forall m: LogMessage, lo: LogPathOptions, st: RunState, d: nat
      | d >= depth + 1 && Nesting(lo) >= nesting && Scoped(lo, |st.cells|)
      ensures Forward(b, g, Some(id), m, lo, st, d) == Perform(r(Item(m, lo.flowControlRequested)), lo, st)
    {
      var o := PopConditional(lo);
      var i := Item(m, lo.flowControlRequested);
      assert Nesting(o) == Nesting(lo);
      assert Scoped(lo.parent.value, |st.cells|);
      assert Scoped(o, |st.cells|);
      assert Forward(b, g, g[id].next, m, o, st, d - 1) == Perform(k(i), o, st);
      ActAllPastMidpoint(k(i), lo, st);
    }
  }

  // ---------------------------------------------------------------------
  // Multiplexers
  // ---------------------------------------------------------------------

  /** The hops of a multiplexer as the fork they run for one message. */
  function HopsAt(g: seq<Pipe>, hops: seq<nat>, hs: seq<Meaningful>, i: Item): seq<Hop>
    requires |hops| == |hs|
  {
    if hops == [] then []
    else
      [Hop(FlagsAt(g, hops[0]).branchFinal, FlagsAt(g, hops[0]).branchFallback, hs[0](i))]
      + HopsAt(g, hops[1..], hs[1..], i)
  }

  ghost predicate RunsAll(b: Behaviour, g: seq<Pipe>, hops: seq<nat>, hs: seq<Meaningful>, nesting: nat, depth: nat) {
    && |hops| == |hs|
    && forall j :: 0 <= j < |hops| ==> Runs(b, g, Some(hops[j]), hs[j], nesting, depth)
  }

  lemma HopRuns(b: Behaviour, g: seq<Pipe>, hop: nat, h: Meaningful, nesting: nat, depth: nat,
                m: LogMessage, lo: LogPathOptions, o: LogPathOptions, s: RunState, d: nat)
    requires Runs(b, g, Some(hop), h, nesting + 1, depth) && d >= depth
    requires |s.cells| > 0 && Inside(lo, |s.cells| - 1, o) && Scoped(o, |s.cells| - 1) && Nesting(o) >= nesting
    ensures var base := PopCell(|s.cells| - 1, s);
            var a := h(Item(m, lo.flowControlRequested));
            Queue(b, g, hop, m, lo, ArmHop(lo, |s.cells| - 1, s), d)
            == WithCell(ActAll(Lower(a), o, base), Matches(a))
  {
    var cell := |s.cells| - 1;
    var base := PopCell(cell, s);
    var a := h(Item(m, lo.flowControlRequested));
    var armed := ArmHop(lo, cell, s);
    var raised := AddAcks(base, AckUnit(lo));
    assert armed == WithCell(raised, true);
    ScopedGrows(o, cell, cell + 1);
    assert Queue(b, g, hop, m, lo, armed, d) == Forward(b, g, Some(hop), m, lo, armed, d);
    ActAllInside(a, lo, o, raised, true);
    ActAllAcks(Lower(a), o, base, AckUnit(lo));
  }

  lemma {:induction false} PassRuns(b: Behaviour, g: seq<Pipe>, hops: seq<nat>, hs: seq<Meaningful>, fallback: bool,
                                    nesting: nat, depth: nat, m: LogMessage, lo: LogPathOptions, o: LogPathOptions,
                                    cell: nat, s: RunState, d: nat)
    requires RunsAll(b, g, hops, hs, nesting + 1, depth) && d >= depth
    requires |s.cells| == cell + 1 && Inside(lo, cell, o) && Scoped(o, cell) && Nesting(o) >= nesting
    ensures var r := QueuePass(b, g, hops, fallback, m, lo, cell, s, d);
            var t := Try(HopsAt(g, hops, hs, Item(m, lo.flowControlRequested)), fallback);
            && |r.st.cells| == cell + 1
            && PopCell(cell, r.st) == ActAll(t.actions, o, PopCell(cell, s))
            && r.delivered == t.delivered
    decreases |hops|
  {
    if hops == [] {
    } else {
      var i := Item(m, lo.flowControlRequested);
      var at := HopsAt(g, hops, hs, i);
      assert at[1..] == HopsAt(g, hops[1..], hs[1..], i);
      if FlagsAt(g, hops[0]).branchFallback != fallback {
        PassRuns(b, g, hops[1..], hs[1..], fallback, nesting, depth, m, lo, o, cell, s, d);
      } else {
        HopRuns(b, g, hops[0], hs[0], nesting, depth, m, lo, o, s, d);
        var base := PopCell(cell, s);
        var s' := Queue(b, g, hops[0], m, lo, ArmHop(lo, cell, s), d);
        ActAllKeepsCells(Lower(hs[0](i)), o, base);
        assert PopCell(cell, s') == ActAll(Lower(hs[0](i)), o, base);
        PassRuns(b, g, hops[1..], hs[1..], fallback, nesting, depth, m, lo, o, cell, s', d);
        ActAllConcat(Lower(hs[0](i)), Try(at[1..], fallback).actions, o, base);
      }
    }
  }

  /** `fallbackExists` agrees with the flags of the hops. */
  predicate FallbackKnown(g: seq<Pipe>, hops: seq<nat>, fallbackExists: bool) {
    fallbackExists == exists j :: 0 <= j < |hops| && FlagsAt(g, hops[j]).branchFallback
  }

  lemma {:induction false} HopsAtIndex(g: seq<Pipe>, hops: seq<nat>, hs: seq<Meaningful>, i: Item)
    requires |hops| == |hs|
    ensures var at := HopsAt(g, hops, hs, i);
            |at| == |hops| && forall j :: 0 <= j < |hops| ==>
              at[j] == Hop(FlagsAt(g, hops[j]).branchFinal, FlagsAt(g, hops[j]).branchFallback, hs[j](i))
  {
    if hops == [] {
    } else {
      HopsAtIndex(g, hops[1..], hs[1..], i);
    }
  }

  lemma HasFallbackAt(g: seq<Pipe>, hops: seq<nat>, hs: seq<Meaningful>, i: Item, fallbackExists: bool)
    requires |hops| == |hs| && FallbackKnown(g, hops, fallbackExists)
    ensures HasFallback(HopsAt(g, hops, hs, i)) == fallbackExists
  {
    HopsAtIndex(g, hops, hs, i);
    var at := HopsAt(g, hops, hs, i);
    if fallbackExists {
      var j :| 0 <= j < |hops| && FlagsAt(g, hops[j]).branchFallback;
      assert at[j] in at;
    }
    if HasFallback(at) {
      var j :| 0 <= j < |at| && at[j].fallback;
      assert FlagsAt(g, hops[j]).branchFallback;
    }
  }

  lemma HopsRun(b: Behaviour, g: seq<Pipe>, hops: seq<nat>, hs: seq<Meaningful>, propagate: bool, fallbackExists: bool,
                nesting: nat, depth: nat, m: LogMessage, o: LogPathOptions, st: RunState, d: nat)
    requires RunsAll(b, g, hops, hs, nesting + 1, depth) && d >= depth
    requires FallbackKnown(g, hops, fallbackExists)
    requires Scoped(o, |st.cells|) && Nesting(o) >= nesting
    ensures QueueHops(b, g, hops, propagate, fallbackExists, m, o, st, d)
            == ActAll(Fork(HopsAt(g, hops, hs, Item(m, o.flowControlRequested)), propagate), o, st)
  {
    var cell := |st.cells|;
    var lo := PushJunction(cell, o);
    var at := HopsAt(g, hops, hs, Item(m, o.flowControlRequested));
    HasFallbackAt(g, hops, hs, Item(m, o.flowControlRequested), fallbackExists);
    var s := WithCell(st, false);
    assert PopCell(cell, s) == st;
    var regular := Try(at, false);
    var r0 := QueuePass(b, g, hops, false, m, lo, cell, s, d);
    PassRuns(b, g, hops, hs, false, nesting, depth, m, lo, o, cell, s, d);
    PassRuns(b, g, hops, hs, true, nesting, depth, m, lo, o, cell, r0.st, d);
    var extra := if HasFallback(at) && !regular.delivered then Try(at, true) else Tried([], false);
    ActAllConcat(regular.actions, extra.actions, o, st);
    var last := if propagate && !regular.delivered && !extra.delivered then [Mismatch(0)] else [];
    var mid := ActAll(regular.actions + extra.actions, o, st);
    ActAllConcat(regular.actions + extra.actions, last, o, st);
    assert last != [] ==> ActAll(last, o, mid) == Unmatch(o.matched, mid) by {
      if last != [] {
        assert last[1..] == [];
      }
    }
  }

  lemma MultiplexerPerforms(b: Behaviour, g: seq<Pipe>, id: nat, hs: seq<Meaningful>, k: Meaningful,
                            nesting: nat, depth: nat, m: LogMessage, o: LogPathOptions, st: RunState, d: nat)
    requires id < |g| && g[id].kind.Multiplexer? && PlainFlags(g[id].flags)
    requires RunsAll(b, g, g[id].kind.hops, hs, nesting + 1, depth)
    requires FallbackKnown(g, g[id].kind.hops, g[id].kind.fallbackExists)
    requires Runs(b, g, g[id].next, k, nesting, depth)
    requires d >= depth + 1 && Nesting(o) >= nesting && Scoped(o, |st.cells|)
    ensures var j := OrFlow(Item(m, o.flowControlRequested), g[id].flags.hardFlowControl);
            Queue(b, g, id, m, o, st, d)
            == Perform(Fork(HopsAt(g, g[id].kind.hops, hs, j), g[id].kind.deliveryPropagation) + k(j), o, st)
  {
    var o' := EnterPipe(g[id].flags, o);
    NestingAndScope(o, o', |st.cells|);
    var j, kind := Item(m, o'.flowControlRequested), g[id].kind;
    var fork := Fork(HopsAt(g, kind.hops, hs, j), kind.deliveryPropagation);
    HopsThenNext(b, g, id, hs, k, nesting, depth, m, o', st, d - 1);
    QueueUnfolds(b, g, id, m, o, st, d);
    ActAllSameOptions(fork + k(j), o, o', st);
  }

  lemma QueueUnfolds(b: Behaviour, g: seq<Pipe>, id: nat, m: LogMessage, o: LogPathOptions, st: RunState, d: nat)
    requires id < |g| && g[id].kind.Multiplexer? && d > 0
    ensures var o', kind := EnterPipe(g[id].flags, o), g[id].kind;
            Queue(b, g, id, m, o, st, d)
            == Forward(b, g, g[id].next, m, o',
                       QueueHops(b, g, kind.hops, kind.deliveryPropagation, kind.fallbackExists, m, o', st, d - 1), d - 1)
  {
  }

  lemma HopsThenNext(b: Behaviour, g: seq<Pipe>, id: nat, hs: seq<Meaningful>, k: Meaningful, nesting: nat, depth: nat,
                     m: LogMessage, o: LogPathOptions, st: RunState, d: nat)
    requires id < |g| && g[id].kind.Multiplexer?
    requires RunsAll(b, g, g[id].kind.hops, hs, nesting + 1, depth)
    requires FallbackKnown(g, g[id].kind.hops, g[id].kind.fallbackExists)
    requires Runs(b, g, g[id].next, k, nesting, depth)
    requires d >= depth && Nesting(o) >= nesting && Scoped(o, |st.cells|)
    ensures var j, kind := Item(m, o.flowControlRequested), g[id].kind;
            Forward(b, g, g[id].next, m, o,
                    QueueHops(b, g, kind.hops, kind.deliveryPropagation, kind.fallbackExists, m, o, st, d), d)
            == Perform(Fork(HopsAt(g, kind.hops, hs, j), kind.deliveryPropagation) + k(j), o, st)
  {
    var j, kind := Item(m, o.flowControlRequested), g[id].kind;
    HopsRun(b, g, kind.hops, hs, kind.deliveryPropagation, kind.fallbackExists, nesting, depth, m, o, st, d);
    ForkThenNext(b, g, g[id].next, k, nesting, depth, Fork(HopsAt(g, kind.hops, hs, j), kind.deliveryPropagation), m, o, st, d);
  }

  lemma ForkThenNext(b: Behaviour, g: seq<Pipe>, next: Option<nat>, k: Meaningful, nesting: nat, depth: nat,
                     fork: seq<Action>, m: LogMessage, o: LogPathOptions, st: RunState, d: nat)
    requires Runs(b, g, next, k, nesting, depth)
    requires d >= depth && Nesting(o) >= nesting && Scoped(o, |st.cells|)
    ensures var j := Item(m, o.flowControlRequested);
            Forward(b, g, next, m, o, ActAll(fork, o, st), d) == Perform(fork + k(j), o, st)
  {
    var j, s := Item(m, o.flowControlRequested), ActAll(fork, o, st);
    ActAllKeepsCells(fork, o, st);
    assert Forward(b, g, next, m, o, s, d) == Perform(k(j), o, s);
    ActAllConcat(fork, k(j), o, st);
  }

  /** A multiplexer runs the fork of its hops, then whatever its `pipe_next` runs. */
  lemma RunsMultiplexer(b: Behaviour, g: seq<Pipe>, id: nat, hs: seq<Meaningful>, k: Meaningful, r: Meaningful,
                        nesting: nat, depth: nat)
    requires id < |g| && g[id].kind.Multiplexer? && PlainFlags(g[id].flags)
    requires RunsAll(b, g, g[id].kind.hops, hs, nesting + 1, depth)
    requires FallbackKnown(g, g[id].kind.hops, g[id].kind.fallbackExists)
    requires Runs(b, g, g[id].next, k, nesting, depth)
    requires forall i :: var j := OrFlow(i, g[id].flags.hardFlowControl);
               r(i) == Fork(HopsAt(g, g[id].kind.hops, hs, j), g[id].kind.deliveryPropagation) + k(j)
    ensures Runs(b, g, Some(id), r, nesting, depth + 1)
  {
    forall m: LogMessage, o: LogPathOptions, st: RunState, d: nat
      | d >= depth + 1 && Nesting(o) >= nesting && Scoped(o, |st.cells|)
      ensures Forward(b, g, Some(id), m, o, st, d) == Perform(r(Item(m, o.flowControlRequested)), o, st)
    {
      MultiplexerPerforms(b, g, id, hs, k, nesting, depth, m, o, st, d);
    }
  }
}
