/** A graph wired like a log expression runs the meaning of that expression. */
module WiringRuns {
  import opened Wrappers
  import opened LogPipe
  import opened LogExpr
  import opened ActionLaws
  import opened LogPathRun
  import opened PipeRuns
  import opened Wiring

  // ---------------------------------------------------------------------
  // Initialization
  // ---------------------------------------------------------------------

  lemma InitAt(p: seq<Pipe>, n: nat, id: nat)
    requires id < |p|
    ensures var g := InitPipes(p, n);
            && |g| == |p| && g[id].next == p[id].next
            && (!p[id].kind.Multiplexer? ==> g[id].kind == p[id].kind)
            && (p[id].kind.Multiplexer? ==>
                  g[id].kind.Multiplexer? && g[id].kind.hops == p[id].kind.hops
                  && g[id].kind.deliveryPropagation == p[id].kind.deliveryPropagation)
            && g[id].flags.hardFlowControl == p[id].flags.hardFlowControl
            && g[id].flags.junctionEnd == p[id].flags.junctionEnd
            && g[id].flags.conditionalMidpoint == p[id].flags.conditionalMidpoint
  {
    ChainFlagsAreBranchFlags(p, Some(id), n);
  }

  lemma {:induction false} ChainFlagsAreBranchFlags(p: seq<Pipe>, at: Option<nat>, n: nat)
    ensures ChainFlags(p, at, n) == ChainFlags(p, at, n).Branch()
    decreases n
  {
    if n > 0 && at.Some? && at.value < |p| {
      ChainFlagsAreBranchFlags(p, p[at.value].next, n - 1);
    }
  }

  /** After initialization a hop carries exactly the branch flags of its chain. */
  lemma InitHop(p: seq<Pipe>, n: nat, fork: nat, hop: nat)
    requires n > 0 && fork < |p| && p[fork].kind.Multiplexer? && hop in p[fork].kind.hops
    ensures FlagsAt(InitPipes(p, n), hop).Branch() == ChainFlags(p, Some(hop), n)
  {
    ChainFlagsAreBranchFlags(p, Some(hop), n);
    assert IsHop(p, hop);
  }

  lemma InitFallback(p: seq<Pipe>, n: nat, fork: nat)
    requires n > 0 && fork < |p| && p[fork].kind.Multiplexer? && !p[fork].kind.fallbackExists
    ensures var g := InitPipes(p, n);
            g[fork].kind.Multiplexer? && FallbackKnown(g, p[fork].kind.hops, g[fork].kind.fallbackExists)
  {
    var g := InitPipes(p, n);
    var hops := p[fork].kind.hops;
    forall j | 0 <= j < |hops|
      ensures FlagsAt(g, hops[j]).branchFallback == ChainFlags(p, Some(hops[j]), n).branchFallback
    {
      InitHop(p, n, fork, hops[j]);
    }
    if SomeFallback(p, hops, n) {
      var h :| h in hops && h < |p| && ChainFlags(p, Some(h), n).branchFallback;
      var j :| 0 <= j < |hops| && hops[j] == h;
      assert FlagsAt(g, hops[j]).branchFallback;
    }
    if exists j :: 0 <= j < |hops| && FlagsAt(g, hops[j]).branchFallback {
      var j :| 0 <= j < |hops| && FlagsAt(g, hops[j]).branchFallback;
      assert hops[j] in hops && hops[j] < |p|;
    }
  }

  // ---------------------------------------------------------------------
  // Continued meanings
  // ---------------------------------------------------------------------

  function Then(cfg: Config, limit: nat, node: Node, flow: bool, k: Meaningful): Meaningful {
    i => Bind(Meaning(cfg, limit, node, OrFlow(i, flow)), k)
  }

  function ThenList(cfg: Config, limit: nat, nodes: Nodes, flow: bool, k: Meaningful): Meaningful {
    i => Bind(MeaningOfList(cfg, limit, nodes, OrFlow(i, flow)), k)
  }

  function Lifted(k: Meaningful): Meaningful { i => Lift(k(i)) }

  function ThenBranches(cfg: Config, limit: nat, branches: Nodes, k: Meaningful): seq<Meaningful> {
    if branches.Nil? then []
    else [Then(cfg, limit, branches.node, false, k)] + ThenBranches(cfg, limit, branches.next, k)
  }

  lemma RunsCongruent(b: Behaviour, g: seq<Pipe>, at: Option<nat>, k: Meaningful, k': Meaningful, nesting: nat,
                      depth: nat, depth': nat)
    requires Runs(b, g, at, k, nesting, depth) && depth <= depth'
    requires forall i :: k(i) == k'(i)
    ensures Runs(b, g, at, k', nesting, depth')
  {
    forall m: LogMessage, o: LogPathOptions, st: RunState, d: nat
      | d >= depth' && Nesting(o) >= nesting && Scoped(o, |st.cells|)
      ensures Forward(b, g, at, m, o, st, d) == Perform(k'(Item(m, o.flowControlRequested)), o, st)
    {
      assert Forward(b, g, at, m, o, st, d) == Perform(k(Item(m, o.flowControlRequested)), o, st);
    }
  }

  lemma ThenListCons(cfg: Config, limit: nat, nodes: Nodes, flow: bool, k: Meaningful, i: Item)
    requires nodes.Cons?
    ensures ThenList(cfg, limit, nodes, flow, k)(i)
            == Then(cfg, limit, nodes.node, flow, ThenList(cfg, limit, nodes.next, false, k))(i)
  {
    var rest := nodes.next;
    var f := j => MeaningOfList(cfg, limit, rest, j);
    var fk := ThenList(cfg, limit, rest, false, k);
    forall j ensures fk(j) == Bind(f(j), k) {
      assert OrFlow(j, false) == j;
    }
    var a := Meaning(cfg, limit, nodes.node, OrFlow(i, flow));
    BindAssoc(a, f, k, fk);
    assert MeaningOfList(cfg, limit, nodes, OrFlow(i, flow)) == Bind(a, f) by {
      BindCongruent(a, j => MeaningOfList(cfg, limit, nodes.next, j), f);
    }
  }

  /** Every compiled destination below `limit` runs its definition, ending in a drop. */
  ghost predicate DestinationsRun(cfg: Config, limit: nat, p: seq<Pipe>, g: seq<Pipe>, aux: map<Key, nat>) {
    forall key :: key in aux && cfg.Rank(key) < limit ==> DestinationRuns(cfg, p, g, key, aux[key])
  }

  ghost predicate DestinationRuns(cfg: Config, p: seq<Pipe>, g: seq<Pipe>, key: Key, head: nat) {
    && key in cfg.objects
    && var cost := Cost(cfg, cfg.Rank(key), cfg.objects[key]);
       && ChainIs(p, Some(head), NO_FLAGS, cost)
       && Runs(cfg.behaviour, g, Some(head), Then(cfg, cfg.Rank(key), cfg.objects[key], false, EndOfPath), 0, cost)
  }

  // ---------------------------------------------------------------------
  // Forks
  // ---------------------------------------------------------------------

  lemma {:induction false} HopsAgree(cfg: Config, limit: nat, g: seq<Pipe>, branches: Nodes, hops: seq<nat>,
                                     k: Meaningful, i: Item)
    requires BranchFlagsAgree(g, branches, hops)
    ensures |hops| == |ThenBranches(cfg, limit, branches, Lifted(k))|
    ensures HopsAt(g, hops, ThenBranches(cfg, limit, branches, Lifted(k)), i)
            == BindHops(HopsOf(cfg, limit, branches, i), Lifted(k))
    decreases branches
  {
    if branches.Nil? {
    } else {
      var hs := ThenBranches(cfg, limit, branches, Lifted(k));
      HopsAgree(cfg, limit, g, branches.next, hops[1..], k, i);
      assert hs[1..] == ThenBranches(cfg, limit, branches.next, Lifted(k));
      var of := HopsOf(cfg, limit, branches, i);
      assert of[1..] == HopsOf(cfg, limit, branches.next, i);
      assert OrFlow(i, false) == i;
    }
  }

  predicate BranchFlagsAgree(g: seq<Pipe>, branches: Nodes, hops: seq<nat>)
    decreases branches
  {
    match branches
    case Nil => hops == []
    case Cons(n, rest) =>
      hops != [] && FlagsAt(g, hops[0]).Branch() == BranchFlags(n) && BranchFlagsAgree(g, rest, hops[1..])
  }

  lemma {:induction false} BranchFlagsOfWired(cfg: Config, limit: nat, p: seq<Pipe>, aux: map<Key, nat>, n: nat,
                                              fork: nat, branches: Nodes, hops: seq<nat>, join: nat, depth: nat)
    requires WellFormedBranches(cfg, limit, branches)
    requires WiredBranches(cfg, limit, p, aux, branches, hops, join)
    requires ChainIs(p, Some(join), NO_FLAGS, depth) && n >= depth + CostOfList(cfg, limit, branches) && n > 0
    requires fork < |p| && p[fork].kind.Multiplexer? && forall h :: h in hops ==> h in p[fork].kind.hops
    ensures BranchFlagsAgree(InitPipes(p, n), branches, hops)
    decreases branches
  {
    if branches.Nil? {
    } else {
      ChainOfWired(cfg, limit, p, aux, branches.node, Some(hops[0]), Some(join), NO_FLAGS, true, depth);
      assert hops[0] in hops;
      InitHop(p, n, fork, hops[0]);
      assert ChainFlags(p, Some(hops[0]), n) == BranchFlags(branches.node);
      BranchFlagsOfWired(cfg, limit, p, aux, n, fork, branches.next, hops[1..], join, depth);
    }
  }

  lemma JunctionMeaning(cfg: Config, limit: nat, g: seq<Pipe>, node: Node, hops: seq<nat>, k: Meaningful, i: Item)
    requires node.Junction? && node.branches.Cons? && BranchFlagsAgree(g, node.branches, hops)
    ensures |hops| == |ThenBranches(cfg, limit, node.branches, Lifted(k))|
    ensures Bind(Meaning(cfg, limit, node, i), k)
            == Fork(HopsAt(g, hops, ThenBranches(cfg, limit, node.branches, Lifted(k)), i),
                    node.jcontent != ContentDestination)
  {
    HopsAgree(cfg, limit, g, node.branches, hops, k, i);
    ForkBind(HopsOf(cfg, limit, node.branches, i), node.jcontent != ContentDestination, k, Lifted(k));
  }

  /** A multiplexer without `pipe_next` that heads a fork. */
  predicate ForkPipe(g: seq<Pipe>, id: nat, propagate: bool, flow: bool) {
    && id < |g| && g[id].kind.Multiplexer? && PlainFlags(g[id].flags) && g[id].next == None
    && g[id].flags.hardFlowControl == flow && g[id].kind.deliveryPropagation == propagate
    && FallbackKnown(g, g[id].kind.hops, g[id].kind.fallbackExists)
  }

  lemma ForkRuns(b: Behaviour, g: seq<Pipe>, id: nat, propagate: bool, flow: bool, hs: seq<Meaningful>,
                 r: Meaningful, nesting: nat, depth: nat)
    requires ForkPipe(g, id, propagate, flow)
    requires RunsAll(b, g, g[id].kind.hops, hs, nesting + 1, depth)
    requires forall i :: r(i) == Fork(HopsAt(g, g[id].kind.hops, hs, OrFlow(i, flow)), propagate)
    ensures Runs(b, g, Some(id), r, nesting, depth + 1)
  {
    RunsEnd(b, g, nesting);
    RunsCongruent(b, g, None, EndOfPath, EndOfPath, nesting, 0, depth);
    RunsMultiplexer(b, g, id, hs, EndOfPath, r, nesting, depth);
  }

  lemma JunctionRuns(cfg: Config, limit: nat, g: seq<Pipe>, id: nat, node: Node, k: Meaningful, flow: bool,
                     nesting: nat, depth: nat)
    requires node.Junction? && node.branches.Cons?
    requires ForkPipe(g, id, node.jcontent != ContentDestination, flow)
    requires BranchFlagsAgree(g, node.branches, g[id].kind.hops)
    requires RunsAll(cfg.behaviour, g, g[id].kind.hops, ThenBranches(cfg, limit, node.branches, Lifted(k)),
                     nesting + 1, depth)
    ensures Runs(cfg.behaviour, g, Some(id), Then(cfg, limit, node, flow, k), nesting, depth + 1)
  {
    var hops, hs := g[id].kind.hops, ThenBranches(cfg, limit, node.branches, Lifted(k));
    var r := Then(cfg, limit, node, flow, k);
    forall i
      ensures r(i) == Fork(HopsAt(g, hops, hs, OrFlow(i, flow)), node.jcontent != ContentDestination)
    {
      JunctionMeaning(cfg, limit, g, node, hops, k, OrFlow(i, flow));
    }
    ForkRuns(cfg.behaviour, g, id, node.jcontent != ContentDestination, flow, hs, r, nesting, depth);
  }

  function YesActions(cfg: Config, limit: nat, node: Node, i: Item): seq<Action>
    requires node.Conditional?
  {
    if node.filter.None? then Meaning(cfg, limit, node.thn, i)
    else Bind(Meaning(cfg, limit, node.filter.value, i), j => PastMidpoint(Meaning(cfg, limit, node.thn, j)))
  }

  function ThenYes(cfg: Config, limit: nat, node: Node, k: Meaningful): Meaningful
    requires node.Conditional?
  {
    i => Bind(YesActions(cfg, limit, node, i), k)
  }

  predicate ConditionalFlagsAgree(g: seq<Pipe>, node: Node, hops: seq<nat>)
    requires node.Conditional?
  {
    && |hops| == 2
    && FlagsAt(g, hops[0]).Branch() == BranchFlags(node.thn)
    && FlagsAt(g, hops[1]).Branch() == BranchFlags(node.els)
  }

  function ConditionalBranches(cfg: Config, limit: nat, node: Node, k: Meaningful): seq<Meaningful>
    requires node.Conditional?
  {
    [ThenYes(cfg, limit, node, k), Then(cfg, limit, node.els, false, k)]
  }

  lemma ConditionalMeaning(cfg: Config, limit: nat, g: seq<Pipe>, node: Node, hops: seq<nat>, k: Meaningful, i: Item)
    requires node.Conditional? && ConditionalFlagsAgree(g, node, hops)
    ensures Bind(Meaning(cfg, limit, node, i), k)
            == Fork(HopsAt(g, hops, ConditionalBranches(cfg, limit, node, Lifted(k)), i), true)
  {
    var hs := ConditionalBranches(cfg, limit, node, Lifted(k));
    var of := [HopFor(node.thn, YesActions(cfg, limit, node, i)), HopFor(node.els, Meaning(cfg, limit, node.els, i))];
    HopsAtIndex(g, hops, hs, i);
    assert OrFlow(i, false) == i;
    assert HopsAt(g, hops, hs, i) == BindHops(of, Lifted(k));
    ForkBind(of, true, k, Lifted(k));
    ConditionalIsFork(cfg, limit, node, i);
  }

  lemma ConditionalIsFork(cfg: Config, limit: nat, node: Node, i: Item)
    requires node.Conditional?
    ensures Meaning(cfg, limit, node, i)
            == Fork([HopFor(node.thn, YesActions(cfg, limit, node, i)),
                     HopFor(node.els, Meaning(cfg, limit, node.els, i))], true)
  {
    if node.filter.Some? {
      var yes := j => PastMidpoint(Meaning(cfg, limit, node.thn, j));
      BindCongruent(Meaning(cfg, limit, node.filter.value, i), yes,
                    j => PastMidpoint(Meaning(cfg, limit, node.thn, j)));
    }
  }

  lemma ConditionalRuns(cfg: Config, limit: nat, g: seq<Pipe>, id: nat, node: Node, k: Meaningful, flow: bool,
                        nesting: nat, depth: nat)
    requires node.Conditional? && ForkPipe(g, id, true, flow)
    requires ConditionalFlagsAgree(g, node, g[id].kind.hops)
    requires RunsAll(cfg.behaviour, g, g[id].kind.hops, ConditionalBranches(cfg, limit, node, Lifted(k)),
                     nesting + 1, depth)
    ensures Runs(cfg.behaviour, g, Some(id), Then(cfg, limit, node, flow, k), nesting, depth + 1)
  {
    var hops, hs := g[id].kind.hops, ConditionalBranches(cfg, limit, node, Lifted(k));
    var r := Then(cfg, limit, node, flow, k);
    forall i
      ensures r(i) == Fork(HopsAt(g, hops, hs, OrFlow(i, flow)), true)
    {
      ConditionalMeaning(cfg, limit, g, node, hops, k, OrFlow(i, flow));
    }
    ForkRuns(cfg.behaviour, g, id, true, flow, hs, r, nesting, depth);
  }
}
