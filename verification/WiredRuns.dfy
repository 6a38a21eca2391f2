/** The induction over log expressions: being wired implies running the meaning. */
module WiredRuns {
  import opened Wrappers
  import opened LogPipe
  import opened LogExpr
  import opened ActionLaws
  import opened LogPathRun
  import opened PipeRuns
  import opened Wiring
  import opened WiringRuns

  /** What every step of the induction knows about the whole graph: `p` is the
      compiled graph, `g` the initialized one. */
  ghost predicate Context(cfg: Config, limit: nat, p: seq<Pipe>, g: seq<Pipe>, aux: map<Key, nat>, n: nat) {
    Started(p, g, n) && DestinationsRun(cfg, limit, p, g, aux)
  }

  ghost predicate Started(p: seq<Pipe>, g: seq<Pipe>, n: nat) {
    n > 0 && g == InitPipes(p, n)
  }

  /** The continuation after an expression. */
  ghost predicate Continues(cfg: Config, p: seq<Pipe>, g: seq<Pipe>, next: Option<nat>, k: Meaningful,
                            nesting: nat, depth: nat) {
    ChainIs(p, next, NO_FLAGS, depth) && Runs(cfg.behaviour, g, next, k, nesting, depth)
  }

  lemma RunsWeaker(b: Behaviour, g: seq<Pipe>, at: Option<nat>, k: Meaningful, nesting: nat, nesting': nat,
                   depth: nat, depth': nat)
    requires Runs(b, g, at, k, nesting, depth) && nesting <= nesting' && depth <= depth'
    ensures Runs(b, g, at, k, nesting', depth')
  {
    forall m: LogMessage, o: LogPathOptions, st: RunState, d: nat
      | d >= depth' && Nesting(o) >= nesting' && Scoped(o, |st.cells|)
      ensures Forward(b, g, at, m, o, st, d) == Perform(k(Item(m, o.flowControlRequested)), o, st)
    {
    }
  }

  // ---------------------------------------------------------------------
  // Leaves of the induction
  // ---------------------------------------------------------------------

  lemma SingleRuns(cfg: Config, limit: nat, p: seq<Pipe>, g: seq<Pipe>, aux: map<Key, nat>, n: nat, node: Node, h: nat,
                   next: Option<nat>, extra: PipeFlags, k: Meaningful, nesting: nat, depth: nat)
    requires Context(cfg, limit, p, g, aux, n) && Continues(cfg, p, g, next, k, nesting, depth) && PlainFlags(extra)
    requires node.Single? && h < |p| && p[h] == Pipe(Element(node.element), extra, next)
    ensures Runs(cfg.behaviour, g, Some(h), Then(cfg, limit, node, extra.hardFlowControl, k), nesting, depth + 1)
  {
    InitAt(p, n, h);
    RunsElement(cfg, g, h, node.element, k, Then(cfg, limit, node, extra.hardFlowControl, k), nesting, depth);
  }

  lemma BindEmit(i: Item, k: Meaningful)
    ensures Bind([Emit(i)], k) == k(i)
  {
    assert [Emit(i)][1..] == [];
  }

  lemma ListOfEmit(cfg: Config, limit: nat, nodes: Nodes, i: Item, i': Item)
    requires nodes.Cons? && Meaning(cfg, limit, nodes.node, i) == [Emit(i')]
    ensures MeaningOfList(cfg, limit, nodes, i) == MeaningOfList(cfg, limit, nodes.next, i')
  {
    BindEmit(i', j => MeaningOfList(cfg, limit, nodes.next, j));
  }

  lemma {:induction false} AllHeadlessMeaning(cfg: Config, limit: nat, nodes: Nodes, i: Item)
    requires AllHeadless(nodes)
    ensures MeaningOfList(cfg, limit, nodes, i) == [Emit(i)]
    decreases nodes
  {
    if nodes.Nil? {
    } else {
      AllHeadlessMeaning(cfg, limit, nodes.next, i);
      ListOfEmit(cfg, limit, nodes, i, i);
    }
  }

  lemma HeadlessSequence(cfg: Config, limit: nat, node: Node, i: Item)
    requires node.Sequence? && AllHeadless(node.children)
    ensures Meaning(cfg, limit, node, i) == [Emit(OrFlow(i, node.flags.flowControl))]
  {
    AllHeadlessMeaning(cfg, limit, node.children, OrFlow(i, node.flags.flowControl));
  }

  lemma NoopMeaning(cfg: Config, limit: nat, node: Node, flow: bool, k: Meaningful, i: Item)
    requires node.Sequence? && AllHeadless(node.children)
    ensures Then(cfg, limit, node, flow, k)(i) == k(OrFlow(i, flow || node.flags.flowControl))
  {
    HeadlessSequence(cfg, limit, node, OrFlow(i, flow));
    BindEmit(OrFlow(OrFlow(i, flow), node.flags.flowControl), k);
  }

  lemma NoopRuns(cfg: Config, limit: nat, p: seq<Pipe>, g: seq<Pipe>, aux: map<Key, nat>, n: nat, node: Node, h: nat,
                 next: Option<nat>, extra: PipeFlags, k: Meaningful, nesting: nat, depth: nat)
    requires Context(cfg, limit, p, g, aux, n) && Continues(cfg, p, g, next, k, nesting, depth) && PlainFlags(extra)
    requires node.Sequence? && AllHeadless(node.children)
    requires h < |p| && p[h] == Pipe(Forwarder, extra.Or(OfLc(node.flags)), next)
    ensures Runs(cfg.behaviour, g, Some(h), Then(cfg, limit, node, extra.hardFlowControl, k), nesting, depth + 1)
  {
    InitAt(p, n, h);
    var r := Then(cfg, limit, node, extra.hardFlowControl, k);
    forall i ensures r(i) == k(OrFlow(i, extra.hardFlowControl || node.flags.flowControl)) {
      NoopMeaning(cfg, limit, node, extra.hardFlowControl, k, i);
    }
    RunsForwarder(cfg.behaviour, g, h, k, r, nesting, depth);
  }

  predicate NoEmit(a: seq<Action>) { forall x :: x in a ==> !x.Emit? }

  lemma {:induction false} EndHasNoEmit(a: seq<Action>)
    ensures NoEmit(Bind(a, EndOfPath))
  {
    if a == [] {
    } else {
      EndHasNoEmit(a[1..]);
    }
  }

  lemma {:induction false} LowerHasNoEmit(a: seq<Action>)
    requires NoEmit(a)
    ensures NoEmit(Lower(a))
  {
    if a == [] {
    } else {
      assert a[0] in a;
      assert forall x :: x in a[1..] ==> x in a;
      LowerHasNoEmit(a[1..]);
    }
  }

  lemma {:induction false} BindNoEmit(a: seq<Action>, k: Meaningful)
    requires NoEmit(a)
    ensures Bind(a, k) == a
  {
    if a == [] {
    } else {
      assert a[0] in a;
      assert forall x :: x in a[1..] ==> x in a;
      BindNoEmit(a[1..], k);
    }
  }

  lemma OneHopFork(h: Hop)
    requires !h.fallback
    ensures Fork([h], false) == Lower(h.actions)
  {
    assert [h][1..] == [];
    assert Try([h], false).actions == Lower(h.actions) + Try([], false).actions;
    assert !HasFallback([h]);
  }

  lemma DestinationMeaning(cfg: Config, limit: nat, node: Node, k: Meaningful, i: Item)
    requires node.Reference? && node.key.content == ContentDestination && cfg.Resolves(node.key, limit)
    ensures var def := cfg.objects[node.key];
            Bind(Meaning(cfg, limit, node, i), k)
            == Lower(Bind(Meaning(cfg, cfg.Rank(node.key), def, i), EndOfPath)) + k(i)
  {
    var copy := Bind(Meaning(cfg, cfg.Rank(node.key), cfg.objects[node.key], i), EndOfPath);
    EndHasNoEmit(Meaning(cfg, cfg.Rank(node.key), cfg.objects[node.key], i));
    LowerHasNoEmit(copy);
    BindNoEmit(Lower(copy), k);
    BindConcat(Lower(copy), [Emit(i)], k);
    BindEmit(i, k);
  }

  lemma DestinationFork(cfg: Config, limit: nat, g: seq<Pipe>, node: Node, head: nat, k: Meaningful, flow: bool, i: Item)
    requires node.Reference? && node.key.content == ContentDestination && cfg.Resolves(node.key, limit)
    requires !FlagsAt(g, head).branchFallback
    ensures var run := Then(cfg, cfg.Rank(node.key), cfg.objects[node.key], false, EndOfPath);
            var j := OrFlow(i, flow);
            Then(cfg, limit, node, flow, k)(i) == Fork(HopsAt(g, [head], [run], j), false) + k(j)
  {
    var run := Then(cfg, cfg.Rank(node.key), cfg.objects[node.key], false, EndOfPath);
    var j := OrFlow(i, flow);
    DestinationMeaning(cfg, limit, node, k, j);
    assert OrFlow(j, false) == j;
    HopsAtIndex(g, [head], [run], j);
    var at := HopsAt(g, [head], [run], j);
    assert at == [at[0]];
    OneHopFork(at[0]);
  }

  lemma DestinationReferenceRuns(cfg: Config, limit: nat, p: seq<Pipe>, g: seq<Pipe>, aux: map<Key, nat>, n: nat,
                                 node: Node, h: nat, next: Option<nat>, extra: PipeFlags, k: Meaningful,
                                 nesting: nat, depth: nat)
    requires Context(cfg, limit, p, g, aux, n) && Continues(cfg, p, g, next, k, nesting, depth) && PlainFlags(extra)
    requires node.Reference? && node.key.content == ContentDestination && cfg.Resolves(node.key, limit)
    requires node.key in aux && h < |p| && p[h] == Pipe(Multiplexer([aux[node.key]], false, false), extra, next)
    requires n >= depth + Cost(cfg, limit, node)
    ensures Runs(cfg.behaviour, g, Some(h), Then(cfg, limit, node, extra.hardFlowControl, k), nesting,
                 depth + Cost(cfg, limit, node))
  {
    var b, head := cfg.behaviour, aux[node.key];
    var cost := Cost(cfg, cfg.Rank(node.key), cfg.objects[node.key]);
    var run := Then(cfg, cfg.Rank(node.key), cfg.objects[node.key], false, EndOfPath);
    assert DestinationRuns(cfg, p, g, node.key, head);
    InitAt(p, n, h);
    InitHop(p, n, h, head);
    InitFallback(p, n, h);
    RunsWeaker(b, g, Some(head), run, 0, nesting + 1, cost, depth + cost);
    RunsWeaker(b, g, next, k, nesting, nesting, depth, depth + cost);
    var r := Then(cfg, limit, node, extra.hardFlowControl, k);
    forall i
      ensures var j := OrFlow(i, extra.hardFlowControl); r(i) == Fork(HopsAt(g, [head], [run], j), false) + k(j)
    {
      DestinationFork(cfg, limit, g, node, head, k, extra.hardFlowControl, i);
    }
    RunsMultiplexer(b, g, h, [run], k, r, nesting, depth + cost);
  }

  // ---------------------------------------------------------------------
  // The induction
  // ---------------------------------------------------------------------

  lemma {:induction false} NodeRuns(cfg: Config, limit: nat, p: seq<Pipe>, g: seq<Pipe>, aux: map<Key, nat>, n: nat,
                                    node: Node, entry: Option<nat>, next: Option<nat>, extra: PipeFlags,
                                    atHead: bool, k: Meaningful, nesting: nat, depth: nat)
    requires Context(cfg, limit, p, g, aux, n) && Continues(cfg, p, g, next, k, nesting, depth) && PlainFlags(extra)
    requires WellFormed(cfg, limit, node, atHead) && !Headless(node)
    requires Wired(cfg, limit, p, aux, node, entry, next, extra)
    requires n >= depth + Cost(cfg, limit, node)
    ensures Runs(cfg.behaviour, g, entry, Then(cfg, limit, node, extra.hardFlowControl, k), nesting,
                 depth + Cost(cfg, limit, node))
    decreases limit, node, 6
  {
    var h := entry.value;
    match node
    case Single(_) => SingleRuns(cfg, limit, p, g, aux, n, node, h, next, extra, k, nesting, depth);
    case Reference(key) =>
      if key.content == ContentDestination {
        DestinationReferenceRuns(cfg, limit, p, g, aux, n, node, h, next, extra, k, nesting, depth);
      } else {
        var rank, def := cfg.Rank(key), cfg.objects[key];
        SequenceRuns(cfg, rank, p, g, aux, n, def, entry, next, extra, false, k, nesting, depth);
        RunsCongruent(cfg.behaviour, g, entry, Then(cfg, rank, def, extra.hardFlowControl, k),
                      Then(cfg, limit, node, extra.hardFlowControl, k), nesting,
                      depth + Cost(cfg, rank, def), depth + Cost(cfg, limit, node));
      }
    case Sequence(_, _, _) =>
      SequenceRuns(cfg, limit, p, g, aux, n, node, entry, next, extra, atHead, k, nesting, depth);
    case Junction(_, _) => JunctionCase(cfg, limit, p, g, aux, n, node, entry, next, extra, k, nesting, depth);
    case Conditional(_, _, _) => ConditionalCase(cfg, limit, p, g, aux, n, node, entry, next, extra, k, nesting, depth);
  }

  lemma SequenceMeaning(cfg: Config, limit: nat, node: Node, extra: PipeFlags, k: Meaningful, i: Item)
    requires node.Sequence?
    ensures ThenList(cfg, limit, node.children, extra.Or(OfLc(node.flags)).hardFlowControl, k)(i)
            == Then(cfg, limit, node, extra.hardFlowControl, k)(i)
  {
    assert OrFlow(OrFlow(i, extra.hardFlowControl), node.flags.flowControl)
        == OrFlow(i, extra.Or(OfLc(node.flags)).hardFlowControl);
  }

  lemma {:induction false} SequenceRuns(cfg: Config, limit: nat, p: seq<Pipe>, g: seq<Pipe>, aux: map<Key, nat>, n: nat,
                                        node: Node, entry: Option<nat>, next: Option<nat>, extra: PipeFlags,
                                        atHead: bool, k: Meaningful, nesting: nat, depth: nat)
    requires Context(cfg, limit, p, g, aux, n) && Continues(cfg, p, g, next, k, nesting, depth) && PlainFlags(extra)
    requires node.Sequence? && WellFormedList(cfg, limit, node.children, atHead)
    requires Wired(cfg, limit, p, aux, node, entry, next, extra)
    requires n >= depth + Cost(cfg, limit, node)
    ensures Runs(cfg.behaviour, g, entry, Then(cfg, limit, node, extra.hardFlowControl, k), nesting,
                 depth + Cost(cfg, limit, node))
    decreases limit, node, 1
  {
    var r := Then(cfg, limit, node, extra.hardFlowControl, k);
    if AllHeadless(node.children) {
      NoopRuns(cfg, limit, p, g, aux, n, node, entry.value, next, extra, k, nesting, depth);
      RunsWeaker(cfg.behaviour, g, entry, r, nesting, nesting, depth + 1, depth + Cost(cfg, limit, node));
    } else {
      var own := extra.Or(OfLc(node.flags));
      ListRuns(cfg, limit, p, g, aux, n, node.children, entry, next, own, atHead, k, nesting, depth);
      var list := ThenList(cfg, limit, node.children, own.hardFlowControl, k);
      forall i ensures list(i) == r(i) {
        SequenceMeaning(cfg, limit, node, extra, k, i);
      }
      RunsCongruent(cfg.behaviour, g, entry, list, r, nesting,
                    depth + CostOfList(cfg, limit, node.children), depth + Cost(cfg, limit, node));
    }
  }

  lemma HeadlessFirst(cfg: Config, limit: nat, nodes: Nodes, flow: bool, k: Meaningful, i: Item)
    requires nodes.Cons? && Headless(nodes.node)
    ensures ThenList(cfg, limit, nodes, flow, k)(i) == ThenList(cfg, limit, nodes.next, flow, k)(i)
  {
    ListOfEmit(cfg, limit, nodes, OrFlow(i, flow), OrFlow(i, flow));
  }

  lemma {:induction false} ListRuns(cfg: Config, limit: nat, p: seq<Pipe>, g: seq<Pipe>, aux: map<Key, nat>, n: nat,
                                    nodes: Nodes, entry: Option<nat>, next: Option<nat>, extra: PipeFlags,
                                    atHead: bool, k: Meaningful, nesting: nat, depth: nat)
    requires Context(cfg, limit, p, g, aux, n) && Continues(cfg, p, g, next, k, nesting, depth) && PlainFlags(extra)
    requires WellFormedList(cfg, limit, nodes, atHead)
    requires WiredList(cfg, limit, p, aux, nodes, entry, next, extra)
    requires n >= depth + CostOfList(cfg, limit, nodes)
    ensures Runs(cfg.behaviour, g, entry, ThenList(cfg, limit, nodes, extra.hardFlowControl, k), nesting,
                 depth + CostOfList(cfg, limit, nodes))
    decreases limit, nodes, 0
  {
    var b, r := cfg.behaviour, ThenList(cfg, limit, nodes, extra.hardFlowControl, k);
    match nodes
    case Nil =>
      forall i ensures k(i) == r(i) {
        assert OrFlow(i, false) == i;
        BindEmit(i, k);
      }
      RunsCongruent(b, g, next, k, r, nesting, depth, depth);
    case Cons(node, rest) =>
      var cost := depth + CostOfList(cfg, limit, nodes);
      if Headless(node) {
        ListRuns(cfg, limit, p, g, aux, n, rest, entry, next, extra, false, k, nesting, depth);
        forall i ensures ThenList(cfg, limit, rest, extra.hardFlowControl, k)(i) == r(i) {
          HeadlessFirst(cfg, limit, nodes, extra.hardFlowControl, k, i);
        }
        RunsCongruent(b, g, entry, ThenList(cfg, limit, rest, extra.hardFlowControl, k), r, nesting,
                      depth + CostOfList(cfg, limit, rest), cost);
      } else {
        var middle: Option<nat> :| Wired(cfg, limit, p, aux, node, entry, middle, extra)
                                   && WiredList(cfg, limit, p, aux, rest, middle, next, NO_FLAGS);
        var tail := ThenList(cfg, limit, rest, false, k);
        var later := depth + CostOfList(cfg, limit, rest);
        ListRuns(cfg, limit, p, g, aux, n, rest, middle, next, NO_FLAGS, false, k, nesting, depth);
        ChainOfList(cfg, limit, p, aux, rest, middle, next, NO_FLAGS, false, depth);
        if rest.Cons? {
          NoFlagsInside(cfg, limit, rest.node);
        }
        NodeRuns(cfg, limit, p, g, aux, n, node, entry, middle, extra, atHead, tail, nesting, later);
        var first := Then(cfg, limit, node, extra.hardFlowControl, tail);
        forall i ensures first(i) == r(i) {
          ThenListCons(cfg, limit, nodes, extra.hardFlowControl, k, i);
        }
        RunsCongruent(b, g, entry, first, r, nesting, later + Cost(cfg, limit, node), cost);
      }
  }

  lemma JoinContinues(cfg: Config, p: seq<Pipe>, g: seq<Pipe>, n: nat, join: nat,
                      next: Option<nat>, k: Meaningful, nesting: nat, depth: nat)
    requires Started(p, g, n) && Continues(cfg, p, g, next, k, nesting, depth) && IsJoin(p, join, next)
    ensures Continues(cfg, p, g, Some(join), Lifted(k), nesting + 1, depth + 1)
  {
    InitAt(p, n, join);
    ChainStep(p, join, NO_FLAGS, depth);
    RunsJoin(cfg.behaviour, g, join, k, Lifted(k), nesting, depth);
  }

  lemma ForkIsForkPipe(p: seq<Pipe>, g: seq<Pipe>, n: nat, h: nat, propagate: bool,
                       extra: PipeFlags)
    requires Started(p, g, n) && IsFork(p, h, propagate, extra) && PlainFlags(extra)
    ensures ForkPipe(g, h, propagate, extra.hardFlowControl) && g[h].kind.hops == p[h].kind.hops
  {
    InitAt(p, n, h);
    InitFallback(p, n, h);
  }

  lemma {:induction false} JunctionCase(cfg: Config, limit: nat, p: seq<Pipe>, g: seq<Pipe>, aux: map<Key, nat>, n: nat,
                                        node: Node, entry: Option<nat>, next: Option<nat>, extra: PipeFlags,
                                        k: Meaningful, nesting: nat, depth: nat)
    requires Context(cfg, limit, p, g, aux, n) && Continues(cfg, p, g, next, k, nesting, depth) && PlainFlags(extra)
    requires node.Junction? && WellFormedBranches(cfg, limit, node.branches) && !Headless(node)
    requires Wired(cfg, limit, p, aux, node, entry, next, extra)
    requires n >= depth + Cost(cfg, limit, node)
    ensures Runs(cfg.behaviour, g, entry, Then(cfg, limit, node, extra.hardFlowControl, k), nesting,
                 depth + Cost(cfg, limit, node))
    decreases limit, node, 1
  {
    var h := entry.value;
    var hops := p[h].kind.hops;
    var join: nat :| IsJoin(p, join, next) && WiredBranches(cfg, limit, p, aux, node.branches, hops, join);
    JoinContinues(cfg, p, g, n, join, next, k, nesting, depth);
    ForkIsForkPipe(p, g, n, h, node.jcontent != ContentDestination, extra);
    var inner := depth + 1 + CostOfList(cfg, limit, node.branches);
    BranchFlagsOfWired(cfg, limit, p, aux, n, h, node.branches, hops, join, depth + 1);
    BranchesRun(cfg, limit, p, g, aux, n, node.branches, hops, join, Lifted(k), nesting + 1, depth + 1);
    JunctionRuns(cfg, limit, g, h, node, k, extra.hardFlowControl, nesting, inner);
  }

  lemma {:induction false} BranchesRun(cfg: Config, limit: nat, p: seq<Pipe>, g: seq<Pipe>, aux: map<Key, nat>, n: nat,
                                       branches: Nodes, hops: seq<nat>, join: nat, k: Meaningful,
                                       nesting: nat, depth: nat)
    requires Context(cfg, limit, p, g, aux, n) && Continues(cfg, p, g, Some(join), k, nesting, depth)
    requires WellFormedBranches(cfg, limit, branches)
    requires WiredBranches(cfg, limit, p, aux, branches, hops, join)
    requires n >= depth + CostOfList(cfg, limit, branches)
    ensures RunsAll(cfg.behaviour, g, hops, ThenBranches(cfg, limit, branches, k), nesting,
                    depth + CostOfList(cfg, limit, branches))
    decreases limit, branches, 0
  {
    if branches.Nil? {
    } else {
      var node, rest := branches.node, branches.next;
      var all := depth + CostOfList(cfg, limit, branches);
      NodeRuns(cfg, limit, p, g, aux, n, node, Some(hops[0]), Some(join), NO_FLAGS, true, k, nesting, depth);
      RunsWeaker(cfg.behaviour, g, Some(hops[0]), Then(cfg, limit, node, false, k), nesting, nesting,
                 depth + Cost(cfg, limit, node), all);
      BranchesRun(cfg, limit, p, g, aux, n, rest, hops[1..], join, k, nesting, depth);
      var hs, tail := ThenBranches(cfg, limit, branches, k), ThenBranches(cfg, limit, rest, k);
      forall j | 0 <= j < |hops| ensures Runs(cfg.behaviour, g, Some(hops[j]), hs[j], nesting, all) {
        if j > 0 {
          assert hops[j] == hops[1..][j - 1] && hs[j] == tail[j - 1];
          RunsWeaker(cfg.behaviour, g, Some(hops[1..][j - 1]), tail[j - 1], nesting, nesting,
                     depth + CostOfList(cfg, limit, rest), all);
        }
      }
    }
  }

  lemma {:induction false} ConditionalCase(cfg: Config, limit: nat, p: seq<Pipe>, g: seq<Pipe>, aux: map<Key, nat>,
                                           n: nat, node: Node, entry: Option<nat>, next: Option<nat>,
                                           extra: PipeFlags, k: Meaningful, nesting: nat, depth: nat)
    requires Context(cfg, limit, p, g, aux, n) && Continues(cfg, p, g, next, k, nesting, depth) && PlainFlags(extra)
    requires node.Conditional? && WellFormed(cfg, limit, node, false)
    requires Wired(cfg, limit, p, aux, node, entry, next, extra)
    requires n >= depth + Cost(cfg, limit, node)
    ensures Runs(cfg.behaviour, g, entry, Then(cfg, limit, node, extra.hardFlowControl, k), nesting,
                 depth + Cost(cfg, limit, node))
    decreases limit, node, 5
  {
    var h := entry.value;
    var inner := depth + Cost(cfg, limit, node) - 1;
    ConditionalHopsRun(cfg, limit, p, g, aux, n, node, h, next, extra, k, nesting, depth, inner);
    ForkIsForkPipe(p, g, n, h, true, extra);
    ConditionalRuns(cfg, limit, g, h, node, k, extra.hardFlowControl, nesting, inner);
  }

  lemma {:induction false} ConditionalHopsRun(cfg: Config, limit: nat, p: seq<Pipe>, g: seq<Pipe>, aux: map<Key, nat>,
                                              n: nat, node: Node, h: nat, next: Option<nat>, extra: PipeFlags,
                                              k: Meaningful, nesting: nat, depth: nat, inner: nat)
    requires Context(cfg, limit, p, g, aux, n) && Continues(cfg, p, g, next, k, nesting, depth)
    requires node.Conditional? && WellFormed(cfg, limit, node, false)
    requires Wired(cfg, limit, p, aux, node, Some(h), next, extra)
    requires n >= inner == depth + Cost(cfg, limit, node) - 1
    ensures ConditionalFlagsAgree(g, node, p[h].kind.hops)
    ensures RunsAll(cfg.behaviour, g, p[h].kind.hops, ConditionalBranches(cfg, limit, node, Lifted(k)),
                    nesting + 1, inner)
    decreases limit, node, 4
  {
    var join := ConditionalParts(cfg, limit, p, aux, node, h, next, extra);
    JoinContinues(cfg, p, g, n, join, next, k, nesting, depth);
    BothHopsRun(cfg, limit, p, g, aux, n, node, h, p[h].kind.hops, join, k, nesting, depth, inner);
  }

  lemma {:induction false} BothHopsRun(cfg: Config, limit: nat, p: seq<Pipe>, g: seq<Pipe>, aux: map<Key, nat>,
                                       n: nat, node: Node, h: nat, hops: seq<nat>, join: nat,
                                       k: Meaningful, nesting: nat, depth: nat, inner: nat)
    requires Context(cfg, limit, p, g, aux, n) && Continues(cfg, p, g, Some(join), Lifted(k), nesting + 1, depth + 1)
    requires node.Conditional? && WellFormed(cfg, limit, node, false)
    requires h < |p| && p[h].kind.Multiplexer? && p[h].kind.hops == hops && |hops| == 2
    requires Wired(cfg, limit, p, aux, node.els, Some(hops[1]), Some(join), NO_FLAGS)
    requires YesWired(cfg, limit, p, aux, node, hops[0], join)
    requires n >= inner == depth + Cost(cfg, limit, node) - 1
    ensures ConditionalFlagsAgree(g, node, hops)
    ensures RunsAll(cfg.behaviour, g, hops, ConditionalBranches(cfg, limit, node, Lifted(k)), nesting + 1, inner)
    decreases limit, node, 3
  {
    YesRuns(cfg, limit, p, g, aux, n, node, hops[0], join, k, nesting, depth + 1, inner);
    NoRuns(cfg, limit, p, g, aux, n, node, hops[1], join, k, nesting, depth + 1, inner);
    HopFlagsAgree(p, g, n, h, node, hops, inner);
    TwoHopsRun(cfg, limit, g, node, hops, k, nesting, inner);
  }

  lemma HopFlagsAgree(p: seq<Pipe>, g: seq<Pipe>, n: nat, h: nat, node: Node, hops: seq<nat>, inner: nat)
    requires Started(p, g, n) && node.Conditional? && n >= inner
    requires h < |p| && p[h].kind.Multiplexer? && p[h].kind.hops == hops && |hops| == 2
    requires ChainIs(p, Some(hops[0]), BranchFlags(node.thn), inner) && ChainIs(p, Some(hops[1]), BranchFlags(node.els), inner)
    ensures ConditionalFlagsAgree(g, node, hops)
  {
    InitHop(p, n, h, hops[0]);
    InitHop(p, n, h, hops[1]);
  }

  lemma TwoHopsRun(cfg: Config, limit: nat, g: seq<Pipe>, node: Node, hops: seq<nat>, k: Meaningful, nesting: nat, inner: nat)
    requires node.Conditional? && |hops| == 2
    requires Runs(cfg.behaviour, g, Some(hops[0]), ThenYes(cfg, limit, node, Lifted(k)), nesting + 1, inner)
    requires Runs(cfg.behaviour, g, Some(hops[1]), Then(cfg, limit, node.els, false, Lifted(k)), nesting + 1, inner)
    ensures RunsAll(cfg.behaviour, g, hops, ConditionalBranches(cfg, limit, node, Lifted(k)), nesting + 1, inner)
  {
  }

  lemma ConditionalParts(cfg: Config, limit: nat, p: seq<Pipe>, aux: map<Key, nat>, node: Node, h: nat,
                         next: Option<nat>, extra: PipeFlags) returns (join: nat)
    requires node.Conditional? && Wired(cfg, limit, p, aux, node, Some(h), next, extra)
    ensures IsFork(p, h, true, extra) && |p[h].kind.hops| == 2 && IsJoin(p, join, next)
    ensures Wired(cfg, limit, p, aux, node.els, Some(p[h].kind.hops[1]), Some(join), NO_FLAGS)
    ensures YesWired(cfg, limit, p, aux, node, p[h].kind.hops[0], join)
  {
    var hops := p[h].kind.hops;
    join :|
      && IsJoin(p, join, next)
      && Wired(cfg, limit, p, aux, node.els, Some(hops[1]), Some(join), NO_FLAGS)
      && if node.filter.None? then
           Wired(cfg, limit, p, aux, node.thn, Some(hops[0]), Some(join), NO_FLAGS)
         else
           exists mid: nat ::
             && IsMidpoint(p, mid)
             && Wired(cfg, limit, p, aux, node.filter.value, Some(hops[0]), Some(mid), NO_FLAGS)
             && Wired(cfg, limit, p, aux, node.thn, p[mid].next, Some(join), NO_FLAGS);
  }

  lemma {:induction false} NoRuns(cfg: Config, limit: nat, p: seq<Pipe>, g: seq<Pipe>, aux: map<Key, nat>, n: nat,
                                  node: Node, hop: nat, join: nat, k: Meaningful, nesting: nat, depth: nat, inner: nat)
    requires Context(cfg, limit, p, g, aux, n) && Continues(cfg, p, g, Some(join), Lifted(k), nesting + 1, depth)
    requires node.Conditional? && WellFormed(cfg, limit, node, false)
    requires Wired(cfg, limit, p, aux, node.els, Some(hop), Some(join), NO_FLAGS)
    requires n >= inner >= depth + Cost(cfg, limit, node.els)
    ensures Runs(cfg.behaviour, g, Some(hop), Then(cfg, limit, node.els, false, Lifted(k)), nesting + 1, inner)
    ensures ChainIs(p, Some(hop), BranchFlags(node.els), inner)
    decreases limit, node, 0
  {
    ChainOfWired(cfg, limit, p, aux, node.els, Some(hop), Some(join), NO_FLAGS, true, depth);
    BranchFlagsAreBranchFlags(node.els);
    NodeRuns(cfg, limit, p, g, aux, n, node.els, Some(hop), Some(join), NO_FLAGS, true, Lifted(k), nesting + 1, depth);
    RunsWeaker(cfg.behaviour, g, Some(hop), Then(cfg, limit, node.els, false, Lifted(k)), nesting + 1, nesting + 1,
               depth + Cost(cfg, limit, node.els), inner);
  }

  lemma {:induction false} BranchFlagsAreBranchFlags(node: Node)
    ensures BranchFlags(node).Branch() == BranchFlags(node)
    ensures NO_FLAGS.Branch().Or(BranchFlags(node)) == BranchFlags(node)
    decreases node
  {
    if node.Sequence? && node.children.Cons? {
      BranchFlagsAreBranchFlags(node.children.node);
    }
  }

  ghost predicate YesWired(cfg: Config, limit: nat, p: seq<Pipe>, aux: map<Key, nat>, node: Node, hop: nat, join: nat)
    requires node.Conditional?
  {
    if node.filter.None? then
      Wired(cfg, limit, p, aux, node.thn, Some(hop), Some(join), NO_FLAGS)
    else
      exists mid: nat ::
        && IsMidpoint(p, mid)
        && Wired(cfg, limit, p, aux, node.filter.value, Some(hop), Some(mid), NO_FLAGS)
        && Wired(cfg, limit, p, aux, node.thn, p[mid].next, Some(join), NO_FLAGS)
  }

  function YesCost(cfg: Config, limit: nat, node: Node): nat
    requires node.Conditional?
  {
    Cost(cfg, limit, node.thn) + (if node.filter.None? then 0 else 1 + Cost(cfg, limit, node.filter.value))
  }

  lemma FilteredYes(cfg: Config, limit: nat, node: Node, k: Meaningful, mid: Meaningful, i: Item)
    requires node.Conditional? && node.filter.Some?
    requires forall j :: mid(j) == PastMidpoint(Then(cfg, limit, node.thn, false, Lifted(k))(j))
    ensures Then(cfg, limit, node.filter.value, false, mid)(i) == ThenYes(cfg, limit, node, Lifted(k))(i)
  {
    var f := j => PastMidpoint(Meaning(cfg, limit, node.thn, j));
    forall j ensures mid(j) == Bind(f(j), Lifted(k)) {
      assert OrFlow(j, false) == j;
      PastMidpointBind(Meaning(cfg, limit, node.thn, j), k, Lifted(k));
    }
    var a := Meaning(cfg, limit, node.filter.value, i);
    assert OrFlow(i, false) == i;
    BindAssoc(a, f, Lifted(k), mid);
    BindCongruent(a, j => PastMidpoint(Meaning(cfg, limit, node.thn, j)), f);
  }

  /** The true branch: directly, or through the filter and the midpoint. */
  lemma {:induction false} YesRuns(cfg: Config, limit: nat, p: seq<Pipe>, g: seq<Pipe>, aux: map<Key, nat>, n: nat,
                                   node: Node, hop: nat, join: nat, k: Meaningful, nesting: nat, depth: nat, inner: nat)
    requires Context(cfg, limit, p, g, aux, n) && Continues(cfg, p, g, Some(join), Lifted(k), nesting + 1, depth)
    requires node.Conditional? && WellFormed(cfg, limit, node, false)
    requires YesWired(cfg, limit, p, aux, node, hop, join)
    requires n >= inner >= depth + YesCost(cfg, limit, node)
    ensures Runs(cfg.behaviour, g, Some(hop), ThenYes(cfg, limit, node, Lifted(k)), nesting + 1, inner)
    ensures ChainIs(p, Some(hop), BranchFlags(node.thn), inner)
    decreases limit, node, 2
  {
    if node.filter.None? {
      BodyRuns(cfg, limit, p, g, aux, n, node, Some(hop), join, k, nesting, depth);
      UnfilteredYes(cfg, limit, g, node, hop, k, nesting, depth + Cost(cfg, limit, node.thn), inner);
    } else {
      YesFiltered(cfg, limit, p, g, aux, n, node, hop, join, k, nesting, depth, inner);
    }
  }

  lemma UnfilteredYes(cfg: Config, limit: nat, g: seq<Pipe>, node: Node, hop: nat, k: Meaningful, nesting: nat,
                      depth: nat, inner: nat)
    requires node.Conditional? && node.filter.None? && depth <= inner
    requires Runs(cfg.behaviour, g, Some(hop), Then(cfg, limit, node.thn, false, Lifted(k)), nesting + 1, depth)
    ensures Runs(cfg.behaviour, g, Some(hop), ThenYes(cfg, limit, node, Lifted(k)), nesting + 1, inner)
  {
    var body := Then(cfg, limit, node.thn, false, Lifted(k));
    forall i ensures body(i) == ThenYes(cfg, limit, node, Lifted(k))(i) {
      assert OrFlow(i, false) == i;
    }
    RunsCongruent(cfg.behaviour, g, Some(hop), body, ThenYes(cfg, limit, node, Lifted(k)), nesting + 1, depth, inner);
  }

  lemma {:induction false} YesFiltered(cfg: Config, limit: nat, p: seq<Pipe>, g: seq<Pipe>, aux: map<Key, nat>, n: nat,
                                       node: Node, hop: nat, join: nat, k: Meaningful, nesting: nat, depth: nat,
                                       inner: nat)
    requires Context(cfg, limit, p, g, aux, n) && Continues(cfg, p, g, Some(join), Lifted(k), nesting + 1, depth)
    requires node.Conditional? && WellFormed(cfg, limit, node, false) && node.filter.Some?
    requires YesWired(cfg, limit, p, aux, node, hop, join)
    requires n >= inner >= depth + YesCost(cfg, limit, node)
    ensures Runs(cfg.behaviour, g, Some(hop), ThenYes(cfg, limit, node, Lifted(k)), nesting + 1, inner)
    ensures ChainIs(p, Some(hop), BranchFlags(node.thn), inner)
    decreases limit, node, 1
  {
    var later := depth + Cost(cfg, limit, node.thn);
    var mid: nat :|
      && IsMidpoint(p, mid)
      && Wired(cfg, limit, p, aux, node.filter.value, Some(hop), Some(mid), NO_FLAGS)
      && Wired(cfg, limit, p, aux, node.thn, p[mid].next, Some(join), NO_FLAGS);
    BodyRuns(cfg, limit, p, g, aux, n, node, p[mid].next, join, k, nesting, depth);
    FilteredYesRuns(cfg, limit, p, g, aux, n, node, hop, mid, k, nesting, later);
    RunsWeaker(cfg.behaviour, g, Some(hop), ThenYes(cfg, limit, node, Lifted(k)), nesting + 1, nesting + 1,
               later + 1 + Cost(cfg, limit, node.filter.value), inner);
  }

  lemma {:induction false} BodyRuns(cfg: Config, limit: nat, p: seq<Pipe>, g: seq<Pipe>, aux: map<Key, nat>, n: nat,
                                    node: Node, entry: Option<nat>, join: nat, k: Meaningful, nesting: nat, depth: nat)
    requires Context(cfg, limit, p, g, aux, n) && Continues(cfg, p, g, Some(join), Lifted(k), nesting + 1, depth)
    requires node.Conditional? && WellFormed(cfg, limit, node, false)
    requires Wired(cfg, limit, p, aux, node.thn, entry, Some(join), NO_FLAGS)
    requires n >= depth + Cost(cfg, limit, node.thn)
    ensures Runs(cfg.behaviour, g, entry, Then(cfg, limit, node.thn, false, Lifted(k)), nesting + 1,
                 depth + Cost(cfg, limit, node.thn))
    ensures ChainIs(p, entry, BranchFlags(node.thn), depth + Cost(cfg, limit, node.thn))
    decreases limit, node, 0
  {
    BranchFlagsAreBranchFlags(node.thn);
    NodeRuns(cfg, limit, p, g, aux, n, node.thn, entry, Some(join), NO_FLAGS, true, Lifted(k), nesting + 1, depth);
    ChainOfWired(cfg, limit, p, aux, node.thn, entry, Some(join), NO_FLAGS, true, depth);
  }

  lemma FilteredYesRuns(cfg: Config, limit: nat, p: seq<Pipe>, g: seq<Pipe>, aux: map<Key, nat>, n: nat,
                        node: Node, hop: nat, mid: nat, k: Meaningful, nesting: nat, depth: nat)
    requires Context(cfg, limit, p, g, aux, n) && node.Conditional? && node.filter.Some? && IsFilterExpr(node.filter.value)
    requires IsMidpoint(p, mid)
    requires Wired(cfg, limit, p, aux, node.filter.value, Some(hop), Some(mid), NO_FLAGS)
    requires Runs(cfg.behaviour, g, p[mid].next, Then(cfg, limit, node.thn, false, Lifted(k)), nesting + 1, depth)
    requires ChainIs(p, p[mid].next, BranchFlags(node.thn), depth)
    ensures Runs(cfg.behaviour, g, Some(hop), ThenYes(cfg, limit, node, Lifted(k)), nesting + 1,
                 depth + 1 + Cost(cfg, limit, node.filter.value))
    ensures ChainIs(p, Some(hop), BranchFlags(node.thn), depth + 1 + Cost(cfg, limit, node.filter.value))
  {
    var b, lifted, flags := cfg.behaviour, Lifted(k), BranchFlags(node.thn);
    var body := Then(cfg, limit, node.thn, false, lifted);
    BranchFlagsAreBranchFlags(node.thn);
    ChainStep(p, mid, flags, depth);
    InitAt(p, n, mid);
    var past := (i: Item) => PastMidpoint(body(i));
    RunsMidpoint(b, g, mid, body, past, nesting + 1, depth);
    FilterRuns(cfg, limit, p, g, aux, n, node.filter.value, hop, mid, flags, past, nesting + 1, depth + 1);
    var last := depth + 1 + Cost(cfg, limit, node.filter.value);
    forall i ensures Then(cfg, limit, node.filter.value, false, past)(i) == ThenYes(cfg, limit, node, lifted)(i) {
      FilteredYes(cfg, limit, node, k, past, i);
    }
    RunsCongruent(b, g, Some(hop), Then(cfg, limit, node.filter.value, false, past),
                  ThenYes(cfg, limit, node, lifted), nesting + 1, last, last);
  }

  /** The filter of an `if`: one element, whose chain continues into the body. */
  lemma FilterRuns(cfg: Config, limit: nat, p: seq<Pipe>, g: seq<Pipe>, aux: map<Key, nat>, n: nat, filter: Node,
                   hop: nat, mid: nat, flags: PipeFlags, k: Meaningful, nesting: nat, depth: nat)
    requires Context(cfg, limit, p, g, aux, n) && Runs(cfg.behaviour, g, Some(mid), k, nesting, depth)
    requires ChainIs(p, Some(mid), flags, depth) && flags == flags.Branch()
    requires IsFilterExpr(filter) && Wired(cfg, limit, p, aux, filter, Some(hop), Some(mid), NO_FLAGS)
    ensures Runs(cfg.behaviour, g, Some(hop), Then(cfg, limit, filter, false, k), nesting,
                 depth + Cost(cfg, limit, filter))
    ensures ChainIs(p, Some(hop), flags, depth + Cost(cfg, limit, filter))
  {
    var single := filter.children.node;
    var e := single.element;
    assert NO_FLAGS.Or(OfLc(filter.flags)) == NO_FLAGS;
    assert WiredList(cfg, limit, p, aux, filter.children, Some(hop), Some(mid), NO_FLAGS);
    var middle: Option<nat> :| Wired(cfg, limit, p, aux, single, Some(hop), middle, NO_FLAGS)
                               && WiredList(cfg, limit, p, aux, filter.children.next, middle, Some(mid), NO_FLAGS);
    assert p[hop] == Pipe(Element(e), NO_FLAGS, Some(mid));
    InitAt(p, n, hop);
    ChainStep(p, hop, flags, depth);
    var r := Then(cfg, limit, filter, false, k);
    forall i ensures r(i) == Bind(MeaningOfElement(cfg, e, OrFlow(i, false)), k) {
      FilterMeaning(cfg, limit, filter, OrFlow(i, false));
    }
    RunsElement(cfg, g, hop, e, k, r, nesting, depth);
    RunsWeaker(cfg.behaviour, g, Some(hop), r, nesting, nesting, depth + 1, depth + Cost(cfg, limit, filter));
  }

  lemma FilterMeaning(cfg: Config, limit: nat, filter: Node, i: Item)
    requires IsFilterExpr(filter)
    ensures Meaning(cfg, limit, filter, i) == MeaningOfElement(cfg, filter.children.node.element, i)
  {
    assert OrFlow(i, false) == i;
    var a := MeaningOfElement(cfg, filter.children.node.element, i);
    if a[0].Emit? {
      ListOfEmit(cfg, limit, filter.children, i, a[0].item);
    } else {
      assert NoEmit(a);
      BindNoEmit(a, j => MeaningOfList(cfg, limit, filter.children.next, j));
      assert MeaningOfList(cfg, limit, filter.children, i)
          == Bind(a, j => MeaningOfList(cfg, limit, filter.children.next, j));
    }
  }
}
