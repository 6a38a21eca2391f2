/**
 The main result about log paths: compiling a well-formed log expression
 succeeds, and handing a message to the compiled and initialized graph has
 exactly the effect of the meaning of the expression.
 */
module LogPathTheorem {
  import opened Wrappers
  import opened LogPipe
  import opened LogExpr
  import opened LogPathRun
  import opened PipeRuns
  import opened Wiring
  import opened WiringRuns
  import opened WiredRuns
  import opened CfgTree
  import opened CompileShape
  import opened CompileWires
  import opened MeaningLevels

  // ---------------------------------------------------------------------
  // Destinations compiled on the way cost less than the expression
  // ---------------------------------------------------------------------

  ghost predicate NewCosts(cfg: Config, a: map<Key, nat>, a': map<Key, nat>, bound: nat) {
    forall k :: k in a' && k !in a ==> k in cfg.objects && Cost(cfg, cfg.Rank(k), cfg.objects[k]) <= bound
  }

  lemma {:induction false} NodeCosts(cfg: Config, limit: nat, g: Graph, node: Node, atHead: bool)
    requires WellFormed(cfg, limit, node, atHead)
    ensures var c := CompileNode(cfg, limit, g, node);
            c.Compiled? && NewCosts(cfg, g.aux, c.graph.aux, Cost(cfg, limit, node))
    decreases limit, node, 1
  {
    NodeHasShape(cfg, limit, g, node, atHead);
    match node
    case Single(_) =>
    case Reference(key) => ReferenceCosts(cfg, limit, g, node);
    case Sequence(_, flags, children) =>
      ListCosts(cfg, limit, g, OfLc(flags), children, None, None, atHead);
    case Junction(content, branches) =>
      if branches.Cons? {
        BranchCosts(cfg, limit, g, content, branches, None, None);
      }
    case Conditional(_, _, _) => ConditionalCosts(cfg, limit, g, node);
  }

  lemma {:induction false} ReferenceCosts(cfg: Config, limit: nat, g: Graph, node: Node)
    requires node.Reference? && WellFormed(cfg, limit, node, false)
    ensures var c := CompileNode(cfg, limit, g, node);
            c.Compiled? && NewCosts(cfg, g.aux, c.graph.aux, Cost(cfg, limit, node))
    decreases limit, node, 0
  {
    var rank, def := cfg.Rank(node.key), cfg.objects[node.key];
    ReferenceHasShape(cfg, limit, g, node);
    ListCosts(cfg, rank, g, OfLc(def.flags), def.children, None, None, false);
  }

  lemma {:induction false} ConditionalCosts(cfg: Config, limit: nat, g: Graph, node: Node)
    requires node.Conditional? && WellFormed(cfg, limit, node, false)
    ensures var c := CompileNode(cfg, limit, g, node);
            c.Compiled? && NewCosts(cfg, g.aux, c.graph.aux, Cost(cfg, limit, node))
    decreases limit, node, 0
  {
    var s := ConditionalStages(cfg, limit, g, node);
    StagesAux(s);
    NodeCosts(cfg, limit, g, node.thn, true);
    NodeCosts(cfg, limit, s.thn.graph, node.els, true);
    if s.filter.Some? {
      FilterWellFormed(cfg, limit, node.filter.value);
      NodeCosts(cfg, limit, ForkBoth(s.els.graph), node.filter.value, false);
    }
  }

  lemma {:induction false} ListCosts(cfg: Config, limit: nat, g: Graph, flags: PipeFlags, children: Nodes,
                                     first: Option<nat>, last: Option<nat>, atHead: bool)
    requires WellFormedList(cfg, limit, children, atHead) && SoFar(g, first, last)
    ensures var c := CompileChildren(cfg, limit, g, flags, children, first, last);
            c.Compiled? && NewCosts(cfg, g.aux, c.graph.aux, CostOfList(cfg, limit, children))
    decreases limit, children, 0
  {
    if children.Nil? {
    } else {
      var n, rest := children.node, children.next;
      if Headless(n) {
        assert CompileNode(cfg, limit, g, n) == Compiled(g, None, None);
        ListCosts(cfg, limit, g, flags, rest, first, last, false);
      } else {
        var c, l, d := ChildrenUnfold(cfg, limit, g, flags, children, first, last, atHead);
        NodeCosts(cfg, limit, g, n, atHead);
        ListCosts(cfg, limit, l.graph, flags, rest, l.head, l.tail, false);
        CostsAdd(cfg, g.aux, c.graph.aux, d.graph.aux, Cost(cfg, limit, n), CostOfList(cfg, limit, rest));
      }
    }
  }

  lemma CostsAdd(cfg: Config, a: map<Key, nat>, b: map<Key, nat>, c: map<Key, nat>, m: nat, n: nat)
    requires NewCosts(cfg, a, b, m) && NewCosts(cfg, b, c, n)
    ensures NewCosts(cfg, a, c, m + n)
  {
  }

  lemma {:induction false} BranchCosts(cfg: Config, limit: nat, g: Graph, content: Content, branches: Nodes,
                                       fork: Option<nat>, join: Option<nat>)
    requires WellFormedBranches(cfg, limit, branches)
    requires fork.Some? ==> ForkAndJoin(g, content, fork, join)
    requires fork.None? ==> join.None? && branches.Cons?
    ensures var c := CompileBranches(cfg, limit, g, content, branches, fork.None?, fork, join);
            c.Compiled? && NewCosts(cfg, g.aux, c.graph.aux, CostOfList(cfg, limit, branches))
    decreases limit, branches, 0
  {
    if branches.Nil? {
    } else {
      NodeHasShape(cfg, limit, g, branches.node, true);
      NodeCosts(cfg, limit, g, branches.node, true);
      var c := CompileNode(cfg, limit, g, branches.node);
      AddBranchShape(content, g, c, fork, join);
      var r := AddBranch(content, fork.None?, c, fork, join);
      BranchCosts(cfg, limit, r.graph, content, branches.next, r.head, r.tail);
    }
  }

  // ---------------------------------------------------------------------
  // Destinations run, from the lowest rank upwards
  // ---------------------------------------------------------------------

  ghost predicate DestinationsWired(cfg: Config, p: seq<Pipe>, aux: map<Key, nat>, n: nat) {
    forall k :: k in aux ==>
      DestinationWired(cfg, p, aux, k) && Cost(cfg, cfg.Rank(k), cfg.objects[k]) <= n
  }

  lemma {:induction false} DestinationsRunBelow(cfg: Config, limit: nat, p: seq<Pipe>, g: seq<Pipe>, aux: map<Key, nat>,
                                                n: nat)
    requires Started(p, g, n) && DestinationsWired(cfg, p, aux, n)
    ensures DestinationsRun(cfg, limit, p, g, aux)
  {
    if limit == 0 {
    } else {
      DestinationsRunBelow(cfg, limit - 1, p, g, aux, n);
      forall key | key in aux && cfg.Rank(key) < limit
        ensures DestinationRuns(cfg, p, g, key, aux[key])
      {
        if cfg.Rank(key) == limit - 1 {
          OneDestinationRuns(cfg, limit - 1, p, g, aux, n, key);
        }
      }
    }
  }

  lemma OneDestinationRuns(cfg: Config, limit: nat, p: seq<Pipe>, g: seq<Pipe>, aux: map<Key, nat>, n: nat, key: Key)
    requires Context(cfg, limit, p, g, aux, n) && DestinationsWired(cfg, p, aux, n)
    requires key in aux && cfg.Rank(key) == limit
    ensures DestinationRuns(cfg, p, g, key, aux[key])
  {
    var def := cfg.objects[key];
    assert DestinationWired(cfg, p, aux, key);
    RunsEnd(cfg.behaviour, g, 0);
    assert ChainIs(p, None, NO_FLAGS, 0);
    SequenceRuns(cfg, limit, p, g, aux, n, def, Some(aux[key]), None, NO_FLAGS, false, EndOfPath, 0, 0);
    ChainOfSequence(cfg, limit, p, aux, def, Some(aux[key]), None, NO_FLAGS, false, 0);
    if def.children.Cons? {
      NoFlagsInside(cfg, limit, def.children.node);
    }
  }

  // ---------------------------------------------------------------------
  // The theorem
  // ---------------------------------------------------------------------

  /** Compilation preserves meaning.  Every well-formed log expression compiles; and for
      every message, options value, state and sufficient call depth, the initialized
      graph performs the meaning of the expression.  The traversal ends within the
      stated number of nested calls. */
  lemma CompiledRunsMeaning(cfg: Config, limit: nat, node: Node, n: nat,
                            m: LogMessage, o: LogPathOptions, st: RunState, depth: nat)
    requires WellFormed(cfg, limit, node, true) && !Headless(node)
    requires n > 0 && n >= Cost(cfg, limit, node) && depth >= Cost(cfg, limit, node)
    requires Scoped(o, |st.cells|)
    ensures var c := CompileNode(cfg, limit, EMPTY_GRAPH, node);
            && c.Compiled? && c.head.Some?
            && Queue(cfg.behaviour, InitPipes(c.graph.pipes, n), c.head.value, m, o, st, depth)
               == Perform(Bind(Meaning(cfg, limit, node, Item(m, o.flowControlRequested)), EndOfPath), o, st)
  {
    var c := CompileNode(cfg, limit, EMPTY_GRAPH, node);
    CompiledRuns(cfg, limit, node, n);
    RunsFrom(cfg, limit, InitPipes(c.graph.pipes, n), node, c.head.value, m, o, st, depth);
  }

  lemma RunsFrom(cfg: Config, limit: nat, g: seq<Pipe>, node: Node, at: nat,
                 m: LogMessage, o: LogPathOptions, st: RunState, depth: nat)
    requires Runs(cfg.behaviour, g, Some(at), Then(cfg, limit, node, false, EndOfPath), 0, Cost(cfg, limit, node))
    requires depth >= Cost(cfg, limit, node) && Scoped(o, |st.cells|)
    ensures Queue(cfg.behaviour, g, at, m, o, st, depth)
         == Perform(Bind(Meaning(cfg, limit, node, Item(m, o.flowControlRequested)), EndOfPath), o, st)
  {
    var i := Item(m, o.flowControlRequested);
    RunsAt(cfg.behaviour, g, at, Then(cfg, limit, node, false, EndOfPath), Cost(cfg, limit, node), m, o, st, depth);
    ThenMeans(cfg, limit, node, EndOfPath, i);
  }

  lemma ThenMeans(cfg: Config, limit: nat, node: Node, k: Meaningful, i: Item)
    ensures Then(cfg, limit, node, false, k)(i) == Bind(Meaning(cfg, limit, node, i), k)
  {
    assert OrFlow(i, false) == i;
  }

  lemma CompiledRuns(cfg: Config, limit: nat, node: Node, n: nat)
    requires WellFormed(cfg, limit, node, true) && !Headless(node)
    requires n > 0 && n >= Cost(cfg, limit, node)
    ensures var c := CompileNode(cfg, limit, EMPTY_GRAPH, node);
            && c.Compiled? && c.head.Some?
            && Runs(cfg.behaviour, InitPipes(c.graph.pipes, n), c.head, Then(cfg, limit, node, false, EndOfPath), 0, Cost(cfg, limit, node))
  {
    var c := CompileNode(cfg, limit, EMPTY_GRAPH, node);
    NodeHasShape(cfg, limit, EMPTY_GRAPH, node, true);
    NodeCosts(cfg, limit, EMPTY_GRAPH, node, true);
    var p, aux := c.graph.pipes, c.graph.aux;
    NodeWires(cfg, limit, EMPTY_GRAPH, node, true, p, aux, NO_FLAGS, None);
    WiredExpressionRuns(cfg, limit, p, aux, node, c.head, n);
  }

  lemma WiredExpressionRuns(cfg: Config, limit: nat, p: seq<Pipe>, aux: map<Key, nat>, node: Node, head: Option<nat>, n: nat)
    requires WellFormed(cfg, limit, node, true) && !Headless(node)
    requires Wired(cfg, limit, p, aux, node, head, None, NO_FLAGS) && DestinationsWired(cfg, p, aux, n)
    requires n > 0 && n >= Cost(cfg, limit, node)
    ensures Runs(cfg.behaviour, InitPipes(p, n), head, Then(cfg, limit, node, false, EndOfPath), 0, Cost(cfg, limit, node))
  {
    var g := InitPipes(p, n);
    DestinationsRunBelow(cfg, limit, p, g, aux, n);
    RunsEnd(cfg.behaviour, g, 0);
    assert ChainIs(p, None, NO_FLAGS, 0);
    NodeRuns(cfg, limit, p, g, aux, n, node, head, None, NO_FLAGS, true, EndOfPath, 0, 0);
  }

  // ---------------------------------------------------------------------
  // What an observer sees
  // ---------------------------------------------------------------------

  /** The deliveries among the actions, in order. */
  function Deliveries(a: seq<Action>): seq<Delivery> {
    if a == [] then []
    else (if a[0].Deliver? then [a[0].delivery] else []) + Deliveries(a[1..])
  }

  /** What is left of the matched cells after a path that matched or not. */
  function Judge(cells: seq<bool>, target: Option<nat>, matched: bool): seq<bool> {
    if target.Some? && target.value < |cells| && !matched then cells[target.value := false] else cells
  }

  lemma {:induction false} ActAllDelivers(a: seq<Action>, o: LogPathOptions, st: RunState)
    ensures var r := ActAll(a, o, st);
            && r.deliveries == st.deliveries + Deliveries(a)
            && r.acks == st.acks + (if o.ackNeeded then |Deliveries(a)| else 0)
            && r.exhausted == st.exhausted
  {
    if a == [] {
    } else {
      var rest := Deliveries(a[1..]);
      ActAllDelivers(a[1..], o, Act(a[0], o, st));
      match a[0]
      case Deliver(d) =>
        assert st.deliveries + [d] + rest == st.deliveries + ([d] + rest);
      case Emit(_) => assert [] + rest == rest;
      case Mismatch(_) => assert [] + rest == rest;
    }
  }

  lemma {:induction false} ActAllJudges(a: seq<Action>, o: LogPathOptions, st: RunState)
    requires OwnLevel(a, 0)
    ensures ActAll(a, o, st).cells == Judge(st.cells, o.matched, Matches(a))
  {
    if a == [] {
    } else {
      assert a[0] in a;
      assert forall x :: x in a[1..] ==> x in a;
      ActAllJudges(a[1..], o, Act(a[0], o, st));
      assert Matches(a) == (a[0] != Mismatch(0) && Matches(a[1..]));
    }
  }

  lemma BindEndCons(a: seq<Action>)
    requires a != []
    ensures Bind(a, EndOfPath) == (if a[0].Emit? then [] else [a[0]]) + Bind(a[1..], EndOfPath)
  {
  }

  lemma DeliveriesCons(x: Action, rest: seq<Action>)
    ensures Deliveries([x] + rest) == (if x.Deliver? then [x.delivery] else []) + Deliveries(rest)
  {
    assert ([x] + rest)[1..] == rest;
  }

  lemma {:induction false} EndKeepsDeliveries(a: seq<Action>)
    ensures Deliveries(Bind(a, EndOfPath)) == Deliveries(a)
  {
    if a == [] {
    } else {
      var rest := Bind(a[1..], EndOfPath);
      EndKeepsDeliveries(a[1..]);
      BindEndCons(a);
      if a[0].Emit? {
        assert [] + rest == rest;
        assert [] + Deliveries(a[1..]) == Deliveries(a[1..]);
      } else {
        DeliveriesCons(a[0], rest);
      }
    }
  }

  lemma {:induction false} EndKeepsMatch(a: seq<Action>)
    ensures Matches(Bind(a, EndOfPath)) == Matches(a)
  {
    if a == [] {
    } else {
      EndKeepsMatch(a[1..]);
      assert a == [a[0]] + a[1..];
      assert Bind(a, EndOfPath) == (if a[0].Emit? then [] else [a[0]]) + Bind(a[1..], EndOfPath);
    }
  }

  lemma PathObserved(a: seq<Action>, o: LogPathOptions, st: RunState)
    requires OwnLevel(a, 0)
    ensures var r := Perform(Bind(a, EndOfPath), o, st);
            && r.deliveries == st.deliveries + Deliveries(a)
            && r.cells == Judge(st.cells, o.matched, Matches(a))
            && r.acks == (if o.ackNeeded then st.acks - 1 + |Deliveries(a)| else st.acks)
            && r.exhausted == st.exhausted
  {
    EndKeepsDeliveries(a);
    EndKeepsMatch(a);
    BindLevels(a, EndOfPath, 0);
    ActAllDelivers(Bind(a, EndOfPath), o, st);
    ActAllJudges(Bind(a, EndOfPath), o, st);
  }

  /** The observable form of the theorem: the leaves receive exactly the
      deliveries of the meaning, in order and under the right flow control; the
      matched cell of the enclosing path is cleared exactly when the meaning does
      not match, and no other cell changes; and the message ends up waiting for
      one acknowledgement per delivery in place of the one it came with. */
  lemma CompiledPathObserved(cfg: Config, limit: nat, node: Node, n: nat,
                             m: LogMessage, o: LogPathOptions, st: RunState, depth: nat)
    requires WellFormed(cfg, limit, node, true) && !Headless(node)
    requires n > 0 && n >= Cost(cfg, limit, node) && depth >= Cost(cfg, limit, node)
    requires Scoped(o, |st.cells|)
    ensures var c := CompileNode(cfg, limit, EMPTY_GRAPH, node);
            c.Compiled? && c.head.Some?
            && var r := Queue(cfg.behaviour, InitPipes(c.graph.pipes, n), c.head.value, m, o, st, depth);
               var a := Meaning(cfg, limit, node, Item(m, o.flowControlRequested));
               && r.deliveries == st.deliveries + Deliveries(a)
               && r.cells == Judge(st.cells, o.matched, Matches(a))
               && r.acks == (if o.ackNeeded then st.acks - 1 + |Deliveries(a)| else st.acks)
               && r.exhausted == st.exhausted
  {
    CompiledRunsMeaning(cfg, limit, node, n, m, o, st, depth);
    var i := Item(m, o.flowControlRequested);
    JudgesOwnPath(cfg, limit, node, i);
    PathObserved(Meaning(cfg, limit, node, i), o, st);
  }
}
