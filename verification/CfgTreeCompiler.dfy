/**
 The log path compiler as the source runs it: one object that accumulates pipes
 and remembers compiled destinations, loops over the children of sequences and
 junctions, and links pipes in place.  It reaches exactly the graph of the
 compiler on values, so every theorem about the latter is about this object.
 */
module CfgTreeCompiler {
  import opened Wrappers
  import opened LogPipe
  import opened LogExpr
  import opened MultiplexerInit
  import Spec = CfgTree
  import Statements = LogStatements

  /** The result of compiling one expression: success, first pipe, last pipe. */
  ghost predicate Agrees(c: Spec.Compiled, g: Spec.Graph, ok: bool, head: Option<nat>, tail: Option<nat>) {
    ok == c.Compiled? && (ok ==> c == Spec.Compiled(g, head, tail))
  }

  /** A conditional whose bodies are compiled: the filter decides whether it compiles. */
  lemma ConditionalUnfolds(cfg: Config, limit: nat, g: Spec.Graph, node: Node, t: Spec.Compiled, e: Spec.Compiled)
    requires node.Conditional? && Spec.HasEnds(t) && Spec.HasEnds(e)
    requires t == Spec.CompileNode(cfg, limit, g, node.thn) && e == Spec.CompileNode(cfg, limit, t.graph, node.els)
    ensures var c := Spec.CompileNode(cfg, limit, g, node);
            if node.filter.None? then c == Spec.CloseStages(Spec.Stages(t, e, None))
            else
              var f := Spec.CompileNode(cfg, limit, Spec.ForkBoth(e.graph), node.filter.value);
              if Spec.HasEnds(f) then c == Spec.CloseStages(Spec.Stages(t, e, Some(f))) else c.Failed?
  {
  }

  class CfgTree {
    const cfg: Config
    var pipes: seq<Pipe>
    var aux: map<Key, nat>
    var sources: map<string, nat>  // the multiplexer behind each source

    constructor (cfg: Config)
      ensures this.cfg == cfg && Front() == Statements.NEW_FRONT
    {
      this.cfg := cfg;
      pipes, aux, sources := [], map[], map[];
    }

    function Front(): Statements.Front
      reads this
    {
      Statements.Front(State(), sources)
    }

    function State(): Spec.Graph
      reads this
    {
      Spec.Graph(pipes, aux)
    }

    method NewPipe(kind: Kind, flags: PipeFlags) returns (id: nat)
      modifies this`pipes
      ensures id == |old(pipes)| && State() == Spec.AddPipe(old(State()), kind, flags)
    {
      id := |pipes|;
      pipes := pipes + [Pipe(kind, flags, None)];
    }

    method AppendPipe(id: nat, next: nat)
      modifies this`pipes
      ensures State() == Spec.AppendPipe(old(State()), id, next)
    {
      if id < |pipes| {
        pipes := pipes[id := pipes[id].(next := Some(next))];
      }
    }

    method OrFlags(id: nat, flags: PipeFlags)
      modifies this`pipes
      ensures State() == Spec.OrFlags(old(State()), id, flags)
    {
      if id < |pipes| {
        pipes := pipes[id := pipes[id].(flags := pipes[id].flags.Or(flags))];
      }
    }

    method AddNextHop(id: nat, hop: nat)
      modifies this`pipes
      ensures State() == Spec.AddHop(old(State()), id, hop)
    {
      if id < |pipes| && pipes[id].kind.Multiplexer? {
        var kind := pipes[id].kind;
        pipes := pipes[id := pipes[id].(kind := kind.(hops := kind.hops + [hop]))];
      }
    }

    /** Looks for the final pipe of a chain that left no tail. */
    method FindLastPipe(head: nat) returns (last: nat)
      ensures last == Spec.ChainEnd(pipes, head, |pipes|)
    {
      last := head;
      var left: nat := |pipes|;
      while left > 0 && last < |pipes| && pipes[last].next.Some?
        invariant Spec.ChainEnd(pipes, head, |pipes|) == Spec.ChainEnd(pipes, last, left)
        decreases left
      {
        last, left := pipes[last].next.value, left - 1;
      }
    }

    /** cfg_tree_compile_node */
    method CompileNode(limit: nat, node: Node) returns (ok: bool, head: Option<nat>, tail: Option<nat>)
      modifies this`pipes, this`aux
      ensures Agrees(Spec.CompileNode(cfg, limit, old(State()), node), State(), ok, head, tail)
      decreases limit, node, 2
    {
      match node
      case Single(e) =>
        var id := NewPipe(Element(e), NO_FLAGS);
        ok, head, tail := true, Some(id), Some(id);
      case Reference(key) => ok, head, tail := CompileReference(limit, key, node);
      case Sequence(content, flags, children) => ok, head, tail := CompileSequence(limit, node);
      case Junction(content, branches) => ok, head, tail := CompileJunction(limit, node);
      case Conditional(thn, els, filter) => ok, head, tail := CompileConditional(limit, node);
    }

    /** cfg_tree_compile_reference */
    method CompileReference(limit: nat, key: Key, ghost node: Node)
      returns (ok: bool, head: Option<nat>, tail: Option<nat>)
      requires node == Reference(key)
      modifies this`pipes, this`aux
      ensures Agrees(Spec.CompileNode(cfg, limit, old(State()), node), State(), ok, head, tail)
      decreases limit, node, 1
    {
      head, tail := None, None;
      if key !in cfg.objects || cfg.Rank(key) >= limit {
        return false, None, None;
      }
      if key.content != ContentDestination {
        ok, head, tail := CompileNode(cfg.Rank(key), cfg.objects[key]);
        return;
      }
      if key in aux {
        head := Some(aux[key]);
      } else {
        ok, head, tail := CompileNode(cfg.Rank(key), cfg.objects[key]);
        if !ok {
          return;
        }
        if head.Some? {
          aux := aux[key := head.value];
        }
      }
      var mpx := NewPipe(Multiplexer([], false, false), NO_FLAGS);
      if head.Some? {
        AddNextHop(mpx, head.value);
      }
      assert pipes[mpx].kind.hops == if head.Some? then [head.value] else [];
      ok, head, tail := true, Some(mpx), None;
    }

    /** One turn of the loop over the children of a sequence. */
    method LinkChild(flags: PipeFlags, first: Option<nat>, last: Option<nat>, subHead: nat, subTail: Option<nat>)
      returns (ok: bool, newFirst: Option<nat>, newLast: Option<nat>)
      modifies this`pipes
      ensures Agrees(Spec.Link(old(State()), flags, first, last, subHead, subTail), State(), ok, newFirst, newLast)
    {
      newFirst, newLast := first, last;
      if first.None? {
        OrFlags(subHead, flags);
        if last.None? {
          newFirst := Some(subHead);
        }
      }
      if last.Some? {
        if last.value >= |pipes| || pipes[last.value].next.Some? {
          return false, None, None;
        }
        AppendPipe(last.value, subHead);
      }
      if subTail.Some? {
        newLast := subTail;
      } else {
        var end := FindLastPipe(subHead);
        newLast := Some(end);
      }
      ok := true;
    }

    /** The loop of cfg_tree_compile_sequence over the children that are not sources. */
    method CompileChildren(limit: nat, flags: PipeFlags, children: Nodes)
      returns (ok: bool, head: Option<nat>, tail: Option<nat>)
      modifies this`pipes, this`aux
      ensures Agrees(Spec.CompileChildren(cfg, limit, old(State()), flags, children, None, None), State(), ok, head, tail)
      decreases limit, children, 3
    {
      var ep := children;
      head, tail := None, None;
      ghost var all := Spec.CompileChildren(cfg, limit, State(), flags, ep, None, None);
      while ep.Cons?
        invariant ep == children || ep < children
        invariant all == Spec.CompileChildren(cfg, limit, State(), flags, ep, head, tail)
        decreases ep
      {
        var done, subHead, subTail := CompileNode(limit, ep.node);
        if !done {
          return false, None, None;
        }
        if subHead.Some? {
          done, head, tail := LinkChild(flags, head, tail, subHead.value, subTail);
          if !done {
            return false, None, None;
          }
        } else if subTail.Some? {
          return false, None, None;
        }
        ep := ep.next;
      }
      ok := true;
    }

    /** cfg_tree_compile_sequence */
    method CompileSequence(limit: nat, node: Node) returns (ok: bool, head: Option<nat>, tail: Option<nat>)
      requires node.Sequence?
      modifies this`pipes, this`aux
      ensures Agrees(Spec.CompileNode(cfg, limit, old(State()), node), State(), ok, head, tail)
      decreases limit, node, 1
    {
      if node.flags.catchAll {
        return false, None, None;
      }
      var flags := OfLc(node.flags);
      ok, head, tail := CompileChildren(limit, flags, node.children);
      if !ok {
        return;
      }
      if head.None? && tail.None? {
        var noop := NewPipe(Forwarder, flags);
        head, tail := Some(noop), Some(noop);
      }
      if node.content == ContentDestination {
        tail := head;
      }
      ok := true;
    }

    /** cfg_tree_compile_junction */
    method CompileJunction(limit: nat, node: Node) returns (ok: bool, head: Option<nat>, tail: Option<nat>)
      requires node.Junction?
      modifies this`pipes, this`aux
      ensures Agrees(Spec.CompileNode(cfg, limit, old(State()), node), State(), ok, head, tail)
      decreases limit, node, 1
    {
      var ep, isFirst := node.branches, true;
      head, tail := None, None;
      ghost var all := Spec.CompileBranches(cfg, limit, State(), node.jcontent, ep, true, None, None);
      while ep.Cons?
        invariant ep == node.branches || ep < node
        invariant all == Spec.CompileBranches(cfg, limit, State(), node.jcontent, ep, isFirst, head, tail)
        decreases ep
      {
        var done, subHead, subTail := CompileNode(limit, ep.node);
        if !done {
          return false, None, None;
        }
        done, head, tail := AddBranch(node.jcontent, isFirst, subHead, subTail, head, tail);
        if !done {
          return false, None, None;
        }
        ep, isFirst := ep.next, false;
      }
      if head.Some? {
        if tail.None? {
          return false, None, None;
        }
        OrFlags(tail.value, JUNCTION_END);
      }
      ok := true;
    }

    /** One turn of the loop over the branches of a junction. */
    method AddBranch(content: Content, isFirst: bool, subHead: Option<nat>, subTail: Option<nat>,
                     fork: Option<nat>, join: Option<nat>)
      returns (ok: bool, newFork: Option<nat>, newJoin: Option<nat>)
      modifies this`pipes
      ensures Agrees(Spec.AddBranch(content, isFirst, Spec.Compiled(old(State()), subHead, subTail), fork, join),
                     State(), ok, newFork, newJoin)
    {
      newFork, newJoin := fork, join;
      if subHead.Some? {
        if !isFirst && fork.None? {
          return false, None, None;
        }
        if fork.None? {
          var mpx := NewPipe(Multiplexer([], content != ContentDestination, false), NO_FLAGS);
          newFork := Some(mpx);
        }
        AddNextHop(newFork.value, subHead.value);
      } else if fork.Some? {
        return false, None, None;
      }
      if subTail.Some? {
        if join.None? {
          var end := NewPipe(Forwarder, NO_FLAGS);
          newJoin := Some(end);
        }
        AppendPipe(subTail.value, newJoin.value);
      }
      ok := true;
    }

    /** cfg_tree_compile_conditional: the true branch, then the false branch. */
    method CompileBodies(limit: nat, node: Node)
      returns (ok: bool, trueHead: nat, trueTail: nat, falseHead: nat, falseTail: nat, ghost t: Spec.Compiled)
      requires node.Conditional?
      modifies this`pipes, this`aux
      ensures !ok ==> Spec.CompileNode(cfg, limit, old(State()), node).Failed?
      ensures ok ==> t == Spec.CompileNode(cfg, limit, old(State()), node.thn)
                     && t.Compiled? && t == Spec.Compiled(t.graph, Some(trueHead), Some(trueTail))
                     && Spec.CompileNode(cfg, limit, t.graph, node.els)
                        == Spec.Compiled(State(), Some(falseHead), Some(falseTail))
      decreases limit, node, 0
    {
      trueHead, trueTail, falseHead, falseTail := 0, 0, 0, 0;
      var done, head, tail := CompileNode(limit, node.thn);
      t := Spec.Compiled(State(), head, tail);
      if !done {
        ok := false;
        return;
      }
      var head1, tail1;
      done, head1, tail1 := CompileNode(limit, node.els);
      ok := done && head.Some? && tail.Some? && head1.Some? && tail1.Some?;
      if ok {
        trueHead, trueTail, falseHead, falseTail := head.value, tail.value, head1.value, tail1.value;
      }
    }

    /** cfg_tree_compile_conditional: the filter, if there is one, with its midpoint in
        front of the true branch. */
    method CompileCondition(limit: nat, node: Node, trueHead: nat)
      returns (ok: bool, head: nat, ghost filter: Option<Spec.Compiled>)
      requires node.Conditional?
      modifies this`pipes, this`aux
      ensures node.filter.None? ==> ok && filter.None? && head == trueHead && State() == old(State())
      ensures node.filter.Some? ==>
                var f := Spec.CompileNode(cfg, limit, old(State()), node.filter.value);
                && ok == Spec.HasEnds(f)
                && (ok ==> filter == Some(f) && Some(head) == f.head && State() == Spec.GuardBranch(f, trueHead))
      decreases limit, node, 0
    {
      ok, head, filter := true, trueHead, None;
      if node.filter.Some? {
        var filterHead, filterTail;
        ok, filterHead, filterTail := CompileNode(limit, node.filter.value);
        ok := ok && filterHead.Some? && filterTail.Some?;
        if ok {
          filter := Some(Spec.Compiled(State(), filterHead, filterTail));
          head := filterHead.value;
          Guard(head, filterTail.value, trueHead);
        }
      }
    }

    /** cfg_tree_compile_conditional */
    method CompileConditional(limit: nat, node: Node) returns (ok: bool, head: Option<nat>, tail: Option<nat>)
      requires node.Conditional?
      modifies this`pipes, this`aux
      ensures Agrees(Spec.CompileNode(cfg, limit, old(State()), node), State(), ok, head, tail)
      decreases limit, node, 1
    {
      ghost var t;
      var done, trueHead, trueTail, falseHead, falseTail;
      done, trueHead, trueTail, falseHead, falseTail, t := CompileBodies(limit, node);
      if !done {
        return false, None, None;
      }
      ghost var e := Spec.Compiled(State(), Some(falseHead), Some(falseTail));
      var fork := NewPipe(Multiplexer([], true, false), NO_FLAGS);
      var join := NewPipe(Forwarder, JUNCTION_END);
      ghost var filter;
      done, trueHead, filter := CompileCondition(limit, node, trueHead);
      ConditionalUnfolds(cfg, limit, old(State()), node, t, e);
      if !done {
        return false, None, None;
      }
      assert Spec.BeforeClose(Spec.Stages(t, e, filter)) == (State(), trueHead);
      Close(fork, join, trueHead, trueTail, falseHead, falseTail);
      return true, Some(fork), Some(join);
    }

    /** The filter and the midpoint in front of the true branch. */
    method Guard(filterHead: nat, filterTail: nat, trueHead: nat)
      modifies this`pipes
      ensures State() == Spec.GuardBranch(Spec.Compiled(old(State()), Some(filterHead), Some(filterTail)), trueHead)
    {
      var midpoint := NewPipe(Forwarder, CONDITIONAL_MIDPOINT);
      AppendPipe(filterTail, midpoint);
      AppendPipe(midpoint, trueHead);
    }

    /** Both branches between fork and join. */
    method Close(fork: nat, join: nat, trueHead: nat, trueTail: nat, falseHead: nat, falseTail: nat)
      modifies this`pipes
      ensures Spec.CloseConditional(old(State()), fork, join, trueHead, trueTail, falseHead, falseTail)
           == Spec.Compiled(State(), Some(fork), Some(join))
    {
      AddNextHop(fork, trueHead);
      AddNextHop(fork, falseHead);
      AppendPipe(trueTail, join);
      AppendPipe(falseTail, join);
    }

    // -------------------------------------------------------------------
    // Log statements with sources
    // -------------------------------------------------------------------

    /** The source part of cfg_tree_compile_reference. */
    method AttachSource(name: string) returns (attach: nat)
      modifies this`pipes, this`sources
      ensures attach == |old(pipes)| && Front() == Statements.Attach(old(Front()), name)
    {
      attach := NewPipe(Forwarder, NO_FLAGS);
      if name !in sources {
        var mpx := NewPipe(Multiplexer([], true, false), NO_FLAGS);
        sources := sources[name := mpx];
      }
      AddNextHop(sources[name], attach);
    }

    /** The loop of cfg_tree_compile_sequence over the source references. */
    method AttachSources(names: seq<string>) returns (join: Option<nat>)
      modifies this`pipes, this`sources
      ensures Statements.Attached(Front(), join) == Statements.AttachAll(old(Front()), names, None)
    {
      join := None;
      var k := 0;
      ghost var all := Statements.AttachAll(Front(), names, None);
      while k < |names|
        invariant 0 <= k <= |names| && all == Statements.AttachAll(Front(), names[k..], join)
      {
        assert names[k..][1..] == names[k + 1..];
        var attach := AttachSource(names[k]);
        if join.None? {
          var pipe := NewPipe(Forwarder, NO_FLAGS);
          join := Some(pipe);
        }
        AppendPipe(attach, join.value);
        k := k + 1;
      }
    }

    /** A top level log statement. */
    method CompileStatement(limit: nat, s: Statements.LogStatement) returns (ok: bool)
      modifies this`pipes, this`aux, this`sources
      ensures var r := Statements.CompileStatement(cfg, limit, old(Front()), s);
              ok == r.StatementCompiled? && (ok ==> r.front == Front())
    {
      if s.flags.catchAll {
        return false;
      }
      var flags := OfLc(s.flags);
      var join := AttachSources(s.sources);
      var head, tail;
      ok, head, tail := CompileChildren(limit, flags, s.children);
      if !ok {
        return;
      }
      if join.None? {
        if head.None? && tail.None? {
          var _ := NewPipe(Forwarder, flags);
        }
      } else if head.None? {
        OrFlags(join.value, flags);
      } else {
        AppendPipe(join.value, head.value);
      }
    }

    /** cfg_tree_compile */
    method CompileStatements(limit: nat, statements: seq<Statements.LogStatement>) returns (ok: bool)
      modifies this`pipes, this`aux, this`sources
      ensures var r := Statements.CompileStatements(cfg, limit, old(Front()), statements);
              ok == r.StatementCompiled? && (ok ==> r.front == Front())
    {
      var k := 0;
      ghost var all := Statements.CompileStatements(cfg, limit, Front(), statements);
      while k < |statements|
        invariant 0 <= k <= |statements|
        invariant all == Statements.CompileStatements(cfg, limit, Front(), statements[k..])
      {
        assert statements[k..][1..] == statements[k + 1..];
        ok := CompileStatement(limit, statements[k]);
        if !ok {
          return;
        }
        k := k + 1;
      }
      ok := true;
    }

    // -------------------------------------------------------------------
    // Initialization
    // -------------------------------------------------------------------

    /** The inner loop of log_multiplexer_init: walks along the branch and collects
        its flags into the first pipe, while other pipes may be collected already. */
    method CollectBranchFlags(head: nat, ghost g: seq<Pipe>, ghost n: nat)
      requires PartlyCollected(g, pipes, n) && ChainsEnd(g, n) && head < |g|
      modifies this`pipes
      ensures pipes == old(pipes)[head := old(pipes)[head].(flags := Collected(g, head, n))]
    {
      ghost var before := pipes;
      ghost var k: nat := n;
      var p: Option<nat> := Some(head);
      while p.Some? && p.value < |pipes|
        invariant k <= n && ChainEnds(g, p, k) && |pipes| == |before|
        invariant pipes == before[head := before[head].(flags := pipes[head].flags)]
        invariant pipes[head].flags.Or(g[head].flags) == pipes[head].flags
        invariant pipes[head].flags.Or(ChainFlags(g, p, k)) == before[head].flags.Or(ChainFlags(g, Some(head), n))
        decreases k
      {
        WalkStep(g, pipes[p.value].flags, p.value, k, n, pipes[head].flags);
        pipes := pipes[head := pipes[head].(flags := pipes[head].flags.Or(pipes[p.value].flags.Branch()))];
        p, k := pipes[p.value].next, k - 1;
      }
    }

    /** One turn of the outer loop of log_multiplexer_init. */
    method InitHop(id: nat, head: nat, ghost g: seq<Pipe>, ghost n: nat, ghost i: nat)
      requires ChainsEnd(g, n) && n > 0 && id < |g| && g[id].kind.Multiplexer? && InProgress(g, pipes, id, i, n)
      requires i < |g[id].kind.hops| && head == g[id].kind.hops[i] && head < |g|
      modifies this`pipes
      ensures InProgress(g, pipes, id, i + 1, n)
    {
      ghost var before := pipes;
      ProgressIsPartial(g, pipes, id, i, n);
      CollectBranchFlags(head, g, n);
      if pipes[head].flags.branchFallback {
        pipes := pipes[id := pipes[id].(kind := pipes[id].kind.(fallbackExists := true))];
      }
      NextHop(g, before, pipes, id, i, n, head);
    }

    /** log_multiplexer_init */
    method InitMultiplexer(id: nat, ghost g: seq<Pipe>, ghost n: nat)
      requires ChainsEnd(g, n) && n > 0 && id < |g| && g[id].kind.Multiplexer? && InProgress(g, pipes, id, 0, n)
      modifies this`pipes
      ensures InProgress(g, pipes, id, |g[id].kind.hops|, n)
    {
      var hops := pipes[id].kind.hops;
      var i := 0;
      while i < |hops|
        invariant 0 <= i <= |hops| && hops == g[id].kind.hops && |pipes| == |g|
        invariant InProgress(g, pipes, id, i, n)
      {
        if hops[i] >= |pipes| {
          SkipHop(g, pipes, id, i, n);
        } else {
          InitHop(id, hops[i], g, n, i);
        }
        i := i + 1;
      }
    }

    /** cfg_tree_start: every pipe is initialized, in the order of creation. */
    method Start(ghost n: nat)
      requires ChainsEnd(pipes, n) && n > 0
      modifies this`pipes
      ensures pipes == InitPipes(old(pipes), n)
    {
      ghost var g := pipes;
      StartProgress(g, n);
      var i := 0;
      while i < |pipes|
        invariant 0 <= i <= |pipes| == |g|
        invariant InProgress(g, pipes, i, 0, n)
      {
        if pipes[i].kind.Multiplexer? {
          InitMultiplexer(i, g, n);
        }
        NextMultiplexer(g, pipes, i, n);
        i := i + 1;
      }
      EndProgress(g, pipes, n);
    }
  }
}
