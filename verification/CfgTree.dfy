/**
 The log path compiler of lib/cfg-tree.c on values: every function returns the
 pipes allocated so far together with the first and the last pipe of what it
 compiled (`outer_pipe_head`, `outer_pipe_tail`).  The class CfgTree performs
 the same steps in place and is proved to reach the same pipes.
 */
module CfgTree {
  import opened Wrappers
  import opened LogPipe
  import opened LogExpr

  /** `aux` is the first pipe of each destination compiled so far. */
  datatype Graph = Graph(pipes: seq<Pipe>, aux: map<Key, nat>)

  datatype CompileError =
    | UnresolvedReference(key: Key)
    | CyclicReference(key: Key)   // the C code would recurse for ever
    | CatchAllBelowTopLevel
    | MixedJunction               // branches with and without a first pipe
    | SourcePipe                  // a source inside an expression
    | AssertionFailed             // g_assert(last_pipe->pipe_next == NULL)
    | NullPipe                    // NULL dereference

  datatype Compiled =
    | Failed(error: CompileError)
    | Compiled(graph: Graph, head: Option<nat>, tail: Option<nat>)

  // ---------------------------------------------------------------------
  // Elementary changes
  // ---------------------------------------------------------------------

  function AddPipe(g: Graph, kind: Kind, flags: PipeFlags): Graph {
    g.(pipes := g.pipes + [Pipe(kind, flags, None)])
  }

  function AppendPipe(g: Graph, id: nat, next: nat): Graph {
    if id < |g.pipes| then g.(pipes := g.pipes[id := g.pipes[id].(next := Some(next))]) else g
  }

  function OrFlags(g: Graph, id: nat, flags: PipeFlags): Graph {
    if id < |g.pipes| then g.(pipes := g.pipes[id := g.pipes[id].(flags := g.pipes[id].flags.Or(flags))]) else g
  }

  function AddHop(g: Graph, id: nat, hop: nat): Graph {
    if id < |g.pipes| && g.pipes[id].kind.Multiplexer?
    then g.(pipes := g.pipes[id := g.pipes[id].(kind := g.pipes[id].kind.(hops := g.pipes[id].kind.hops + [hop]))])
    else g
  }

  /** The last pipe reached by following `pipe_next`, looking at most `n` links ahead. */
  function ChainEnd(p: seq<Pipe>, id: nat, n: nat): nat
    decreases n
  {
    if n == 0 || id >= |p| || p[id].next.None? then id else ChainEnd(p, p[id].next.value, n - 1)
  }

  // ---------------------------------------------------------------------
  // Sequences
  // ---------------------------------------------------------------------

  /** Adds one compiled child, entered at `head`, to the sequence built so far. */
  function Link(g: Graph, flags: PipeFlags, first: Option<nat>, last: Option<nat>, head: nat, tail: Option<nat>): Compiled {
    var g1 := if first.None? then OrFlags(g, head, flags) else g;
    if last.Some? && (last.value >= |g1.pipes| || g1.pipes[last.value].next.Some?) then
      Failed(AssertionFailed)
    else
      var g2 := if last.Some? then AppendPipe(g1, last.value, head) else g1;
      Compiled(g2,
               if first.None? && last.None? then Some(head) else first,
               Some(if tail.Some? then tail.value else ChainEnd(g2.pipes, head, |g2.pipes|)))
  }

  /** After the children: an empty sequence becomes a no-op pipe, and a destination
      leaves the `pipe_next` of its drivers alone. */
  function FinishSequence(content: Content, flags: PipeFlags, c: Compiled): Compiled {
    if c.Failed? then c
    else
      var d := if c.head.None? && c.tail.None?
               then Compiled(AddPipe(c.graph, Forwarder, flags), Some(|c.graph.pipes|), Some(|c.graph.pipes|))
               else c;
      if content == ContentDestination then d.(tail := d.head) else d
  }

  // ---------------------------------------------------------------------
  // Junctions
  // ---------------------------------------------------------------------

  /** Adds one compiled branch to a junction: fork on the left, join on the right. */
  function AddBranch(content: Content, isFirst: bool, c: Compiled, fork: Option<nat>, join: Option<nat>): Compiled {
    if c.Failed? then c
    else if c.head.Some? then
      if !isFirst && fork.None? then Failed(MixedJunction)
      else
        var g1 := if fork.None? then AddPipe(c.graph, Multiplexer([], content != ContentDestination, false), NO_FLAGS)
                  else c.graph;
        var f := if fork.None? then |c.graph.pipes| else fork.value;
        JoinBranch(AddHop(g1, f, c.head.value), c.tail, Some(f), join)
    else if fork.Some? then Failed(MixedJunction)
    else JoinBranch(c.graph, c.tail, fork, join)
  }

  function JoinBranch(g: Graph, tail: Option<nat>, fork: Option<nat>, join: Option<nat>): Compiled {
    if tail.None? then Compiled(g, fork, join)
    else
      var g1 := if join.None? then AddPipe(g, Forwarder, NO_FLAGS) else g;
      var j := if join.None? then |g.pipes| else join.value;
      Compiled(AppendPipe(g1, tail.value, j), fork, Some(j))
  }

  function FinishJunction(c: Compiled): Compiled {
    if c.Failed? || c.head.None? then c
    else if c.tail.None? then Failed(NullPipe)
    else c.(graph := OrFlags(c.graph, c.tail.value, JUNCTION_END))
  }

  // ---------------------------------------------------------------------
  // Conditionals
  // ---------------------------------------------------------------------

  /** The compiled true branch, false branch and filter of a conditional. */
  datatype Stages = Stages(thn: Compiled, els: Compiled, filter: Option<Compiled>)

  predicate HasEnds(c: Compiled) { c.Compiled? && c.head.Some? && c.tail.Some? }

  predicate Complete(s: Stages) {
    HasEnds(s.thn) && HasEnds(s.els) && (s.filter.Some? ==> HasEnds(s.filter.value))
  }

  /** New pipes after the two branches: the fork, then the join. */
  function ForkBoth(g: Graph): Graph {
    AddPipe(AddPipe(g, Multiplexer([], true, false), NO_FLAGS), Forwarder, JUNCTION_END)
  }

  /** The graph before the last step, and the first pipe of the true branch in it. */
  function BeforeClose(s: Stages): (Graph, nat)
    requires Complete(s)
  {
    if s.filter.None? then (ForkBoth(s.els.graph), s.thn.head.value)
    else (GuardBranch(s.filter.value, s.thn.head.value), s.filter.value.head.value)
  }

  function CloseStages(s: Stages): Compiled
    requires Complete(s)
  {
    var fork := |s.els.graph.pipes|;
    CloseConditional(BeforeClose(s).0, fork, fork + 1, BeforeClose(s).1,
                     s.thn.tail.value, s.els.head.value, s.els.tail.value)
  }

  /** Puts the compiled filter and the midpoint in front of the true branch. */
  function GuardBranch(f: Compiled, thnHead: nat): Graph
    requires f.Compiled? && f.tail.Some?
  {
    var mid := |f.graph.pipes|;
    var g1 := AddPipe(f.graph, Forwarder, CONDITIONAL_MIDPOINT);
    var g2 := AppendPipe(g1, f.tail.value, mid);
    AppendPipe(g2, mid, thnHead)
  }

  function CloseConditional(g: Graph, fork: nat, join: nat, thnHead: nat, thnTail: nat, elsHead: nat, elsTail: nat): Compiled {
    var g1 := AddHop(g, fork, thnHead);
    var g2 := AddHop(g1, fork, elsHead);
    var g3 := AppendPipe(g2, thnTail, join);
    Compiled(AppendPipe(g3, elsTail, join), Some(fork), Some(join))
  }

  predicate MissingEnd(c: Compiled) { c.Compiled? && (c.head.None? || c.tail.None?) }

  // ---------------------------------------------------------------------
  // The compiler
  // ---------------------------------------------------------------------

  function CompileNode(cfg: Config, limit: nat, g: Graph, node: Node): Compiled
    decreases limit, node, 1
  {
    match node
    case Single(e) =>
      Compiled(AddPipe(g, Element(e), NO_FLAGS), Some(|g.pipes|), Some(|g.pipes|))
    case Reference(key) =>
      if key !in cfg.objects then Failed(UnresolvedReference(key))
      else if cfg.Rank(key) >= limit then Failed(CyclicReference(key))
      else if key.content != ContentDestination then
        CompileNode(cfg, cfg.Rank(key), g, cfg.objects[key])
      else if key in g.aux then
        ReferTo(g, Some(g.aux[key]))
      else
        var c := CompileNode(cfg, cfg.Rank(key), g, cfg.objects[key]);
        if c.Failed? then c
        else ReferTo(if c.head.Some? then c.graph.(aux := c.graph.aux[key := c.head.value]) else c.graph, c.head)
    case Sequence(content, flags, children) =>
      if flags.catchAll then Failed(CatchAllBelowTopLevel)
      else FinishSequence(content, OfLc(flags), CompileChildren(cfg, limit, g, OfLc(flags), children, None, None))
    case Junction(content, branches) =>
      FinishJunction(CompileBranches(cfg, limit, g, content, branches, true, None, None))
    case Conditional(thn, els, filter) =>
      var t := CompileNode(cfg, limit, g, thn);
      if t.Failed? then t
      else
        var e := CompileNode(cfg, limit, t.graph, els);
        if e.Failed? then e
        else if MissingEnd(t) || MissingEnd(e) then Failed(NullPipe)
        else if filter.None? then CloseStages(Stages(t, e, None))
        else
          var f := CompileNode(cfg, limit, ForkBoth(e.graph), filter.value);
          if f.Failed? then f
          else if MissingEnd(f) then Failed(NullPipe)
          else CloseStages(Stages(t, e, Some(f)))
  }

  /** A destination reference: a multiplexer of its own towards the shared destination. */
  function ReferTo(g: Graph, head: Option<nat>): Compiled {
    var hops := if head.Some? then [head.value] else [];
    Compiled(AddPipe(g, Multiplexer(hops, false, false), NO_FLAGS), Some(|g.pipes|), None)
  }

  function CompileChildren(cfg: Config, limit: nat, g: Graph, flags: PipeFlags, children: Nodes,
                           first: Option<nat>, last: Option<nat>): Compiled
    decreases limit, children, 0
  {
    match children
    case Nil => Compiled(g, first, last)
    case Cons(n, rest) =>
      var c := CompileNode(cfg, limit, g, n);
      if c.Failed? then c
      else if c.head.Some? then
        var l := Link(c.graph, flags, first, last, c.head.value, c.tail);
        if l.Failed? then l else CompileChildren(cfg, limit, l.graph, flags, rest, l.head, l.tail)
      else if c.tail.Some? then Failed(SourcePipe)
      else CompileChildren(cfg, limit, c.graph, flags, rest, first, last)
  }

  function CompileBranches(cfg: Config, limit: nat, g: Graph, content: Content, branches: Nodes, isFirst: bool,
                           fork: Option<nat>, join: Option<nat>): Compiled
    decreases limit, branches, 0
  {
    match branches
    case Nil => Compiled(g, fork, join)
    case Cons(n, rest) =>
      var c := AddBranch(content, isFirst, CompileNode(cfg, limit, g, n), fork, join);
      if c.Failed? then c else CompileBranches(cfg, limit, c.graph, content, rest, false, c.head, c.tail)
  }

  const EMPTY_GRAPH := Graph([], map[])
}
