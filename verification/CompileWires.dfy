/**
 Compilation wires the graph like the expression.  The graph `p` is the final
 one: compiled regions reappear in it unchanged, except that the first pipe may
 have gained flags and the open end has been linked to what follows.
 */
module CompileWires {
  import opened Wrappers
  import opened LogPipe
  import opened LogExpr
  import opened CfgTree
  import opened CompileShape
  import opened Wiring

  function Patch(x: Pipe, isHead: bool, extra: PipeFlags, isOpen: bool, next: Option<nat>): Pipe {
    Pipe(x.kind, if isHead then x.flags.Or(extra) else x.flags, if isOpen then next else x.next)
  }

  /** The pipes of `g` from `lo` on are in `p`, up to the patches. */
  ghost predicate Fits(lo: nat, g: Graph, p: seq<Pipe>, head: Option<nat>, extra: PipeFlags,
                       open: Option<nat>, next: Option<nat>) {
    && |g.pipes| <= |p|
    && forall i :: lo <= i < |g.pipes| ==>
         p[i] == Patch(g.pipes[i], head == Some(i), extra, open == Some(i), next)
  }

  ghost predicate SubAux(a: map<Key, nat>, aux: map<Key, nat>) {
    forall k :: k in a ==> k in aux && aux[k] == a[k]
  }

  /** A destination is wired once, and nothing follows it. */
  ghost predicate DestinationWired(cfg: Config, p: seq<Pipe>, aux: map<Key, nat>, key: Key) {
    && key in aux && key in cfg.objects && key.content == ContentDestination
    && WellFormedObject(key, cfg.objects[key])
    && WellFormedList(cfg, cfg.Rank(key), cfg.objects[key].children, false)
    && Wired(cfg, cfg.Rank(key), p, aux, cfg.objects[key], Some(aux[key]), None, NO_FLAGS)
  }

  ghost predicate NewDestinationsWired(cfg: Config, p: seq<Pipe>, aux: map<Key, nat>, a: map<Key, nat>, a': map<Key, nat>) {
    forall k :: k in a' && k !in a ==> DestinationWired(cfg, p, aux, k)
  }

  lemma DestinationsAdd(cfg: Config, p: seq<Pipe>, aux: map<Key, nat>, a: map<Key, nat>, b: map<Key, nat>, c: map<Key, nat>)
    requires NewDestinationsWired(cfg, p, aux, a, b) && NewDestinationsWired(cfg, p, aux, b, c)
    ensures NewDestinationsWired(cfg, p, aux, a, c)
  {
  }

  lemma WiredCons(cfg: Config, limit: nat, p: seq<Pipe>, aux: map<Key, nat>, nodes: Nodes, entry: Option<nat>,
                  middle: Option<nat>, next: Option<nat>, extra: PipeFlags)
    requires nodes.Cons? && !Headless(nodes.node)
    requires Wired(cfg, limit, p, aux, nodes.node, entry, middle, extra)
    requires WiredList(cfg, limit, p, aux, nodes.next, middle, next, NO_FLAGS)
    ensures WiredList(cfg, limit, p, aux, nodes, entry, next, extra)
  {
  }

  lemma {:induction false} NodeWires(cfg: Config, limit: nat, g: Graph, node: Node, atHead: bool, p: seq<Pipe>,
                                     aux: map<Key, nat>, extra: PipeFlags, next: Option<nat>)
    requires WellFormed(cfg, limit, node, atHead) && !Headless(node)
    requires var c := CompileNode(cfg, limit, g, node);
             NodeShape(cfg, limit, g, node, c)
             && Fits(|g.pipes|, c.graph, p, c.head, extra, OpenEnd(c), next) && SubAux(c.graph.aux, aux)
    ensures var c := CompileNode(cfg, limit, g, node);
            Wired(cfg, limit, p, aux, node, c.head, next, extra)
            && NewDestinationsWired(cfg, p, aux, g.aux, c.graph.aux)
    decreases limit, node, 5
  {
    match node
    case Single(_) =>
    case Reference(key) =>
      if key.content == ContentDestination {
        DestinationReferenceWires(cfg, limit, g, node, p, aux, extra, next);
      } else {
        var def := cfg.objects[key];
        SequenceHasShape(cfg, cfg.Rank(key), g, OfLc(def.flags), def.children, false);
        SequenceWires(cfg, cfg.Rank(key), g, def, false, p, aux, extra, next);
      }
    case Sequence(_, flags, children) =>
      SequenceHasShape(cfg, limit, g, OfLc(flags), children, atHead);
      SequenceWires(cfg, limit, g, node, atHead, p, aux, extra, next);
    case Junction(_, _) => JunctionWires(cfg, limit, g, node, p, aux, extra, next);
    case Conditional(_, _, _) => ConditionalWires(cfg, limit, g, node, p, aux, extra, next);
  }

  lemma {:induction false} DestinationReferenceWires(cfg: Config, limit: nat, g: Graph, node: Node, p: seq<Pipe>,
                                                     aux: map<Key, nat>, extra: PipeFlags, next: Option<nat>)
    requires node.Reference? && node.key.content == ContentDestination && WellFormed(cfg, limit, node, false)
    requires var c := CompileNode(cfg, limit, g, node);
             NodeShape(cfg, limit, g, node, c)
             && Fits(|g.pipes|, c.graph, p, c.head, extra, OpenEnd(c), next) && SubAux(c.graph.aux, aux)
    ensures var c := CompileNode(cfg, limit, g, node);
            Wired(cfg, limit, p, aux, node, c.head, next, extra)
            && NewDestinationsWired(cfg, p, aux, g.aux, c.graph.aux)
    decreases limit, node, 2
  {
    if node.key !in g.aux {
      NewDestinationWires(cfg, limit, g, node, p, aux, extra, next);
    }
  }

  /** The region of a freshly compiled destination: closed, and in front of the
      multiplexer that refers to it. */
  lemma DestinationFits(cfg: Config, limit: nat, g: Graph, s: Compiled, c: Compiled, p: seq<Pipe>, extra: PipeFlags,
                        next: Option<nat>)
    requires SequenceShape(cfg, limit, g, s) && c.Compiled?
    requires |c.graph.pipes| == |s.graph.pipes| + 1 && c.graph.pipes[..|s.graph.pipes|] == s.graph.pipes
    requires c.head == Some(|s.graph.pipes|) && OpenEnd(c) == c.head
    requires Fits(|g.pipes|, c.graph, p, c.head, extra, OpenEnd(c), next)
    ensures Fits(|g.pipes|, s.graph, p, s.head, NO_FLAGS, s.tail, None)
  {
    forall i | |g.pipes| <= i < |s.graph.pipes|
      ensures p[i] == Patch(s.graph.pipes[i], s.head == Some(i), NO_FLAGS, s.tail == Some(i), None)
    {
      assert s.graph.pipes[i] == c.graph.pipes[i];
    }
  }

  lemma {:induction false} NewDestinationWires(cfg: Config, limit: nat, g: Graph, node: Node, p: seq<Pipe>,
                                               aux: map<Key, nat>, extra: PipeFlags, next: Option<nat>)
    requires node.Reference? && node.key.content == ContentDestination && WellFormed(cfg, limit, node, false)
    requires node.key !in g.aux
    requires var c := CompileNode(cfg, limit, g, node);
             NodeShape(cfg, limit, g, node, c)
             && Fits(|g.pipes|, c.graph, p, c.head, extra, OpenEnd(c), next) && SubAux(c.graph.aux, aux)
    ensures var c := CompileNode(cfg, limit, g, node);
            Wired(cfg, limit, p, aux, node, c.head, next, extra)
            && NewDestinationsWired(cfg, p, aux, g.aux, c.graph.aux)
    decreases limit, node, 1
  {
    var key := node.key;
    var rank, def := cfg.Rank(key), cfg.objects[key];
    SequenceHasShape(cfg, rank, g, OfLc(def.flags), def.children, false);
    var s := CompileSequence(cfg, rank, g, OfLc(def.flags), def.children);
    var c := CompileNode(cfg, limit, g, node);
    assert CompileNode(cfg, rank, g, def) == s.(tail := s.head);
    assert c == ReferTo(s.graph.(aux := s.graph.aux[key := s.head.value]), s.head);
    DestinationFits(cfg, rank, g, s, c, p, extra, next);
    assert key !in s.graph.aux;
    SequenceWires(cfg, rank, g, def, false, p, aux, NO_FLAGS, None);
    assert DestinationWired(cfg, p, aux, key);
  }

  lemma {:induction false} SequenceWires(cfg: Config, limit: nat, g: Graph, node: Node, atHead: bool, p: seq<Pipe>,
                                         aux: map<Key, nat>, extra: PipeFlags, next: Option<nat>)
    requires node.Sequence? && WellFormedList(cfg, limit, node.children, atHead)
    requires var s := CompileSequence(cfg, limit, g, OfLc(node.flags), node.children);
             SequenceShape(cfg, limit, g, s)
             && Fits(|g.pipes|, s.graph, p, s.head, extra, s.tail, next) && SubAux(s.graph.aux, aux)
    ensures var s := CompileSequence(cfg, limit, g, OfLc(node.flags), node.children);
            Wired(cfg, limit, p, aux, node, s.head, next, extra)
            && NewDestinationsWired(cfg, p, aux, g.aux, s.graph.aux)
    decreases limit, node, 1
  {
    var flags := OfLc(node.flags);
    ChildrenHaveShape(cfg, limit, g, flags, node.children, None, None, atHead);
    if !AllHeadless(node.children) {
      ChildrenWire(cfg, limit, g, flags, node.children, None, None, atHead, p, aux, extra, next);
    }
  }

  lemma {:induction false} ChildrenWire(cfg: Config, limit: nat, g: Graph, flags: PipeFlags, children: Nodes,
                                        first: Option<nat>, last: Option<nat>, atHead: bool, p: seq<Pipe>,
                                        aux: map<Key, nat>, extra: PipeFlags, next: Option<nat>)
    requires WellFormedList(cfg, limit, children, atHead) && SoFar(g, first, last)
    requires last.None? ==> !AllHeadless(children)
    requires var c := CompileChildren(cfg, limit, g, flags, children, first, last);
             && ChildrenShape(cfg, limit, g, children, first, last, c)
             && Fits(|g.pipes|, c.graph, p, c.head, extra, c.tail, next) && SubAux(c.graph.aux, aux)
             && (last.Some? ==> p[last.value].next == if c.tail == last then next else c.graph.pipes[last.value].next)
    ensures var c := CompileChildren(cfg, limit, g, flags, children, first, last);
            && WiredList(cfg, limit, p, aux, children, if last.Some? then p[last.value].next else c.head, next,
                         if last.Some? then NO_FLAGS else extra.Or(flags))
            && NewDestinationsWired(cfg, p, aux, g.aux, c.graph.aux)
    decreases limit, children, 1
  {
    if children.Nil? {
    } else {
      if Headless(children.node) {
        assert CompileNode(cfg, limit, g, children.node) == Compiled(g, None, None);
        ChildrenWire(cfg, limit, g, flags, children.next, first, last, false, p, aux, extra, next);
      } else {
        FirstChildWires(cfg, limit, g, flags, children, first, last, atHead, p, aux, extra, next);
      }
    }
  }

  /** The child `c1` was compiled into `g` and linked, the result is `l`, and `c` is the
      compiled sequence. */
  ghost predicate ChildParts(g: Graph, c1: Compiled, l: Graph, c: Compiled, flags: PipeFlags, first: Option<nat>,
                             last: Option<nat>) {
    && c1.Compiled? && SameBut(g, c1.graph, None) && SoFar(g, first, last)
    && IsNew(g, c1.graph, c1.head) && IsNew(g, c1.graph, OpenEnd(c1)) && IsOpen(c1.graph, OpenEnd(c1))
    && Linked(c1.graph, l, flags, first, last, c1.head.value)
    && c.Compiled? && SameBut(l, c.graph, OpenEnd(c1)) && (c.tail == OpenEnd(c1) || IsNew(l, c.graph, c.tail))
    && c.graph.pipes[OpenEnd(c1).value].(next := None) == l.pipes[OpenEnd(c1).value].(next := None)
    && c.head == if first.None? then c1.head else first
  }

  /** The region of the first child inside the final graph. */
  lemma FirstFits(g: Graph, c1: Compiled, l: Graph, c: Compiled, flags: PipeFlags, first: Option<nat>, last: Option<nat>,
                  p: seq<Pipe>, extra: PipeFlags, next: Option<nat>)
    requires ChildParts(g, c1, l, c, flags, first, last) && Fits(|g.pipes|, c.graph, p, c.head, extra, c.tail, next)
    ensures Fits(|g.pipes|, c1.graph, p, c1.head, if last.Some? then NO_FLAGS else extra.Or(flags), OpenEnd(c1),
                 p[OpenEnd(c1).value].next)
  {
    forall i | |g.pipes| <= i < |c1.graph.pipes|
      ensures p[i] == Patch(c1.graph.pipes[i], c1.head == Some(i), if last.Some? then NO_FLAGS else extra.Or(flags),
                            OpenEnd(c1) == Some(i), p[OpenEnd(c1).value].next)
    {
      FirstFitsAt(g, c1, l, c, flags, first, last, p, extra, next, i);
    }
  }

  lemma FirstFitsAt(g: Graph, c1: Compiled, l: Graph, c: Compiled, flags: PipeFlags, first: Option<nat>, last: Option<nat>,
                    p: seq<Pipe>, extra: PipeFlags, next: Option<nat>, i: nat)
    requires ChildParts(g, c1, l, c, flags, first, last) && Fits(|g.pipes|, c.graph, p, c.head, extra, c.tail, next)
    requires |g.pipes| <= i < |c1.graph.pipes|
    ensures p[i] == Patch(c1.graph.pipes[i], c1.head == Some(i), if last.Some? then NO_FLAGS else extra.Or(flags),
                          OpenEnd(c1) == Some(i), p[OpenEnd(c1).value].next)
  {
    var x, y, z := c1.graph.pipes[i], l.pipes[i], c.graph.pipes[i];
    assert y == Pipe(x.kind, if first.None? && i == c1.head.value then x.flags.Or(flags) else x.flags, x.next);
    assert OpenEnd(c1) != Some(i) ==> z == y;
    assert z.kind == x.kind && z.flags == y.flags;
    assert p[i] == Patch(z, c.head == Some(i), extra, c.tail == Some(i), next);
    OrSwaps(x.flags, flags, extra);
  }

  lemma OrSwaps(a: PipeFlags, b: PipeFlags, c: PipeFlags)
    ensures a.Or(b).Or(c) == a.Or(c.Or(b)) && a.Or(NO_FLAGS) == a
  {
  }

  lemma RestFits(g: Graph, c1: Compiled, l: Graph, c: Compiled, flags: PipeFlags, first: Option<nat>, last: Option<nat>,
                 p: seq<Pipe>, extra: PipeFlags, next: Option<nat>)
    requires ChildParts(g, c1, l, c, flags, first, last) && Fits(|g.pipes|, c.graph, p, c.head, extra, c.tail, next)
    ensures Fits(|l.pipes|, c.graph, p, c.head, extra, c.tail, next)
    ensures p[OpenEnd(c1).value].next
            == if c.tail == OpenEnd(c1) then next else c.graph.pipes[OpenEnd(c1).value].next
    ensures last.Some? ==> c.graph.pipes[last.value].next == c1.head
  {
  }

  /** Compiling a sequence of at least one child with a head. */
  lemma {:induction false} ChildrenUnfold(cfg: Config, limit: nat, g: Graph, flags: PipeFlags, children: Nodes,
                                          first: Option<nat>, last: Option<nat>, atHead: bool)
    returns (c1: Compiled, l: Compiled, c: Compiled)
    requires children.Cons? && !Headless(children.node)
    requires WellFormedList(cfg, limit, children, atHead) && SoFar(g, first, last)
    ensures c1 == CompileNode(cfg, limit, g, children.node) && NodeShape(cfg, limit, g, children.node, c1)
    ensures l.Compiled? && SoFar(l.graph, l.head, l.tail) && l.tail == OpenEnd(c1) && l.graph.aux == c1.graph.aux
    ensures c == CompileChildren(cfg, limit, l.graph, flags, children.next, l.head, l.tail)
    ensures ChildrenShape(cfg, limit, l.graph, children.next, l.head, l.tail, c)
    ensures c == CompileChildren(cfg, limit, g, flags, children, first, last)
    ensures ChildParts(g, c1, l.graph, c, flags, first, last)
  {
    NodeHasShape(cfg, limit, g, children.node, atHead);
    c1 := CompileNode(cfg, limit, g, children.node);
    LinkShape(g, c1.graph, flags, first, last, c1.head.value, c1.tail);
    l := Link(c1.graph, flags, first, last, c1.head.value, c1.tail);
    ChildrenHaveShape(cfg, limit, l.graph, flags, children.next, l.head, l.tail, false);
    c := CompileChildren(cfg, limit, l.graph, flags, children.next, l.head, l.tail);
  }

  lemma {:induction false} FirstChildWires(cfg: Config, limit: nat, g: Graph, flags: PipeFlags, children: Nodes,
                                           first: Option<nat>, last: Option<nat>, atHead: bool, p: seq<Pipe>,
                                           aux: map<Key, nat>, extra: PipeFlags, next: Option<nat>)
    requires children.Cons? && !Headless(children.node)
    requires WellFormedList(cfg, limit, children, atHead) && SoFar(g, first, last)
    requires var c := CompileChildren(cfg, limit, g, flags, children, first, last);
             && ChildrenShape(cfg, limit, g, children, first, last, c)
             && Fits(|g.pipes|, c.graph, p, c.head, extra, c.tail, next) && SubAux(c.graph.aux, aux)
             && (last.Some? ==> p[last.value].next == if c.tail == last then next else c.graph.pipes[last.value].next)
    ensures var c := CompileChildren(cfg, limit, g, flags, children, first, last);
            && WiredList(cfg, limit, p, aux, children, if last.Some? then p[last.value].next else c.head, next,
                         if last.Some? then NO_FLAGS else extra.Or(flags))
            && NewDestinationsWired(cfg, p, aux, g.aux, c.graph.aux)
    decreases limit, children, 0
  {
    var c1, l, c := ChildrenUnfold(cfg, limit, g, flags, children, first, last, atHead);
    FirstFits(g, c1, l.graph, c, flags, first, last, p, extra, next);
    RestFits(g, c1, l.graph, c, flags, first, last, p, extra, next);
    ChildrenWire(cfg, limit, l.graph, flags, children.next, l.head, l.tail, false, p, aux, extra, next);
    var middle := p[OpenEnd(c1).value].next;
    var own := if last.Some? then NO_FLAGS else extra.Or(flags);
    NodeWires(cfg, limit, g, children.node, atHead, p, aux, own, middle);
    WiredCons(cfg, limit, p, aux, children, c1.head, middle, next, own);
    DestinationsAdd(cfg, p, aux, g.aux, c1.graph.aux, c.graph.aux);
  }

  // ---------------------------------------------------------------------
  // Junctions
  // ---------------------------------------------------------------------

  ghost predicate FitsBut(lo: nat, g: Graph, p: seq<Pipe>, fork: Option<nat>, join: Option<nat>) {
    && |g.pipes| <= |p|
    && forall i :: lo <= i < |g.pipes| && fork != Some(i) && join != Some(i) ==> p[i] == g.pipes[i]
  }

  lemma {:induction false} BranchesWire(cfg: Config, limit: nat, g: Graph, content: Content, branches: Nodes,
                                        fork: Option<nat>, join: Option<nat>, p: seq<Pipe>, aux: map<Key, nat>)
    requires WellFormedBranches(cfg, limit, branches)
    requires fork.Some? ==> ForkAndJoin(g, content, fork, join)
    requires fork.None? ==> join.None? && branches.Cons?
    requires var c := CompileBranches(cfg, limit, g, content, branches, fork.None?, fork, join);
             BranchesShape(cfg, limit, g, content, fork, join, c)
             && FitsBut(|g.pipes|, c.graph, p, c.head, c.tail) && SubAux(c.graph.aux, aux)
    ensures var c := CompileBranches(cfg, limit, g, content, branches, fork.None?, fork, join);
            && WiredBranches(cfg, limit, p, aux, branches,
                             HopsSoFar(c.graph, c.head)[|HopsSoFar(g, fork)|..], c.tail.value)
            && NewDestinationsWired(cfg, p, aux, g.aux, c.graph.aux)
    decreases limit, branches, 1
  {
    if branches.Nil? {
    } else {
      FirstBranchWires(cfg, limit, g, content, branches, fork, join, p, aux);
    }
  }

  /** The region of the first branch inside the final graph. */
  lemma BranchFits(g: Graph, c1: Compiled, r: Compiled, c: Compiled, content: Content, fork: Option<nat>, join: Option<nat>,
                   p: seq<Pipe>)
    requires c1.Compiled? && SameBut(g, c1.graph, None) && IsNew(g, c1.graph, c1.tail)
    requires r.Compiled? && Branched(c1, r, fork)
    requires if fork.Some? then ForkAndJoin(g, content, fork, join) && r.head == fork && r.tail == join
             else IsNew(c1.graph, r.graph, r.head) && IsNew(c1.graph, r.graph, r.tail)
    requires c.Compiled? && SameBut(r.graph, c.graph, r.head) && c.head == r.head && c.tail == r.tail
    requires FitsBut(|g.pipes|, c.graph, p, c.head, c.tail)
    ensures Fits(|g.pipes|, c1.graph, p, c1.head, NO_FLAGS, c1.tail, c.tail)
    ensures FitsBut(|r.graph.pipes|, c.graph, p, c.head, c.tail)
  {
    forall i | |g.pipes| <= i < |c1.graph.pipes|
      ensures p[i] == Patch(c1.graph.pipes[i], c1.head == Some(i), NO_FLAGS, c1.tail == Some(i), c.tail)
    {
      assert p[i] == c.graph.pipes[i] == r.graph.pipes[i];
    }
  }

  lemma {:induction false} FirstBranchWires(cfg: Config, limit: nat, g: Graph, content: Content, branches: Nodes,
                                            fork: Option<nat>, join: Option<nat>, p: seq<Pipe>, aux: map<Key, nat>)
    requires WellFormedBranches(cfg, limit, branches) && branches.Cons?
    requires fork.Some? ==> ForkAndJoin(g, content, fork, join)
    requires fork.None? ==> join.None?
    requires var c := CompileBranches(cfg, limit, g, content, branches, fork.None?, fork, join);
             BranchesShape(cfg, limit, g, content, fork, join, c)
             && FitsBut(|g.pipes|, c.graph, p, c.head, c.tail) && SubAux(c.graph.aux, aux)
    ensures var c := CompileBranches(cfg, limit, g, content, branches, fork.None?, fork, join);
            && WiredBranches(cfg, limit, p, aux, branches,
                             HopsSoFar(c.graph, c.head)[|HopsSoFar(g, fork)|..], c.tail.value)
            && NewDestinationsWired(cfg, p, aux, g.aux, c.graph.aux)
    decreases limit, branches, 0
  {
    var n, rest := branches.node, branches.next;
    NodeHasShape(cfg, limit, g, n, true);
    var c1 := CompileNode(cfg, limit, g, n);
    AddBranchShape(content, g, c1, fork, join);
    var r := AddBranch(content, fork.None?, c1, fork, join);
    BranchesHaveShape(cfg, limit, r.graph, content, rest, r.head, r.tail);
    var c := CompileBranches(cfg, limit, r.graph, content, rest, false, r.head, r.tail);
    BranchFits(g, c1, r, c, content, fork, join, p);
    BranchesWire(cfg, limit, r.graph, content, rest, r.head, r.tail, p, aux);
    NodeWires(cfg, limit, g, n, true, p, aux, NO_FLAGS, c.tail);
    var before, hops := |HopsSoFar(g, fork)|, HopsSoFar(c.graph, c.head);
    assert hops[before..][1..] == hops[before + 1..];
    assert hops[before] == c1.head.value;
  }

  lemma {:induction false} JunctionWires(cfg: Config, limit: nat, g: Graph, node: Node, p: seq<Pipe>,
                                         aux: map<Key, nat>, extra: PipeFlags, next: Option<nat>)
    requires node.Junction? && node.branches.Cons? && WellFormed(cfg, limit, node, false)
    requires var c := CompileNode(cfg, limit, g, node);
             NodeShape(cfg, limit, g, node, c)
             && Fits(|g.pipes|, c.graph, p, c.head, extra, OpenEnd(c), next) && SubAux(c.graph.aux, aux)
    ensures var c := CompileNode(cfg, limit, g, node);
            Wired(cfg, limit, p, aux, node, c.head, next, extra)
            && NewDestinationsWired(cfg, p, aux, g.aux, c.graph.aux)
    decreases limit, node, 1
  {
    BranchesHaveShape(cfg, limit, g, node.jcontent, node.branches, None, None);
    var b := CompileBranches(cfg, limit, g, node.jcontent, node.branches, true, None, None);
    BranchesWire(cfg, limit, g, node.jcontent, node.branches, None, None, p, aux);
    JunctionFits(cfg, limit, g, node.jcontent, b, p, extra, next);
    var hops := HopsSoFar(b.graph, b.head);
    assert hops[0..] == hops;
    assert IsJoin(p, b.tail.value, next);
  }

  /** Fork and join of a junction in the final graph. */
  lemma JunctionFits(cfg: Config, limit: nat, g: Graph, content: Content, b: Compiled, p: seq<Pipe>, extra: PipeFlags,
                     next: Option<nat>)
    requires BranchesShape(cfg, limit, g, content, None, None, b)
    requires var c := FinishJunction(b); c.Compiled? && Fits(|g.pipes|, c.graph, p, c.head, extra, c.tail, next)
    ensures IsFork(p, b.head.value, content != ContentDestination, extra) && IsJoin(p, b.tail.value, next)
    ensures p[b.head.value].kind.hops == HopsSoFar(b.graph, b.head)
    ensures FitsBut(|g.pipes|, b.graph, p, b.head, b.tail)
  {
  }

  // ---------------------------------------------------------------------
  // Conditionals
  // ---------------------------------------------------------------------

  lemma {:induction false} ConditionalWires(cfg: Config, limit: nat, g: Graph, node: Node, p: seq<Pipe>,
                                            aux: map<Key, nat>, extra: PipeFlags, next: Option<nat>)
    requires node.Conditional? && WellFormed(cfg, limit, node, false)
    requires var c := CompileNode(cfg, limit, g, node);
             NodeShape(cfg, limit, g, node, c)
             && Fits(|g.pipes|, c.graph, p, c.head, extra, OpenEnd(c), next) && SubAux(c.graph.aux, aux)
    ensures var c := CompileNode(cfg, limit, g, node);
            Wired(cfg, limit, p, aux, node, c.head, next, extra)
            && NewDestinationsWired(cfg, p, aux, g.aux, c.graph.aux)
    decreases limit, node, 4
  {
    var s := ConditionalStages(cfg, limit, g, node);
    StagesHaveShape(cfg, limit, g, s);
    StagesWire(cfg, limit, g, node, s, CloseStages(s), p, aux, extra, next);
  }

  lemma {:induction false} StagesWire(cfg: Config, limit: nat, g: Graph, node: Node, s: Stages, c: Compiled, p: seq<Pipe>,
                                      aux: map<Key, nat>, extra: PipeFlags, next: Option<nat>)
    requires AreStages(cfg, limit, g, node, s) && WellFormed(cfg, limit, node, false)
    requires c == CloseStages(s)
    requires Fits(|g.pipes|, c.graph, p, c.head, extra, c.tail, next) && SubAux(c.graph.aux, aux)
    ensures Wired(cfg, limit, p, aux, node, c.head, next, extra)
    ensures NewDestinationsWired(cfg, p, aux, g.aux, c.graph.aux)
    decreases limit, node, 3
  {
    StagesHaveShape(cfg, limit, g, s);
    ClosedFits(cfg, limit, g, s, BeforeClose(s).0, c.graph, BeforeClose(s).1, p, extra, next);
    StagesAux(s);
    if s.filter.Some? {
      FilterStageFits(cfg, limit, g, s, p, extra, next);
    }
    FittingStagesWire(cfg, limit, g, node, s, p, aux, BeforeClose(s).1, c.graph.aux, extra, next);
  }

  lemma {:induction false} FittingStagesWire(cfg: Config, limit: nat, g: Graph, node: Node, s: Stages, p: seq<Pipe>,
                                             aux: map<Key, nat>, thnHead: nat, last: map<Key, nat>,
                                             extra: PipeFlags, next: Option<nat>)
    requires AreStages(cfg, limit, g, node, s) && WellFormed(cfg, limit, node, false)
    requires var fork := |s.els.graph.pipes|;
             && IsFork(p, fork, true, extra) && p[fork].kind.hops == [thnHead, s.els.head.value]
             && IsJoin(p, fork + 1, next) && BodiesFit(g, s, p, fork + 1)
    requires last == (if s.filter.None? then s.els.graph.aux else s.filter.value.graph.aux) && SubAux(last, aux)
    requires thnHead == if s.filter.None? then s.thn.head.value else s.filter.value.head.value
    requires s.filter.Some? ==>
               && IsMidpoint(p, |s.filter.value.graph.pipes|) && p[|s.filter.value.graph.pipes|].next == s.thn.head
               && FilterFits(ForkBoth(s.els.graph), s.filter.value, p)
    ensures Wired(cfg, limit, p, aux, node, Some(|s.els.graph.pipes|), next, extra)
    ensures NewDestinationsWired(cfg, p, aux, g.aux, last)
    decreases limit, node, 2
  {
    var fork := |s.els.graph.pipes|;
    BodiesWire(cfg, limit, g, node, s, p, aux, fork + 1);
    if s.filter.None? {
      ConditionalFromParts(cfg, limit, p, aux, node, fork, fork + 1, None, extra, next);
    } else {
      GuardedStagesWire(cfg, limit, g, node, s, p, aux, thnHead, extra, next);
      DestinationsAdd(cfg, p, aux, g.aux, s.els.graph.aux, last);
    }
  }

  lemma {:induction false} GuardedStagesWire(cfg: Config, limit: nat, g: Graph, node: Node, s: Stages, p: seq<Pipe>,
                                             aux: map<Key, nat>, thnHead: nat, extra: PipeFlags, next: Option<nat>)
    requires AreStages(cfg, limit, g, node, s) && WellFormed(cfg, limit, node, false) && s.filter.Some?
    requires var fork, mid := |s.els.graph.pipes|, |s.filter.value.graph.pipes|;
             && IsFork(p, fork, true, extra) && p[fork].kind.hops == [thnHead, s.els.head.value]
             && IsJoin(p, fork + 1, next) && thnHead == s.filter.value.head.value
             && IsMidpoint(p, mid) && p[mid].next == s.thn.head && FilterFits(ForkBoth(s.els.graph), s.filter.value, p)
             && Wired(cfg, limit, p, aux, node.thn, s.thn.head, Some(fork + 1), NO_FLAGS)
             && Wired(cfg, limit, p, aux, node.els, s.els.head, Some(fork + 1), NO_FLAGS)
    requires SubAux(s.filter.value.graph.aux, aux)
    ensures Wired(cfg, limit, p, aux, node, Some(|s.els.graph.pipes|), next, extra)
    ensures NewDestinationsWired(cfg, p, aux, s.els.graph.aux, s.filter.value.graph.aux)
    decreases limit, node, 1, 1
  {
    var fork := |s.els.graph.pipes|;
    FilterWires(cfg, limit, g, node, s, p, aux);
    ConditionalFromParts(cfg, limit, p, aux, node, fork, fork + 1, Some(|s.filter.value.graph.pipes|), extra, next);
  }

  lemma StagesAux(s: Stages)
    requires Complete(s)
    ensures CloseStages(s).graph.aux == if s.filter.None? then s.els.graph.aux else s.filter.value.graph.aux
  {
  }

  ghost predicate BeyondFits(f: Graph, lo: nat, p: seq<Pipe>) {
    |f.pipes| <= |p| && forall i :: lo <= i < |f.pipes| ==> p[i] == f.pipes[i]
  }

  lemma FilterStageFits(cfg: Config, limit: nat, g: Graph, s: Stages, p: seq<Pipe>, extra: PipeFlags, next: Option<nat>)
    requires StagesShape(cfg, limit, g, s) && s.filter.Some?
    requires BeyondFits(BeforeClose(s).0, |s.els.graph.pipes| + 2, p)
    ensures IsMidpoint(p, |s.filter.value.graph.pipes|)
    ensures p[|s.filter.value.graph.pipes|].next == s.thn.head
    ensures FilterFits(ForkBoth(s.els.graph), s.filter.value, p)
  {
    GuardShape(ForkBoth(s.els.graph), s.filter.value, s.thn.head.value);
  }

  ghost predicate BodiesFit(g: Graph, s: Stages, p: seq<Pipe>, join: nat)
    requires s.els.Compiled? && s.thn.Compiled?
  {
    && |s.els.graph.pipes| <= |p|
    && forall i :: |g.pipes| <= i < |s.els.graph.pipes| ==>
         p[i] == if s.thn.tail == Some(i) || s.els.tail == Some(i) then s.els.graph.pipes[i].(next := Some(join))
                 else s.els.graph.pipes[i]
  }

  ghost predicate FilterFits(f: Graph, q: Compiled, p: seq<Pipe>)
    requires q.Compiled?
  {
    && |q.graph.pipes| <= |p|
    && forall i :: |f.pipes| <= i < |q.graph.pipes| ==>
         p[i] == if q.tail == Some(i) then q.graph.pipes[i].(next := Some(|q.graph.pipes|)) else q.graph.pipes[i]
  }

  /** A conditional is wired when its parts are. */
  lemma ConditionalFromParts(cfg: Config, limit: nat, p: seq<Pipe>, aux: map<Key, nat>, node: Node, fork: nat, join: nat,
                             mid: Option<nat>, extra: PipeFlags, next: Option<nat>)
    requires node.Conditional? && node.filter.Some? == mid.Some?
    requires IsFork(p, fork, true, extra) && |p[fork].kind.hops| == 2 && IsJoin(p, join, next)
    requires Wired(cfg, limit, p, aux, node.els, Some(p[fork].kind.hops[1]), Some(join), NO_FLAGS)
    requires mid.None? ==> Wired(cfg, limit, p, aux, node.thn, Some(p[fork].kind.hops[0]), Some(join), NO_FLAGS)
    requires mid.Some? ==>
               && IsMidpoint(p, mid.value)
               && Wired(cfg, limit, p, aux, node.filter.value, Some(p[fork].kind.hops[0]), mid, NO_FLAGS)
               && Wired(cfg, limit, p, aux, node.thn, p[mid.value].next, Some(join), NO_FLAGS)
    ensures Wired(cfg, limit, p, aux, node, Some(fork), next, extra)
  {
  }

  /** The final graph around the stages of a conditional. */
  lemma ClosedFits(cfg: Config, limit: nat, g: Graph, s: Stages, f: Graph, c: Graph, thnHead: nat, p: seq<Pipe>,
                   extra: PipeFlags, next: Option<nat>)
    requires BothEnds(cfg, limit, g, s.thn) && BothEnds(cfg, limit, s.thn.graph, s.els)
    requires HasEnds(s.els) && BeforeCloseShape(cfg, limit, g, s, f)
    requires var fork := |s.els.graph.pipes|;
             && Closed(f, c, fork, fork + 1, thnHead, s.els.head.value, s.thn.tail, s.els.tail)
             && Fits(|g.pipes|, c, p, Some(fork), extra, Some(fork + 1), next)
    ensures var fork := |s.els.graph.pipes|;
            && IsFork(p, fork, true, extra) && p[fork].kind.hops == [thnHead, s.els.head.value]
            && IsJoin(p, fork + 1, next) && BodiesFit(g, s, p, fork + 1) && BeyondFits(f, fork + 2, p)
  {
    var fork := |s.els.graph.pipes|;
    ForkFits(g, c, fork, fork + 1, [thnHead, s.els.head.value], p, extra, next);
    assert c.pipes[fork + 1] == f.pipes[fork + 1];
    forall i | |g.pipes| <= i < |f.pipes| && i != fork && i != fork + 1
      ensures p[i] == if s.thn.tail == Some(i) || s.els.tail == Some(i) then f.pipes[i].(next := Some(fork + 1))
                      else f.pipes[i]
    {
      assert p[i] == Patch(c.pipes[i], false, extra, false, next) == c.pipes[i];
    }
  }

  lemma ForkFits(g: Graph, c: Graph, fork: nat, join: nat, hops: seq<nat>, p: seq<Pipe>, extra: PipeFlags, next: Option<nat>)
    requires |g.pipes| <= fork < |c.pipes| && |g.pipes| <= join < |c.pipes| && fork != join
    requires c.pipes[fork] == Pipe(Multiplexer(hops, true, false), NO_FLAGS, None)
    requires Fits(|g.pipes|, c, p, Some(fork), extra, Some(join), next)
    ensures IsFork(p, fork, true, extra) && p[fork].kind.hops == hops
    ensures c.pipes[join] == Pipe(Forwarder, JUNCTION_END, None) ==> IsJoin(p, join, next)
  {
  }

  lemma {:induction false} BodiesWire(cfg: Config, limit: nat, g: Graph, node: Node, s: Stages, p: seq<Pipe>,
                                      aux: map<Key, nat>, join: nat)
    requires AreStages(cfg, limit, g, node, s) && WellFormed(cfg, limit, node, false)
    requires BodiesFit(g, s, p, join) && SubAux(s.els.graph.aux, aux)
    ensures Wired(cfg, limit, p, aux, node.thn, s.thn.head, Some(join), NO_FLAGS)
    ensures Wired(cfg, limit, p, aux, node.els, s.els.head, Some(join), NO_FLAGS)
    ensures NewDestinationsWired(cfg, p, aux, g.aux, s.els.graph.aux)
    decreases limit, node, 1
  {
    NodeHasShape(cfg, limit, g, node.thn, true);
    NodeHasShape(cfg, limit, s.thn.graph, node.els, true);
    BodyFits(cfg, limit, g, s, p, join);
    NodeWires(cfg, limit, g, node.thn, true, p, aux, NO_FLAGS, Some(join));
    NodeWires(cfg, limit, s.thn.graph, node.els, true, p, aux, NO_FLAGS, Some(join));
    DestinationsAdd(cfg, p, aux, g.aux, s.thn.graph.aux, s.els.graph.aux);
  }

  lemma BodyFits(cfg: Config, limit: nat, g: Graph, s: Stages, p: seq<Pipe>, join: nat)
    requires BothEnds(cfg, limit, g, s.thn) && BothEnds(cfg, limit, s.thn.graph, s.els) && BodiesFit(g, s, p, join)
    ensures Fits(|g.pipes|, s.thn.graph, p, s.thn.head, NO_FLAGS, s.thn.tail, Some(join))
    ensures Fits(|s.thn.graph.pipes|, s.els.graph, p, s.els.head, NO_FLAGS, s.els.tail, Some(join))
  {
  }

  lemma {:induction false} FilterWires(cfg: Config, limit: nat, g: Graph, node: Node, s: Stages, p: seq<Pipe>,
                                       aux: map<Key, nat>)
    requires AreStages(cfg, limit, g, node, s) && WellFormed(cfg, limit, node, false) && s.filter.Some?
    requires FilterFits(ForkBoth(s.els.graph), s.filter.value, p) && SubAux(s.filter.value.graph.aux, aux)
    ensures Wired(cfg, limit, p, aux, node.filter.value, s.filter.value.head, Some(|s.filter.value.graph.pipes|), NO_FLAGS)
    ensures NewDestinationsWired(cfg, p, aux, s.els.graph.aux, s.filter.value.graph.aux)
    decreases limit, node, 1, 0
  {
    var f, q := ForkBoth(s.els.graph), s.filter.value;
    FilterWellFormed(cfg, limit, node.filter.value);
    NodeHasShape(cfg, limit, f, node.filter.value, false);
    FilterFitsWhole(f, q, p);
    NodeWires(cfg, limit, f, node.filter.value, false, p, aux, NO_FLAGS, Some(|q.graph.pipes|));
  }

  lemma FilterFitsWhole(f: Graph, q: Compiled, p: seq<Pipe>)
    requires q.Compiled? && q.tail.Some? && FilterFits(f, q, p)
    ensures Fits(|f.pipes|, q.graph, p, q.head, NO_FLAGS, q.tail, Some(|q.graph.pipes|))
  {
  }
}
