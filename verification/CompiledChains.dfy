/**
 Following `pipe_next` always comes to an end in a compiled graph, so the walk
 of log_multiplexer_init along a branch terminates.
 */
module CompiledChains {
  import opened Wrappers
  import opened LogPipe
  import opened LogExpr
  import opened CfgTree
  import opened CompileShape
  import opened MultiplexerInit

  /** The pipes from `lo` on only link to each other, and `r` falls along every link. */
  ghost predicate Falls(p: seq<Pipe>, lo: nat, r: seq<nat>) {
    && lo + |r| == |p|
    && forall i :: lo <= i < |p| && p[i].next.Some? ==>
         lo <= p[i].next.value < |p| && r[p[i].next.value - lo] < r[i - lo]
  }

  function Raise(r: seq<nat>, d: nat): (s: seq<nat>)
    ensures |s| == |r| && forall i :: 0 <= i < |r| ==> s[i] == r[i] + d
  {
    seq(|r|, i requires 0 <= i < |r| => r[i] + d)
  }

  lemma {:induction false} NodeFalls(cfg: Config, limit: nat, g: Graph, node: Node, atHead: bool) returns (r: seq<nat>)
    requires WellFormed(cfg, limit, node, atHead)
    ensures var c := CompileNode(cfg, limit, g, node); c.Compiled? && Falls(c.graph.pipes, |g.pipes|, r)
    decreases limit, node, 2
  {
    NodeHasShape(cfg, limit, g, node, atHead);
    match node
    case Single(_) => r := [0];
    case Reference(key) => r := ReferenceFalls(cfg, limit, g, node);
    case Sequence(_, flags, children) => r := SequenceFalls(cfg, limit, g, OfLc(flags), children, atHead);
    case Junction(content, branches) =>
      if branches.Cons? {
        r := BranchesFall(cfg, limit, g, content, branches, None, None, |g.pipes|, []);
      } else {
        r := [];
      }
    case Conditional(_, _, _) => r := ConditionalFalls(cfg, limit, g, node);
  }

  lemma {:induction false} ReferenceFalls(cfg: Config, limit: nat, g: Graph, node: Node) returns (r: seq<nat>)
    requires node.Reference? && WellFormed(cfg, limit, node, false)
    ensures var c := CompileNode(cfg, limit, g, node); c.Compiled? && Falls(c.graph.pipes, |g.pipes|, r)
    decreases limit, node, 0
  {
    var key := node.key;
    var rank, def := cfg.Rank(key), cfg.objects[key];
    ReferenceHasShape(cfg, limit, g, node);
    if key.content == ContentDestination && key in g.aux {
      r := [0];
    } else {
      r := SequenceFalls(cfg, rank, g, OfLc(def.flags), def.children, false);
      var s := CompileSequence(cfg, rank, g, OfLc(def.flags), def.children);
      if key.content == ContentDestination {
        assert CompileNode(cfg, rank, g, def) == s.(tail := s.head);
        ReferFalls(s.graph, CompileNode(cfg, limit, g, node).graph, |g.pipes|, r);
        r := r + [0];
      } else {
        assert CompileNode(cfg, limit, g, node) == s;
      }
    }
  }

  lemma ReferFalls(s: Graph, c: Graph, lo: nat, r: seq<nat>)
    requires Falls(s.pipes, lo, r) && |c.pipes| == |s.pipes| + 1 && c.pipes[|s.pipes|].next.None?
    requires c.pipes[..|s.pipes|] == s.pipes
    ensures Falls(c.pipes, lo, r + [0])
  {
    assert forall i :: 0 <= i < |s.pipes| ==> c.pipes[i] == c.pipes[..|s.pipes|][i];
    AddOpenPipe(s.pipes, c.pipes, lo, r);
  }

  lemma {:induction false} SequenceFalls(cfg: Config, limit: nat, g: Graph, flags: PipeFlags, children: Nodes, atHead: bool)
    returns (r: seq<nat>)
    requires WellFormedList(cfg, limit, children, atHead)
    ensures var c := CompileSequence(cfg, limit, g, flags, children); c.Compiled? && Falls(c.graph.pipes, |g.pipes|, r)
    decreases limit, children, 1
  {
    ChildrenHaveShape(cfg, limit, g, flags, children, None, None, atHead);
    r := ChildrenFall(cfg, limit, g, flags, children, None, None, atHead, |g.pipes|, []);
    if CompileChildren(cfg, limit, g, flags, children, None, None).head.None? {
      r := r + [0];
    }
  }

  /** A closed stretch of pipes behind another one, linked from `last` to `head`. */
  lemma LinkFalls(lo: nat, g: Graph, c: Graph, l: Graph, flags: PipeFlags, first: Option<nat>, last: Option<nat>,
                  head: nat, r0: seq<nat>, r1: seq<nat>) returns (r: seq<nat>)
    requires Falls(g.pipes, lo, r0) && Falls(c.pipes, |g.pipes|, r1) && SameBut(g, c, None)
    requires |g.pipes| <= head < |c.pipes| && Linked(c, l, flags, first, last, head)
    requires last.Some? ==> lo <= last.value < |g.pipes| && IsOpen(g, last)
    ensures Falls(l.pipes, lo, r)
  {
    r := Raise(r0, r1[head - |g.pipes|] + 1) + r1;
    forall i | lo <= i < |l.pipes| && l.pipes[i].next.Some?
      ensures lo <= l.pipes[i].next.value < |l.pipes| && r[l.pipes[i].next.value - lo] < r[i - lo]
    {
      LinkFallsAt(lo, g, c, l, flags, first, last, head, r0, r1, i);
    }
  }

  lemma LinkFallsAt(lo: nat, g: Graph, c: Graph, l: Graph, flags: PipeFlags, first: Option<nat>, last: Option<nat>,
                    head: nat, r0: seq<nat>, r1: seq<nat>, i: nat)
    requires Falls(g.pipes, lo, r0) && Falls(c.pipes, |g.pipes|, r1) && SameBut(g, c, None)
    requires |g.pipes| <= head < |c.pipes| && Linked(c, l, flags, first, last, head)
    requires last.Some? ==> lo <= last.value < |g.pipes| && IsOpen(g, last)
    requires lo <= i < |l.pipes| && l.pipes[i].next.Some?
    ensures var r := Raise(r0, r1[head - |g.pipes|] + 1) + r1;
            lo <= l.pipes[i].next.value < |l.pipes| && r[l.pipes[i].next.value - lo] < r[i - lo]
  {
    if i >= |g.pipes| {
      assert l.pipes[i].next == c.pipes[i].next;
    } else if last == Some(i) {
      assert l.pipes[i].next == Some(head);
    } else {
      assert l.pipes[i].next == c.pipes[i].next == g.pipes[i].next;
    }
  }

  lemma ChildFalls(g: Graph, c: Compiled, l: Compiled, flags: PipeFlags, first: Option<nat>, last: Option<nat>,
                   lo: nat, r0: seq<nat>, r1: seq<nat>) returns (r: seq<nat>)
    requires c.Compiled? && SameBut(g, c.graph, None) && SoFar(g, first, last)
    requires IsNew(g, c.graph, c.head) && IsNew(g, c.graph, OpenEnd(c)) && IsOpen(c.graph, OpenEnd(c))
    requires l == Link(c.graph, flags, first, last, c.head.value, c.tail)
    requires Falls(g.pipes, lo, r0) && (last.Some? ==> lo <= last.value) && Falls(c.graph.pipes, |g.pipes|, r1)
    ensures l.Compiled? && SoFar(l.graph, l.head, l.tail) && (l.tail.Some? ==> lo <= l.tail.value)
    ensures Falls(l.graph.pipes, lo, r)
  {
    LinkShape(g, c.graph, flags, first, last, c.head.value, c.tail);
    r := LinkFalls(lo, g, c.graph, l.graph, flags, first, last, c.head.value, r0, r1);
  }

  lemma {:induction false} ChildrenFall(cfg: Config, limit: nat, g: Graph, flags: PipeFlags, children: Nodes,
                                        first: Option<nat>, last: Option<nat>, atHead: bool, lo: nat, r0: seq<nat>)
    returns (r: seq<nat>)
    requires WellFormedList(cfg, limit, children, atHead) && SoFar(g, first, last)
    requires Falls(g.pipes, lo, r0) && (last.Some? ==> lo <= last.value)
    ensures var c := CompileChildren(cfg, limit, g, flags, children, first, last);
            c.Compiled? && Falls(c.graph.pipes, lo, r)
    decreases limit, children, 0
  {
    r := r0;
    if children.Nil? {
    } else {
      var n, rest := children.node, children.next;
      NodeHasShape(cfg, limit, g, n, atHead);
      var c := CompileNode(cfg, limit, g, n);
      if Headless(n) {
        r := ChildrenFall(cfg, limit, g, flags, rest, first, last, false, lo, r0);
      } else {
        var r1 := NodeFalls(cfg, limit, g, n, atHead);
        var l := Link(c.graph, flags, first, last, c.head.value, c.tail);
        r := ChildFalls(g, c, l, flags, first, last, lo, r0, r1);
        r := ChildrenFall(cfg, limit, l.graph, flags, rest, l.head, l.tail, false, lo, r);
      }
    }
  }

  // ---------------------------------------------------------------------
  // New links
  // ---------------------------------------------------------------------

  lemma ConcatFalls(q: seq<Pipe>, p: seq<Pipe>, lo: nat, a: seq<nat>, b: seq<nat>)
    requires Falls(q, lo, a) && Falls(p, |q|, b)
    requires forall i :: 0 <= i < |q| ==> p[i].next == q[i].next
    ensures Falls(p, lo, a + b)
  {
  }

  /** Everything but the join moves up, so that links to the join may be added. */
  function RaiseBut(r: seq<nat>, at: nat): (s: seq<nat>)
    requires at < |r|
    ensures |s| == |r| && s[at] == r[at] && forall i :: 0 <= i < |r| && i != at ==> s[i] == r[i] + r[at] + 1
  {
    seq(|r|, i requires 0 <= i < |r| => if i == at then r[i] else r[i] + r[at] + 1)
  }

  /** Some open pipes become linked to an open join. */
  lemma JoinFalls(q: seq<Pipe>, p: seq<Pipe>, lo: nat, join: nat, r: seq<nat>)
    requires Falls(q, lo, r) && |p| == |q| && lo <= join < |q| && p[join].next.None?
    requires forall i :: 0 <= i < |q| ==>
               p[i].next == q[i].next || (i != join && q[i].next.None? && p[i].next == Some(join))
    ensures Falls(p, lo, RaiseBut(r, join - lo))
  {
  }

  /** An open pipe behind `cut` becomes linked to one in front of it. */
  lemma BackLinkFalls(q: seq<Pipe>, p: seq<Pipe>, lo: nat, cut: nat, from: nat, target: nat, r: seq<nat>) returns (s: seq<nat>)
    requires Falls(q, lo, r) && |p| == |q| && lo <= target < cut <= from < |q|
    requires forall i :: lo <= i < cut && q[i].next.Some? ==> q[i].next.value < cut
    requires p[from].next == Some(target) && forall i :: 0 <= i < |q| && i != from ==> p[i].next == q[i].next
    ensures Falls(p, lo, s)
  {
    var low, high := r[..cut - lo], r[cut - lo..];
    s := low + Raise(high, r[target - lo] + 1);
    forall i | lo <= i < |p| && p[i].next.Some?
      ensures lo <= p[i].next.value < |p| && s[p[i].next.value - lo] < s[i - lo]
    {
      assert i >= cut ==> s[i - lo] == r[i - lo] + r[target - lo] + 1;
    }
  }

  lemma AddOpenPipe(q: seq<Pipe>, p: seq<Pipe>, lo: nat, r: seq<nat>)
    requires Falls(q, lo, r) && |p| == |q| + 1 && p[|q|].next.None?
    requires forall i :: 0 <= i < |q| ==> p[i].next == q[i].next
    ensures Falls(p, lo, r + [0])
  {
  }

  lemma AddOpenPipes(q: seq<Pipe>, p: seq<Pipe>, lo: nat, r: seq<nat>)
    requires Falls(q, lo, r) && |p| == |q| + 2 && p[|q|].next.None? && p[|q| + 1].next.None?
    requires forall i :: 0 <= i < |q| ==> p[i].next == q[i].next
    ensures Falls(p, lo, r + [0, 0])
  {
  }

  // ---------------------------------------------------------------------
  // Junctions
  // ---------------------------------------------------------------------

  /** `a` is `c` with one more branch at the fork. */
  ghost predicate IsBranched(content: Content, g: Graph, c: Compiled, a: Compiled, fork: Option<nat>, join: Option<nat>) {
    && c.Compiled? && SameBut(g, c.graph, None) && IsNew(g, c.graph, c.tail) && IsOpen(c.graph, c.tail)
    && a.Compiled? && ForkAndJoin(a.graph, content, a.head, a.tail) && Branched(c, a, fork)
    && |a.graph.pipes| == |c.graph.pipes| + (if fork.Some? then 0 else 2)
    && if fork.Some? then ForkAndJoin(g, content, fork, join) && a.head == fork && a.tail == join
       else IsNew(c.graph, a.graph, a.head) && IsNew(c.graph, a.graph, a.tail)
  }

  lemma FirstBranchFalls(lo: nat, content: Content, g: Graph, c: Compiled, a: Compiled, r: seq<nat>) returns (s: seq<nat>)
    requires IsBranched(content, g, c, a, None, None) && lo <= |g.pipes| && Falls(c.graph.pipes, lo, r)
    ensures Falls(a.graph.pipes, lo, s)
  {
    var q, p, join := c.graph.pipes, a.graph.pipes, a.tail.value;
    var q' := p[..|q|][c.tail.value := q[c.tail.value]] + p[|q|..];
    AddOpenPipes(q, q', lo, r);
    JoinFalls(q', p, lo, join, r + [0, 0]);
    s := RaiseBut(r + [0, 0], join - lo);
  }

  lemma NextBranchFalls(lo: nat, content: Content, g: Graph, c: Compiled, a: Compiled, fork: nat, join: nat, r: seq<nat>)
    returns (s: seq<nat>)
    requires IsBranched(content, g, c, a, Some(fork), Some(join)) && lo <= join && Falls(c.graph.pipes, lo, r)
    ensures Falls(a.graph.pipes, lo, s)
  {
    assert c.graph.pipes[fork] == g.pipes[fork];
    JoinFalls(c.graph.pipes, a.graph.pipes, lo, join, r);
    s := RaiseBut(r, join - lo);
  }

  lemma BranchedFalls(lo: nat, content: Content, g: Graph, c: Compiled, a: Compiled, fork: Option<nat>, join: Option<nat>,
                      r0: seq<nat>, r1: seq<nat>) returns (r: seq<nat>)
    requires IsBranched(content, g, c, a, fork, join) && (fork.None? ==> join.None?)
    requires lo <= |g.pipes| && (join.Some? ==> lo <= join.value)
    requires Falls(g.pipes, lo, r0) && Falls(c.graph.pipes, |g.pipes|, r1)
    ensures Falls(a.graph.pipes, lo, r)
  {
    ConcatFalls(g.pipes, c.graph.pipes, lo, r0, r1);
    if fork.None? {
      r := FirstBranchFalls(lo, content, g, c, a, r0 + r1);
    } else {
      r := NextBranchFalls(lo, content, g, c, a, fork.value, join.value, r0 + r1);
    }
  }

  lemma {:induction false} BranchesFall(cfg: Config, limit: nat, g: Graph, content: Content, branches: Nodes,
                                        fork: Option<nat>, join: Option<nat>, lo: nat, r0: seq<nat>) returns (r: seq<nat>)
    requires WellFormedBranches(cfg, limit, branches)
    requires fork.Some? ==> ForkAndJoin(g, content, fork, join) && lo <= join.value
    requires fork.None? ==> join.None? && branches.Cons?
    requires Falls(g.pipes, lo, r0)
    ensures var c := CompileBranches(cfg, limit, g, content, branches, fork.None?, fork, join);
            && c.Compiled? && Falls(c.graph.pipes, lo, r)
            && FinishJunction(c).Compiled? && Falls(FinishJunction(c).graph.pipes, lo, r)
    decreases limit, branches, 0
  {
    r := r0;
    if branches.Nil? {
    } else {
      NodeHasShape(cfg, limit, g, branches.node, true);
      var c := CompileNode(cfg, limit, g, branches.node);
      AddBranchShape(content, g, c, fork, join);
      var a := AddBranch(content, fork.None?, c, fork, join);
      var r1 := NodeFalls(cfg, limit, g, branches.node, true);
      var r2 := BranchedFalls(lo, content, g, c, a, fork, join, r0, r1);
      r := BranchesFall(cfg, limit, a.graph, content, branches.next, a.head, a.tail, lo, r2);
    }
  }

  // ---------------------------------------------------------------------
  // Conditionals
  // ---------------------------------------------------------------------

  lemma {:induction false} ConditionalFalls(cfg: Config, limit: nat, g: Graph, node: Node) returns (r: seq<nat>)
    requires node.Conditional? && WellFormed(cfg, limit, node, false)
    ensures var c := CompileNode(cfg, limit, g, node); c.Compiled? && Falls(c.graph.pipes, |g.pipes|, r)
    decreases limit, node, 1
  {
    var s := ConditionalStages(cfg, limit, g, node);
    r := OpenConditionalFalls(cfg, limit, g, node, s);
    r := CloseStagesFalls(cfg, limit, g, s, r);
  }

  lemma CloseStagesFalls(cfg: Config, limit: nat, g: Graph, s: Stages, r: seq<nat>) returns (t: seq<nat>)
    requires StagesShape(cfg, limit, g, s) && Falls(BeforeClose(s).0.pipes, |g.pipes|, r)
    ensures Falls(CloseStages(s).graph.pipes, |g.pipes|, t)
  {
    StagesHaveShape(cfg, limit, g, s);
    TailsOpen(cfg, limit, g, s, BeforeClose(s).0);
    t := CloseFalls(BeforeClose(s).0, CloseStages(s).graph, |g.pipes|, |s.els.graph.pipes|, BeforeClose(s).1,
                    s.els.head.value, s.thn.tail, s.els.tail, r);
  }

  lemma {:induction false} OpenConditionalFalls(cfg: Config, limit: nat, g: Graph, node: Node, s: Stages)
    returns (r: seq<nat>)
    requires node.Conditional? && WellFormed(cfg, limit, node, false) && AreStages(cfg, limit, g, node, s)
    ensures Falls(BeforeClose(s).0.pipes, |g.pipes|, r)
    decreases limit, node, 0
  {
    var rt := NodeFalls(cfg, limit, g, node.thn, true);
    var re := NodeFalls(cfg, limit, s.thn.graph, node.els, true);
    if s.filter.None? {
      BodiesFall(cfg, limit, g, s, rt, re);
      r := rt + re + [0, 0];
    } else {
      FilterWellFormed(cfg, limit, node.filter.value);
      var rf := NodeFalls(cfg, limit, ForkBoth(s.els.graph), node.filter.value, false);
      BodiesFall(cfg, limit, g, s, rt, re);
      r := GuardedFalls(cfg, limit, ForkBoth(s.els.graph), s.filter.value, s.thn.head.value, |g.pipes|,
                        rt + re + [0, 0], rf);
    }
  }

  /** The graph in front of the filter: both bodies, fork and join. */
  lemma BodiesFall(cfg: Config, limit: nat, g: Graph, s: Stages, rt: seq<nat>, re: seq<nat>)
    requires BothEnds(cfg, limit, g, s.thn) && BothEnds(cfg, limit, s.thn.graph, s.els)
    requires Falls(s.thn.graph.pipes, |g.pipes|, rt) && Falls(s.els.graph.pipes, |s.thn.graph.pipes|, re)
    ensures Falls(ForkBoth(s.els.graph).pipes, |g.pipes|, rt + re + [0, 0])
  {
    ConcatFalls(s.thn.graph.pipes, s.els.graph.pipes, |g.pipes|, rt, re);
    AddOpenPipes(s.els.graph.pipes, ForkBoth(s.els.graph).pipes, |g.pipes|, rt + re);
  }

  /** Both bodies still end openly in the graph before the last step. */
  lemma TailsOpen(cfg: Config, limit: nat, g: Graph, s: Stages, f: Graph)
    requires BothEnds(cfg, limit, g, s.thn) && BothEnds(cfg, limit, s.thn.graph, s.els)
    requires HasEnds(s.els) && BeforeCloseShape(cfg, limit, g, s, f)
    ensures IsOpen(f, s.thn.tail) && IsOpen(f, s.els.tail)
    ensures s.thn.tail.value < |s.els.graph.pipes| && s.els.tail.value < |s.els.graph.pipes|
  {
    assert f.pipes[s.thn.tail.value] == s.els.graph.pipes[s.thn.tail.value] == s.thn.graph.pipes[s.thn.tail.value];
    assert f.pipes[s.els.tail.value] == s.els.graph.pipes[s.els.tail.value];
  }

  lemma CloseFalls(f: Graph, c: Graph, lo: nat, fork: nat, thnHead: nat, elsHead: nat, thnTail: Option<nat>,
                   elsTail: Option<nat>, r: seq<nat>) returns (t: seq<nat>)
    requires lo <= fork + 1 < |f.pipes| && IsOpen(f, thnTail) && IsOpen(f, elsTail)
    requires thnTail != Some(fork + 1) && elsTail != Some(fork + 1)
    requires f.pipes[fork].next.None? && f.pipes[fork + 1].next.None?
    requires Closed(f, c, fork, fork + 1, thnHead, elsHead, thnTail, elsTail)
    requires Falls(f.pipes, lo, r)
    ensures Falls(c.pipes, lo, t)
  {
    JoinFalls(f.pipes, c.pipes, lo, fork + 1, r);
    t := RaiseBut(r, fork + 1 - lo);
  }

  /** Filter and midpoint, linked back to the body of the if. */
  lemma GuardFalls(b: Graph, f: Compiled, r: Graph, thnHead: nat, lo: nat, rb: seq<nat>, rf: seq<nat>) returns (s: seq<nat>)
    requires f.Compiled? && SameBut(b, f.graph, None) && IsNew(b, f.graph, f.tail) && IsOpen(f.graph, f.tail)
    requires Guarded(f.graph, r, f.tail, thnHead) && lo <= thnHead < |b.pipes|
    requires Falls(b.pipes, lo, rb) && Falls(f.graph.pipes, |b.pipes|, rf)
    ensures Falls(r.pipes, lo, s)
  {
    var q, mid := f.graph.pipes, |f.graph.pipes|;
    var q1 := q + [Pipe(Forwarder, CONDITIONAL_MIDPOINT, None)];
    var q2 := r.pipes[mid := q1[mid]];
    ConcatFalls(b.pipes, q, lo, rb, rf);
    AddOpenPipe(q, q1, lo, rb + rf);
    JoinFalls(q1, q2, lo, mid, rb + rf + [0]);
    s := BackLinkFalls(q2, r.pipes, lo, |b.pipes|, mid, thnHead, RaiseBut(rb + rf + [0], mid - lo));
  }

  lemma GuardedFalls(cfg: Config, limit: nat, b: Graph, f: Compiled, thnHead: nat, lo: nat, rb: seq<nat>, rf: seq<nat>)
    returns (r: seq<nat>)
    requires BothEnds(cfg, limit, b, f) && lo <= thnHead < |b.pipes|
    requires Falls(b.pipes, lo, rb) && Falls(f.graph.pipes, |b.pipes|, rf)
    ensures Falls(GuardBranch(f, thnHead).pipes, lo, r)
  {
    GuardShape(b, f, thnHead);
    r := GuardFalls(b, f, GuardBranch(f, thnHead), thnHead, lo, rb, rf);
  }

  // ---------------------------------------------------------------------
  // Chains end
  // ---------------------------------------------------------------------

  lemma {:induction false} FallingChainEnds(p: seq<Pipe>, r: seq<nat>, id: nat, n: nat)
    requires Falls(p, 0, r) && id < |p| && r[id] < n
    ensures ChainEnds(p, Some(id), n)
    decreases n
  {
    if p[id].next.Some? {
      FallingChainEnds(p, r, p[id].next.value, n - 1);
    }
  }

  lemma {:induction false} Above(r: seq<nat>) returns (n: nat)
    ensures forall i :: 0 <= i < |r| ==> r[i] < n
  {
    n := 0;
    if r == [] {
    } else {
      var m := Above(r[1..]);
      n := if m > r[0] then m else r[0] + 1;
      assert forall i :: 1 <= i < |r| ==> r[i] == r[1..][i - 1];
    }
  }

  /** Where something falls along every link, chains end, within some number of pipes
      that may be chosen as large as needed. */
  lemma EndsWithin(p: seq<Pipe>, r: seq<nat>, atLeast: nat) returns (n: nat)
    requires Falls(p, 0, r)
    ensures ChainsEnd(p, n) && n >= atLeast
  {
    var m := Above(r);
    n := if m > atLeast then m else atLeast;
    forall i: nat | i < |p| ensures ChainEnds(p, Some(i), n) {
      FallingChainEnds(p, r, i, n);
    }
  }
}
