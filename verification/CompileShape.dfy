/**
 What compilation does to the pipe array: it succeeds on every well-formed
 expression (so no assertion fires), leaves older pipes alone, and returns ends
 that are new and still open.
 */
module CompileShape {
  import opened Wrappers
  import opened LogPipe
  import opened LogExpr
  import opened CfgTree

  /** Every pipe of `g` except possibly `id` is unchanged in `g'`. */
  ghost predicate SameBut(g: Graph, g': Graph, id: Option<nat>) {
    && |g.pipes| <= |g'.pipes|
    && forall i :: 0 <= i < |g.pipes| && id != Some(i) ==> g'.pipes[i] == g.pipes[i]
  }

  /** Destinations stay compiled; new ones are below `limit`. */
  ghost predicate AuxGrows(cfg: Config, limit: nat, a: map<Key, nat>, a': map<Key, nat>) {
    && (forall k :: k in a ==> k in a' && a'[k] == a[k])
    && (forall k :: k in a' && k !in a ==> cfg.Rank(k) < limit)
  }

  predicate IsNew(g: Graph, g': Graph, id: Option<nat>) {
    id.Some? && |g.pipes| <= id.value < |g'.pipes|
  }

  predicate IsOpen(g: Graph, id: Option<nat>) {
    id.Some? && id.value < |g.pipes| && g.pipes[id.value].next.None?
  }

  /** The pipe a sequence continues from. */
  function OpenEnd(c: Compiled): Option<nat>
    requires c.Compiled?
  {
    if c.tail.Some? then c.tail else c.head
  }

  ghost predicate NodeShape(cfg: Config, limit: nat, g: Graph, node: Node, c: Compiled) {
    && c.Compiled?
    && SameBut(g, c.graph, None) && AuxGrows(cfg, limit, g.aux, c.graph.aux)
    && if Headless(node) then
         c == Compiled(g, None, None)
       else
         IsNew(g, c.graph, c.head) && IsNew(g, c.graph, OpenEnd(c)) && IsOpen(c.graph, OpenEnd(c))
         && (HasBothEnds(node) ==> c.tail.Some?)
  }

  /** `CompileNode` on a sequence, except for the end of destinations. */
  function CompileSequence(cfg: Config, limit: nat, g: Graph, flags: PipeFlags, children: Nodes): Compiled {
    FinishSequence(ContentPipe, flags, CompileChildren(cfg, limit, g, flags, children, None, None))
  }

  ghost predicate SequenceShape(cfg: Config, limit: nat, g: Graph, c: Compiled) {
    && c.Compiled?
    && SameBut(g, c.graph, None) && AuxGrows(cfg, limit, g.aux, c.graph.aux)
    && IsNew(g, c.graph, c.head) && IsNew(g, c.graph, c.tail) && IsOpen(c.graph, c.tail)
  }

  /** How far a sequence has been built: nothing yet, or an open last pipe. */
  predicate SoFar(g: Graph, first: Option<nat>, last: Option<nat>) {
    if first.None? then last.None? else first.value < |g.pipes| && IsOpen(g, last)
  }

  ghost predicate ChildrenShape(cfg: Config, limit: nat, g: Graph, children: Nodes, first: Option<nat>, last: Option<nat>,
                                c: Compiled) {
    && c.Compiled? && SoFar(c.graph, c.head, c.tail)
    && SameBut(g, c.graph, last) && AuxGrows(cfg, limit, g.aux, c.graph.aux)
    && (last.Some? && last.value < |g.pipes| ==>
          c.graph.pipes[last.value].(next := None) == g.pipes[last.value].(next := None))
    && if AllHeadless(children) then
         c == Compiled(g, first, last)
       else
         IsNew(g, c.graph, c.tail) && (if first.Some? then c.head == first else IsNew(g, c.graph, c.head))
  }

  // ---------------------------------------------------------------------

  lemma AuxGrowsTransitive(cfg: Config, limit: nat, a: map<Key, nat>, b: map<Key, nat>, c: map<Key, nat>)
    requires AuxGrows(cfg, limit, a, b) && AuxGrows(cfg, limit, b, c)
    ensures AuxGrows(cfg, limit, a, c)
  {
  }

  /** What `Link` did: flags to the first pipe of the sequence, the old end linked to `head`. */
  ghost predicate Linked(g: Graph, l: Graph, flags: PipeFlags, first: Option<nat>, last: Option<nat>, head: nat) {
    && |l.pipes| == |g.pipes| && l.aux == g.aux
    && forall i :: 0 <= i < |g.pipes| ==>
         l.pipes[i] == Pipe(g.pipes[i].kind,
                            if first.None? && i == head then g.pipes[i].flags.Or(flags) else g.pipes[i].flags,
                            if last == Some(i) then Some(head) else g.pipes[i].next)
  }

  lemma LinkShape(g0: Graph, g: Graph, flags: PipeFlags, first: Option<nat>, last: Option<nat>, head: nat, tail: Option<nat>)
    requires |g0.pipes| <= head < |g.pipes| && SoFar(g0, first, last) && SameBut(g0, g, None)
    requires var open := if tail.Some? then tail else Some(head); IsNew(g0, g, open) && IsOpen(g, open)
    ensures var l := Link(g, flags, first, last, head, tail);
            var open := if tail.Some? then tail else Some(head);
            && l.Compiled? && Linked(g, l.graph, flags, first, last, head)
            && l.head == (if first.None? then Some(head) else first) && l.tail == open
            && IsOpen(l.graph, open)
  {
  }

  lemma {:induction false} NodeHasShape(cfg: Config, limit: nat, g: Graph, node: Node, atHead: bool)
    requires WellFormed(cfg, limit, node, atHead)
    ensures NodeShape(cfg, limit, g, node, CompileNode(cfg, limit, g, node))
    decreases limit, node, 2
  {
    match node
    case Single(_) =>
    case Reference(key) => ReferenceHasShape(cfg, limit, g, node);
    case Sequence(_, flags, children) =>
      SequenceHasShape(cfg, limit, g, OfLc(flags), children, atHead);
    case Junction(content, branches) =>
      if branches.Cons? {
        JunctionHasShape(cfg, limit, g, node);
      }
    case Conditional(_, _, _) => ConditionalHasShape(cfg, limit, g, node);
  }

  lemma {:induction false} ReferenceHasShape(cfg: Config, limit: nat, g: Graph, node: Node)
    requires node.Reference? && WellFormed(cfg, limit, node, false)
    ensures NodeShape(cfg, limit, g, node, CompileNode(cfg, limit, g, node))
    decreases limit, node, 0
  {
    var key := node.key;
    var rank, def := cfg.Rank(key), cfg.objects[key];
    SequenceHasShape(cfg, rank, g, OfLc(def.flags), def.children, false);
  }

  lemma {:induction false} SequenceHasShape(cfg: Config, limit: nat, g: Graph, flags: PipeFlags, children: Nodes, atHead: bool)
    requires WellFormedList(cfg, limit, children, atHead)
    ensures SequenceShape(cfg, limit, g, CompileSequence(cfg, limit, g, flags, children))
    decreases limit, children, 1
  {
    ChildrenHaveShape(cfg, limit, g, flags, children, None, None, atHead);
  }

  lemma {:induction false} ChildrenHaveShape(cfg: Config, limit: nat, g: Graph, flags: PipeFlags, children: Nodes,
                                             first: Option<nat>, last: Option<nat>, atHead: bool)
    requires WellFormedList(cfg, limit, children, atHead) && SoFar(g, first, last)
    ensures ChildrenShape(cfg, limit, g, children, first, last,
                          CompileChildren(cfg, limit, g, flags, children, first, last))
    decreases limit, children, 0
  {
    if children.Nil? {
    } else {
      var n, rest := children.node, children.next;
      NodeHasShape(cfg, limit, g, n, atHead);
      var c := CompileNode(cfg, limit, g, n);
      if Headless(n) {
        ChildrenHaveShape(cfg, limit, g, flags, rest, first, last, false);
      } else {
        LinkShape(g, c.graph, flags, first, last, c.head.value, c.tail);
        var l := Link(c.graph, flags, first, last, c.head.value, c.tail);
        ChildrenHaveShape(cfg, limit, l.graph, flags, rest, l.head, l.tail, false);
        var d := CompileChildren(cfg, limit, l.graph, flags, rest, l.head, l.tail);
        OneMoreChild(cfg, limit, g, children, flags, first, last, c, l, d);
      }
    }
  }

  /** A child is compiled and linked, then the others. */
  lemma OneMoreChild(cfg: Config, limit: nat, g: Graph, children: Nodes, flags: PipeFlags, first: Option<nat>,
                     last: Option<nat>, c: Compiled, l: Compiled, d: Compiled)
    requires children.Cons? && !Headless(children.node) && SoFar(g, first, last)
    requires c.Compiled? && SameBut(g, c.graph, None) && AuxGrows(cfg, limit, g.aux, c.graph.aux)
    requires IsNew(g, c.graph, c.head) && IsNew(g, c.graph, OpenEnd(c))
    requires l.Compiled? && Linked(c.graph, l.graph, flags, first, last, c.head.value)
    requires l.head == (if first.None? then c.head else first) && l.tail == OpenEnd(c)
    requires ChildrenShape(cfg, limit, l.graph, children.next, l.head, l.tail, d)
    ensures ChildrenShape(cfg, limit, g, children, first, last, d)
  {
    AuxGrowsTransitive(cfg, limit, g.aux, c.graph.aux, d.graph.aux);
  }

  // ---------------------------------------------------------------------
  // Junctions
  // ---------------------------------------------------------------------

  /** Fork and join of a junction with at least one branch. */
  predicate ForkAndJoin(g: Graph, content: Content, fork: Option<nat>, join: Option<nat>) {
    && fork.Some? && fork.value < |g.pipes| && join.Some? && join.value < |g.pipes| && fork != join
    && g.pipes[fork.value].kind.Multiplexer?
    && g.pipes[fork.value]
       == Pipe(Multiplexer(g.pipes[fork.value].kind.hops, content != ContentDestination, false), NO_FLAGS, None)
    && g.pipes[join.value] == Pipe(Forwarder, NO_FLAGS, None)
  }

  function HopsSoFar(g: Graph, fork: Option<nat>): seq<nat> {
    if fork.Some? && fork.value < |g.pipes| && g.pipes[fork.value].kind.Multiplexer?
    then g.pipes[fork.value].kind.hops else []
  }

  ghost predicate BranchesShape(cfg: Config, limit: nat, g: Graph, content: Content, fork: Option<nat>, join: Option<nat>,
                                c: Compiled) {
    && c.Compiled? && ForkAndJoin(c.graph, content, c.head, c.tail)
    && SameBut(g, c.graph, fork) && AuxGrows(cfg, limit, g.aux, c.graph.aux)
    && HopsSoFar(g, fork) <= HopsSoFar(c.graph, c.head)
    && if fork.Some? then c.head == fork && c.tail == join else IsNew(g, c.graph, c.head) && IsNew(g, c.graph, c.tail)
  }

  /** What `AddBranch` did: one more hop, the end of the branch linked to the join. */
  ghost predicate Branched(c: Compiled, r: Compiled, fork: Option<nat>)
    requires c.Compiled? && r.Compiled?
  {
    && |c.graph.pipes| <= |r.graph.pipes| && r.graph.aux == c.graph.aux
    && forall i :: 0 <= i < |c.graph.pipes| && fork != Some(i) ==>
         r.graph.pipes[i] == if c.tail == Some(i) then c.graph.pipes[i].(next := r.tail) else c.graph.pipes[i]
  }

  lemma AddBranchShape(content: Content, g: Graph, c: Compiled, fork: Option<nat>, join: Option<nat>)
    requires c.Compiled? && SameBut(g, c.graph, None)
    requires IsNew(g, c.graph, c.head) && IsNew(g, c.graph, c.tail) && IsOpen(c.graph, c.tail)
    requires fork.Some? ==> ForkAndJoin(g, content, fork, join)
    requires fork.None? ==> join.None?
    ensures var r := AddBranch(content, fork.None?, c, fork, join);
            && r.Compiled? && ForkAndJoin(r.graph, content, r.head, r.tail) && Branched(c, r, fork)
            && |r.graph.pipes| == |c.graph.pipes| + (if fork.Some? then 0 else 2)
            && (if fork.Some? then r.head == fork && r.tail == join
                else IsNew(c.graph, r.graph, r.head) && IsNew(c.graph, r.graph, r.tail))
            && HopsSoFar(r.graph, r.head) == HopsSoFar(g, fork) + [c.head.value]
  {
  }

  lemma {:induction false} BranchesHaveShape(cfg: Config, limit: nat, g: Graph, content: Content, branches: Nodes,
                                             fork: Option<nat>, join: Option<nat>)
    requires WellFormedBranches(cfg, limit, branches)
    requires fork.Some? ==> ForkAndJoin(g, content, fork, join)
    requires fork.None? ==> join.None? && branches.Cons?
    ensures BranchesShape(cfg, limit, g, content, fork, join,
                          CompileBranches(cfg, limit, g, content, branches, fork.None?, fork, join))
    decreases limit, branches, 0
  {
    if branches.Nil? {
    } else {
      NodeHasShape(cfg, limit, g, branches.node, true);
      var c := CompileNode(cfg, limit, g, branches.node);
      AddBranchShape(content, g, c, fork, join);
      var r := AddBranch(content, fork.None?, c, fork, join);
      BranchesHaveShape(cfg, limit, r.graph, content, branches.next, r.head, r.tail);
      var d := CompileBranches(cfg, limit, r.graph, content, branches.next, false, r.head, r.tail);
      OneMoreBranch(cfg, limit, g, content, fork, join, c, r, d);
    }
  }

  lemma OneMoreBranch(cfg: Config, limit: nat, g: Graph, content: Content, fork: Option<nat>, join: Option<nat>,
                      c: Compiled, r: Compiled, d: Compiled)
    requires fork.Some? ==> ForkAndJoin(g, content, fork, join)
    requires c.Compiled? && SameBut(g, c.graph, None) && AuxGrows(cfg, limit, g.aux, c.graph.aux)
    requires IsNew(g, c.graph, c.head) && IsNew(g, c.graph, c.tail)
    requires r.Compiled? && Branched(c, r, fork) && HopsSoFar(g, fork) <= HopsSoFar(r.graph, r.head)
    requires if fork.Some? then r.head == fork && r.tail == join
             else IsNew(c.graph, r.graph, r.head) && IsNew(c.graph, r.graph, r.tail)
    requires BranchesShape(cfg, limit, r.graph, content, r.head, r.tail, d)
    ensures BranchesShape(cfg, limit, g, content, fork, join, d)
  {
    AuxGrowsTransitive(cfg, limit, g.aux, c.graph.aux, d.graph.aux);
  }

  lemma {:induction false} JunctionHasShape(cfg: Config, limit: nat, g: Graph, node: Node)
    requires node.Junction? && node.branches.Cons? && WellFormed(cfg, limit, node, false)
    ensures NodeShape(cfg, limit, g, node, CompileNode(cfg, limit, g, node))
    decreases limit, node, 0
  {
    BranchesHaveShape(cfg, limit, g, node.jcontent, node.branches, None, None);
  }

  // ---------------------------------------------------------------------
  // Conditionals
  // ---------------------------------------------------------------------

  ghost predicate BothEnds(cfg: Config, limit: nat, g: Graph, c: Compiled) {
    && c.Compiled? && SameBut(g, c.graph, None) && AuxGrows(cfg, limit, g.aux, c.graph.aux)
    && IsNew(g, c.graph, c.head) && IsNew(g, c.graph, c.tail) && IsOpen(c.graph, c.tail)
  }

  ghost predicate StagesShape(cfg: Config, limit: nat, g: Graph, s: Stages) {
    && BothEnds(cfg, limit, g, s.thn) && BothEnds(cfg, limit, s.thn.graph, s.els)
    && (s.filter.Some? ==> BothEnds(cfg, limit, ForkBoth(s.els.graph), s.filter.value))
  }

  ghost predicate AreStages(cfg: Config, limit: nat, g: Graph, node: Node, s: Stages) {
    && node.Conditional? && StagesShape(cfg, limit, g, s) && s.filter.Some? == node.filter.Some?
    && s.thn == CompileNode(cfg, limit, g, node.thn)
    && s.els == CompileNode(cfg, limit, s.thn.graph, node.els)
    && (s.filter.Some? ==> s.filter.value == CompileNode(cfg, limit, ForkBoth(s.els.graph), node.filter.value))
  }

  lemma {:induction false} ConditionalHasShape(cfg: Config, limit: nat, g: Graph, node: Node)
    requires node.Conditional? && WellFormed(cfg, limit, node, false)
    ensures NodeShape(cfg, limit, g, node, CompileNode(cfg, limit, g, node))
    decreases limit, node, 1
  {
    var s := ConditionalStages(cfg, limit, g, node);
    StagesHaveShape(cfg, limit, g, s);
  }

  lemma {:induction false} ConditionalStages(cfg: Config, limit: nat, g: Graph, node: Node) returns (s: Stages)
    requires node.Conditional? && WellFormed(cfg, limit, node, false)
    ensures AreStages(cfg, limit, g, node, s) && CompileNode(cfg, limit, g, node) == CloseStages(s)
    decreases limit, node, 0
  {
    var t := BodyStage(cfg, limit, g, node.thn);
    var e := BodyStage(cfg, limit, t.graph, node.els);
    if node.filter.None? {
      s := Stages(t, e, None);
    } else {
      var f := FilterStage(cfg, limit, ForkBoth(e.graph), node.filter.value);
      s := Stages(t, e, Some(f));
    }
    StagesCompile(cfg, limit, g, node, s);
  }

  lemma {:induction false} BodyStage(cfg: Config, limit: nat, g: Graph, node: Node) returns (c: Compiled)
    requires node.Sequence? && WellFormed(cfg, limit, node, true)
    ensures c == CompileNode(cfg, limit, g, node) && BothEnds(cfg, limit, g, c)
    decreases limit, node, 3
  {
    c := CompileNode(cfg, limit, g, node);
    NodeHasShape(cfg, limit, g, node, true);
  }

  lemma {:induction false} FilterStage(cfg: Config, limit: nat, g: Graph, node: Node) returns (c: Compiled)
    requires IsFilterExpr(node)
    ensures c == CompileNode(cfg, limit, g, node) && BothEnds(cfg, limit, g, c)
    decreases limit, node, 3
  {
    c := CompileNode(cfg, limit, g, node);
    FilterWellFormed(cfg, limit, node);
    NodeHasShape(cfg, limit, g, node, false);
  }

  lemma StagesCompile(cfg: Config, limit: nat, g: Graph, node: Node, s: Stages)
    requires AreStages(cfg, limit, g, node, s)
    ensures CompileNode(cfg, limit, g, node) == CloseStages(s)
  {
  }

  /** The graph before the last step: fork and join are there, still unlinked. */
  ghost predicate BeforeCloseShape(cfg: Config, limit: nat, g: Graph, s: Stages, f: Graph)
    requires HasEnds(s.els)
  {
    var fork := |s.els.graph.pipes|;
    && SameBut(s.els.graph, f, None) && AuxGrows(cfg, limit, g.aux, f.aux) && fork + 1 < |f.pipes|
    && f.pipes[fork] == Pipe(Multiplexer([], true, false), NO_FLAGS, None)
    && f.pipes[fork + 1] == Pipe(Forwarder, JUNCTION_END, None)
  }

  lemma BeforeCloseHasShape(cfg: Config, limit: nat, g: Graph, s: Stages)
    requires StagesShape(cfg, limit, g, s)
    ensures BeforeCloseShape(cfg, limit, g, s, BeforeClose(s).0)
  {
    AuxGrowsTransitive(cfg, limit, g.aux, s.thn.graph.aux, s.els.graph.aux);
    if s.filter.Some? {
      GuardShape(ForkBoth(s.els.graph), s.filter.value, s.thn.head.value);
      AuxGrowsTransitive(cfg, limit, g.aux, s.els.graph.aux, s.filter.value.graph.aux);
    }
  }

  lemma StagesClose(cfg: Config, limit: nat, g: Graph, s: Stages, f: Graph, thnHead: nat)
    requires HasEnds(s.thn) && HasEnds(s.els)
    requires BothEnds(cfg, limit, g, s.thn) && BothEnds(cfg, limit, s.thn.graph, s.els)
    requires BeforeCloseShape(cfg, limit, g, s, f)
    ensures var fork := |s.els.graph.pipes|;
            var c := CloseConditional(f, fork, fork + 1, thnHead, s.thn.tail.value, s.els.head.value, s.els.tail.value);
            && BothEnds(cfg, limit, g, c) && c.head == Some(fork) && c.tail == Some(fork + 1)
            && Closed(f, c.graph, fork, fork + 1, thnHead, s.els.head.value, s.thn.tail, s.els.tail)
  {
    var fork := |s.els.graph.pipes|;
    CloseShape(cfg, limit, g, s.thn, s.els, f, fork, fork + 1, thnHead);
  }

  lemma StagesHaveShape(cfg: Config, limit: nat, g: Graph, s: Stages)
    requires StagesShape(cfg, limit, g, s)
    ensures var c, f, fork := CloseStages(s), BeforeClose(s), |s.els.graph.pipes|;
            && BothEnds(cfg, limit, g, c) && c.head == Some(fork) && c.tail == Some(fork + 1)
            && BeforeCloseShape(cfg, limit, g, s, f.0)
            && Closed(f.0, c.graph, fork, fork + 1, f.1, s.els.head.value, s.thn.tail, s.els.tail)
  {
    BeforeCloseHasShape(cfg, limit, g, s);
    CloseUnfolds(s, BeforeClose(s).0, BeforeClose(s).1);
    StagesClose(cfg, limit, g, s, BeforeClose(s).0, BeforeClose(s).1);
  }

  lemma CloseUnfolds(s: Stages, f: Graph, thnHead: nat)
    requires Complete(s) && BeforeClose(s) == (f, thnHead)
    ensures var fork := |s.els.graph.pipes|;
            CloseStages(s) ==
            CloseConditional(f, fork, fork + 1, thnHead, s.thn.tail.value, s.els.head.value, s.els.tail.value)
  {
  }

  lemma FilterWellFormed(cfg: Config, limit: nat, node: Node)
    requires IsFilterExpr(node)
    ensures WellFormed(cfg, limit, node, false) && HasBothEnds(node)
  {
  }

  /** What `GuardBranch` did: the filter linked to a new midpoint, that to the body. */
  ghost predicate Guarded(q: Graph, r: Graph, tail: Option<nat>, thnHead: nat) {
    && r.aux == q.aux && |r.pipes| == |q.pipes| + 1
    && r.pipes[|q.pipes|] == Pipe(Forwarder, CONDITIONAL_MIDPOINT, Some(thnHead))
    && forall i :: 0 <= i < |q.pipes| ==>
         r.pipes[i] == if tail == Some(i) then q.pipes[i].(next := Some(|q.pipes|)) else q.pipes[i]
  }

  lemma GuardShape(g: Graph, q: Compiled, thnHead: nat)
    requires q.Compiled? && SameBut(g, q.graph, None)
    requires IsNew(g, q.graph, q.head) && IsNew(g, q.graph, q.tail)
    ensures Guarded(q.graph, GuardBranch(q, thnHead), q.tail, thnHead)
  {
  }

  /** What `CloseConditional` did: two hops at the fork, both ends linked to the join. */
  ghost predicate Closed(f: Graph, c: Graph, fork: nat, join: nat, thnHead: nat, elsHead: nat,
                         thnTail: Option<nat>, elsTail: Option<nat>) {
    && |c.pipes| == |f.pipes| && c.aux == f.aux && fork < |f.pipes|
    && c.pipes[fork] == Pipe(Multiplexer([thnHead, elsHead], true, false), NO_FLAGS, None)
    && forall i :: 0 <= i < |f.pipes| && i != fork ==>
         c.pipes[i] == if thnTail == Some(i) || elsTail == Some(i) then f.pipes[i].(next := Some(join)) else f.pipes[i]
  }

  lemma CloseShape(cfg: Config, limit: nat, g: Graph, t: Compiled, e: Compiled, f: Graph, fork: nat, join: nat, thnHead: nat)
    requires BothEnds(cfg, limit, g, t) && BothEnds(cfg, limit, t.graph, e)
    requires SameBut(e.graph, f, None) && AuxGrows(cfg, limit, g.aux, f.aux)
    requires |e.graph.pipes| <= fork < |f.pipes| && |e.graph.pipes| <= join < |f.pipes| && fork != join
    requires f.pipes[fork] == Pipe(Multiplexer([], true, false), NO_FLAGS, None)
    requires f.pipes[join] == Pipe(Forwarder, JUNCTION_END, None)
    ensures var c := CloseConditional(f, fork, join, thnHead, t.tail.value, e.head.value, e.tail.value);
            && BothEnds(cfg, limit, g, c) && c.head == Some(fork) && c.tail == Some(join)
            && Closed(f, c.graph, fork, join, thnHead, e.head.value, t.tail, e.tail)
  {
    CloseChanges(f, fork, join, thnHead, t.tail.value, e.head.value, e.tail.value);
  }

  lemma CloseChanges(f: Graph, fork: nat, join: nat, thnHead: nat, thnTail: nat, elsHead: nat, elsTail: nat)
    requires fork < |f.pipes| && f.pipes[fork] == Pipe(Multiplexer([], true, false), NO_FLAGS, None)
    requires thnTail < |f.pipes| && elsTail < |f.pipes| && fork != thnTail && fork != elsTail
    ensures var c := CloseConditional(f, fork, join, thnHead, thnTail, elsHead, elsTail);
            && c.head == Some(fork) && c.tail == Some(join)
            && Closed(f, c.graph, fork, join, thnHead, elsHead, Some(thnTail), Some(elsTail))
  {
    assert [] + [thnHead] + [elsHead] == [thnHead, elsHead];
  }
}
