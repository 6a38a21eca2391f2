/** Every graph the compiler builds can be labelled with its brackets. */
module CompiledBrackets {
  import opened Wrappers
  import opened LogPipe
  import opened LogExpr
  import opened CfgTree
  import opened CompileShape
  import opened Brackets
  import opened PipeRuns
  import opened WiringRuns

  /** All pipes are labelled, and every destination compiled so far is a root. */
  ghost predicate Bracketed(cfg: Config, g: Graph, labels: seq<Label>) {
    && Labelled(g.pipes, labels)
    && forall key :: key in g.aux ==> g.aux[key] < |labels| && labels[g.aux[key]] == Label(cfg.Rank(key), [])
  }

  /** What leaves the pipe `id` fits the label `at`. */
  predicate LeavesAt(g: Graph, labels: seq<Label>, id: Option<nat>, at: Label) {
    && id.Some? && id.value < |g.pipes| && id.value < |labels| && labels[id.value].root == at.root
    && var out := Out(g.pipes[id.value].flags, labels[id.value].stack);
       out.Some? && Implies(out.value, at.stack)
  }

  predicate EntersAt(labels: seq<Label>, id: Option<nat>, at: Label) {
    id.Some? && id.value < |labels| && labels[id.value] == at
  }

  /** `labels` extends `older` to the compiled graph, which is entered and left at `at`. */
  ghost predicate BracketedAt(cfg: Config, c: Compiled, open: Option<nat>, at: Label, older: seq<Label>, labels: seq<Label>) {
    && c.Compiled? && Bracketed(cfg, c.graph, labels) && older <= labels
    && EntersAt(labels, c.head, at) && LeavesAt(c.graph, labels, open, at)
  }

  // ---------------------------------------------------------------------
  // Elementary changes
  // ---------------------------------------------------------------------

  lemma FitsAfter(labels: seq<Label>, more: seq<Label>, root: nat, out: seq<bool>, to: nat)
    requires labels <= more
    ensures LinkFits(labels, root, out, to) ==> LinkFits(more, root, out, to)
    ensures HopFits(labels, root, out, to) ==> HopFits(more, root, out, to)
  {
  }

  /** A pipe that did not change still fits among more pipes. */
  lemma PipeStillFits(p: seq<Pipe>, q: seq<Pipe>, labels: seq<Label>, more: seq<Label>, i: nat)
    requires i < |p| && i < |q| && i < |labels| && labels <= more && PipeFits(p, labels, i)
    requires q[i].kind == p[i].kind && q[i].next == p[i].next
    requires q[i].flags.junctionEnd == p[i].flags.junctionEnd
    requires q[i].flags.conditionalMidpoint == p[i].flags.conditionalMidpoint
    ensures PipeFits(q, more, i)
  {
    var out := Out(p[i].flags, labels[i].stack).value;
    assert Out(q[i].flags, more[i].stack) == Some(out);
    if p[i].kind.Multiplexer? {
      forall k | 0 <= k < |q[i].kind.hops| ensures HopFits(more, more[i].root, out, q[i].kind.hops[k]) {
        FitsAfter(labels, more, labels[i].root, out, p[i].kind.hops[k]);
      }
    }
  }

  /** One more pipe at the end. */
  lemma AddPipeBrackets(cfg: Config, g: Graph, kind: Kind, flags: PipeFlags, at: Label, older: seq<Label>)
    requires Bracketed(cfg, g, older) && Out(flags, at.stack).Some?
    requires kind.Multiplexer? ==>
               forall k :: 0 <= k < |kind.hops| ==> HopFits(older, at.root, Out(flags, at.stack).value, kind.hops[k])
    ensures Bracketed(cfg, AddPipe(g, kind, flags), older + [at])
  {
    var q, labels := AddPipe(g, kind, flags).pipes, older + [at];
    forall i: nat | i < |q| ensures PipeFits(q, labels, i) {
      if i < |g.pipes| {
        PipeStillFits(g.pipes, q, older, labels, i);
      }
    }
  }

  /** The open pipe `from` is linked to `to`. */
  lemma AppendBrackets(cfg: Config, g: Graph, from: nat, to: nat, labels: seq<Label>)
    requires Bracketed(cfg, g, labels) && from < |g.pipes| && to < |g.pipes|
    requires LeavesAt(g, labels, Some(from), labels[to])
    ensures Bracketed(cfg, AppendPipe(g, from, to), labels)
  {
    var q := AppendPipe(g, from, to).pipes;
    forall i: nat | i < |q| ensures PipeFits(q, labels, i) {
      assert PipeFits(g.pipes, labels, i);
      if i != from {
        PipeStillFits(g.pipes, q, labels, labels, i);
      }
    }
  }

  lemma AddHopBrackets(cfg: Config, g: Graph, fork: nat, hop: nat, labels: seq<Label>)
    requires Bracketed(cfg, g, labels) && fork < |g.pipes| && g.pipes[fork].kind.Multiplexer?
    requires g.pipes[fork].flags == NO_FLAGS && hop < |labels| && labels[hop] == labels[fork].Inner(false)
    ensures Bracketed(cfg, AddHop(g, fork, hop), labels)
  {
    var q := AddHop(g, fork, hop).pipes;
    forall i: nat | i < |q| ensures PipeFits(q, labels, i) {
      assert PipeFits(g.pipes, labels, i);
      if i != fork {
        PipeStillFits(g.pipes, q, labels, labels, i);
      } else {
        var hops := g.pipes[fork].kind.hops;
        forall k | 0 <= k < |hops + [hop]| ensures HopFits(labels, labels[fork].root, labels[fork].stack, (hops + [hop])[k]) {
        }
      }
    }
  }

  /** Flags that open and close no brackets. */
  lemma OrFlagsBrackets(cfg: Config, g: Graph, id: nat, flags: PipeFlags, labels: seq<Label>)
    requires Bracketed(cfg, g, labels) && PlainFlags(flags)
    ensures Bracketed(cfg, OrFlags(g, id, flags), labels)
  {
    var q := OrFlags(g, id, flags).pipes;
    forall i: nat | i < |q| ensures PipeFits(q, labels, i) {
      PipeStillFits(g.pipes, q, labels, labels, i);
    }
  }

  // ---------------------------------------------------------------------
  // The induction
  // ---------------------------------------------------------------------

  lemma {:induction false} NodeBrackets(cfg: Config, limit: nat, g: Graph, node: Node, atHead: bool, at: Label,
                                        older: seq<Label>) returns (labels: seq<Label>)
    requires WellFormed(cfg, limit, node, atHead) && !Headless(node)
    requires Bracketed(cfg, g, older) && limit <= at.root
    ensures var c := CompileNode(cfg, limit, g, node);
            c.Compiled? && BracketedAt(cfg, c, OpenEnd(c), at, older, labels)
    decreases limit, node, 3
  {
    match node
    case Single(e) =>
      AddPipeBrackets(cfg, g, Element(e), NO_FLAGS, at, older);
      labels := older + [at];
    case Reference(key) => labels := ReferenceBrackets(cfg, limit, g, node, at, older);
    case Sequence(_, flags, children) =>
      labels := SequenceBrackets(cfg, limit, g, OfLc(flags), children, atHead, at, older);
    case Junction(_, _) => labels := JunctionBrackets(cfg, limit, g, node, at, older);
    case Conditional(_, _, _) => labels := ConditionalBrackets(cfg, limit, g, node, at, older);
  }

  lemma ReferBrackets(cfg: Config, g: Graph, head: nat, at: Label, older: seq<Label>)
    requires Bracketed(cfg, g, older) && head < |older| && older[head].root < at.root && older[head].stack == []
    ensures var c := ReferTo(g, Some(head));
            BracketedAt(cfg, c, OpenEnd(c), at, older, older + [at])
  {
    AddPipeBrackets(cfg, g, Multiplexer([head], false, false), NO_FLAGS, at, older);
  }

  lemma {:induction false} ReferenceBrackets(cfg: Config, limit: nat, g: Graph, node: Node, at: Label, older: seq<Label>)
    returns (labels: seq<Label>)
    requires node.Reference? && WellFormed(cfg, limit, node, false)
    requires Bracketed(cfg, g, older) && limit <= at.root
    ensures var c := CompileNode(cfg, limit, g, node);
            c.Compiled? && BracketedAt(cfg, c, OpenEnd(c), at, older, labels)
    decreases limit, node, 0
  {
    var key := node.key;
    var rank, def := cfg.Rank(key), cfg.objects[key];
    if key.content != ContentDestination {
      labels := SequenceBrackets(cfg, rank, g, OfLc(def.flags), def.children, false, at, older);
    } else if key in g.aux {
      ReferBrackets(cfg, g, g.aux[key], at, older);
      labels := older + [at];
    } else {
      var root := Label(rank, []);
      var within := SequenceBrackets(cfg, rank, g, OfLc(def.flags), def.children, false, root, older);
      var c := CompileNode(cfg, rank, g, def);
      var known := c.graph.(aux := c.graph.aux[key := c.head.value]);
      assert Bracketed(cfg, known, within);
      ReferBrackets(cfg, known, c.head.value, at, within);
      labels := within + [at];
    }
  }

  lemma {:induction false} SequenceBrackets(cfg: Config, limit: nat, g: Graph, flags: PipeFlags, children: Nodes,
                                            atHead: bool, at: Label, older: seq<Label>) returns (labels: seq<Label>)
    requires WellFormedList(cfg, limit, children, atHead) && PlainFlags(flags)
    requires Bracketed(cfg, g, older) && limit <= at.root
    ensures var c := CompileSequence(cfg, limit, g, flags, children);
            c.Compiled? && BracketedAt(cfg, c, c.tail, at, older, labels)
    decreases limit, children, 1
  {
    ChildrenHaveShape(cfg, limit, g, flags, children, None, None, atHead);
    labels := ChildrenBrackets(cfg, limit, g, flags, children, None, None, atHead, at, older);
    var c := CompileChildren(cfg, limit, g, flags, children, None, None);
    if c.head.None? {
      AddPipeBrackets(cfg, c.graph, Forwarder, flags, at, labels);
      labels := labels + [at];
    }
  }

  /** A sequence built so far: nothing yet, or entered and left at `at`. */
  predicate SoFarAt(g: Graph, labels: seq<Label>, first: Option<nat>, last: Option<nat>, at: Label) {
    first.Some? ==> EntersAt(labels, first, at) && LeavesAt(g, labels, last, at)
  }

  lemma LinkBrackets(cfg: Config, g: Graph, c: Compiled, flags: PipeFlags, first: Option<nat>, last: Option<nat>,
                     at: Label, labels: seq<Label>)
    requires c.Compiled? && SoFar(g, first, last) && SameBut(g, c.graph, None) && PlainFlags(flags)
    requires IsNew(g, c.graph, c.head) && IsNew(g, c.graph, OpenEnd(c)) && IsOpen(c.graph, OpenEnd(c))
    requires Bracketed(cfg, c.graph, labels) && EntersAt(labels, c.head, at) && LeavesAt(c.graph, labels, OpenEnd(c), at)
    requires SoFarAt(c.graph, labels, first, last, at)
    ensures var l := Link(c.graph, flags, first, last, c.head.value, c.tail);
            l.Compiled? && Bracketed(cfg, l.graph, labels) && SoFarAt(l.graph, labels, l.head, l.tail, at)
  {
    var head := c.head.value;
    LinkShape(g, c.graph, flags, first, last, head, c.tail);
    var g1 := if first.None? then OrFlags(c.graph, head, flags) else c.graph;
    OrFlagsBrackets(cfg, c.graph, head, flags, labels);
    if last.Some? {
      AppendBrackets(cfg, g1, last.value, head, labels);
    }
  }

  lemma {:induction false} ChildrenBrackets(cfg: Config, limit: nat, g: Graph, flags: PipeFlags, children: Nodes,
                                            first: Option<nat>, last: Option<nat>, atHead: bool, at: Label,
                                            older: seq<Label>) returns (labels: seq<Label>)
    requires WellFormedList(cfg, limit, children, atHead) && SoFar(g, first, last) && PlainFlags(flags)
    requires Bracketed(cfg, g, older) && limit <= at.root && SoFarAt(g, older, first, last, at)
    ensures var c := CompileChildren(cfg, limit, g, flags, children, first, last);
            c.Compiled? && Bracketed(cfg, c.graph, labels) && older <= labels && SoFarAt(c.graph, labels, c.head, c.tail, at)
    decreases limit, children, 0
  {
    labels := older;
    if children.Nil? {
    } else {
      var n, rest := children.node, children.next;
      NodeHasShape(cfg, limit, g, n, atHead);
      var c := CompileNode(cfg, limit, g, n);
      if Headless(n) {
        labels := ChildrenBrackets(cfg, limit, g, flags, rest, first, last, false, at, older);
      } else {
        var more := NodeBrackets(cfg, limit, g, n, atHead, at, older);
        LinkBrackets(cfg, g, c, flags, first, last, at, more);
        LinkShape(g, c.graph, flags, first, last, c.head.value, c.tail);
        var l := Link(c.graph, flags, first, last, c.head.value, c.tail);
        labels := ChildrenBrackets(cfg, limit, l.graph, flags, rest, l.head, l.tail, false, at, more);
      }
    }
  }

  // ---------------------------------------------------------------------
  // Junctions
  // ---------------------------------------------------------------------

  /** The fork is entered at `at`, the join at the end of every branch. */
  predicate ForkedAt(labels: seq<Label>, fork: Option<nat>, join: Option<nat>, at: Label) {
    fork.Some? ==> EntersAt(labels, fork, at) && EntersAt(labels, join, at.Inner(false))
  }

  /** The first branch: fork and join are new. */
  lemma FirstBranchBrackets(cfg: Config, content: Content, c: Compiled, at: Label, labels: seq<Label>)
    requires c.Compiled? && c.head.Some? && c.tail.Some? && Bracketed(cfg, c.graph, labels)
    requires EntersAt(labels, c.head, at.Inner(false)) && LeavesAt(c.graph, labels, c.tail, at.Inner(false))
    ensures var a := AddBranch(content, true, c, None, None);
            var more := labels + [at, at.Inner(false)];
            a.Compiled? && Bracketed(cfg, a.graph, more) && ForkedAt(more, a.head, a.tail, at)
  {
    var f := |c.graph.pipes|;
    var g1 := AddPipe(c.graph, Multiplexer([], content != ContentDestination, false), NO_FLAGS);
    AddPipeBrackets(cfg, c.graph, Multiplexer([], content != ContentDestination, false), NO_FLAGS, at, labels);
    AddHopBrackets(cfg, g1, f, c.head.value, labels + [at]);
    var g2 := AddHop(g1, f, c.head.value);
    AddPipeBrackets(cfg, g2, Forwarder, NO_FLAGS, at.Inner(false), labels + [at]);
    assert labels + [at] + [at.Inner(false)] == labels + [at, at.Inner(false)];
    AppendBrackets(cfg, AddPipe(g2, Forwarder, NO_FLAGS), c.tail.value, f + 1, labels + [at, at.Inner(false)]);
  }

  lemma NextBranchBrackets(cfg: Config, content: Content, c: Compiled, fork: nat, join: nat, at: Label, labels: seq<Label>)
    requires c.Compiled? && c.head.Some? && c.tail.Some? && Bracketed(cfg, c.graph, labels)
    requires EntersAt(labels, c.head, at.Inner(false)) && LeavesAt(c.graph, labels, c.tail, at.Inner(false))
    requires ForkAndJoin(c.graph, content, Some(fork), Some(join)) && ForkedAt(labels, Some(fork), Some(join), at)
    requires c.tail != Some(fork)
    ensures var a := AddBranch(content, false, c, Some(fork), Some(join));
            a.Compiled? && Bracketed(cfg, a.graph, labels) && a.head == Some(fork) && a.tail == Some(join)
  {
    AddHopBrackets(cfg, c.graph, fork, c.head.value, labels);
    var g1 := AddHop(c.graph, fork, c.head.value);
    AppendBrackets(cfg, g1, c.tail.value, join, labels);
  }

  lemma {:induction false} BranchesBrackets(cfg: Config, limit: nat, g: Graph, content: Content, branches: Nodes,
                                            fork: Option<nat>, join: Option<nat>, at: Label, older: seq<Label>)
    returns (labels: seq<Label>)
    requires WellFormedBranches(cfg, limit, branches)
    requires fork.Some? ==> ForkAndJoin(g, content, fork, join)
    requires fork.None? ==> join.None? && branches.Cons?
    requires Bracketed(cfg, g, older) && limit <= at.root && ForkedAt(older, fork, join, at)
    ensures var c := CompileBranches(cfg, limit, g, content, branches, fork.None?, fork, join);
            && c.Compiled? && ForkAndJoin(c.graph, content, c.head, c.tail)
            && Bracketed(cfg, c.graph, labels) && older <= labels && ForkedAt(labels, c.head, c.tail, at)
    decreases limit, branches, 0
  {
    labels := older;
    if branches.Nil? {
    } else {
      NodeHasShape(cfg, limit, g, branches.node, true);
      var c := CompileNode(cfg, limit, g, branches.node);
      AddBranchShape(content, g, c, fork, join);
      var a := AddBranch(content, fork.None?, c, fork, join);
      var more := NodeBrackets(cfg, limit, g, branches.node, true, at.Inner(false), older);
      if fork.None? {
        FirstBranchBrackets(cfg, content, c, at, more);
        more := more + [at, at.Inner(false)];
      } else {
        NextBranchBrackets(cfg, content, c, fork.value, join.value, at, more);
      }
      labels := BranchesBrackets(cfg, limit, a.graph, content, branches.next, a.head, a.tail, at, more);
    }
  }

  /** The join closes the bracket. */
  lemma FinishBrackets(cfg: Config, content: Content, c: Compiled, at: Label, labels: seq<Label>)
    requires c.Compiled? && ForkAndJoin(c.graph, content, c.head, c.tail)
    requires Bracketed(cfg, c.graph, labels) && ForkedAt(labels, c.head, c.tail, at)
    ensures var d := FinishJunction(c);
            d.Compiled? && Bracketed(cfg, d.graph, labels) && EntersAt(labels, d.head, at) && LeavesAt(d.graph, labels, d.tail, at)
  {
    var join := c.tail.value;
    var q := OrFlags(c.graph, join, JUNCTION_END).pipes;
    assert Out(JUNCTION_END, labels[join].stack) == Some(at.stack);
    forall i: nat | i < |q| ensures PipeFits(q, labels, i) {
      if i != join {
        PipeStillFits(c.graph.pipes, q, labels, labels, i);
      }
    }
  }

  lemma {:induction false} JunctionBrackets(cfg: Config, limit: nat, g: Graph, node: Node, at: Label, older: seq<Label>)
    returns (labels: seq<Label>)
    requires node.Junction? && node.branches.Cons? && WellFormed(cfg, limit, node, false)
    requires Bracketed(cfg, g, older) && limit <= at.root
    ensures var c := CompileNode(cfg, limit, g, node);
            c.Compiled? && BracketedAt(cfg, c, OpenEnd(c), at, older, labels)
    decreases limit, node, 0
  {
    labels := BranchesBrackets(cfg, limit, g, node.jcontent, node.branches, None, None, at, older);
    var c := CompileBranches(cfg, limit, g, node.jcontent, node.branches, true, None, None);
    FinishBrackets(cfg, node.jcontent, c, at, labels);
  }

  // ---------------------------------------------------------------------
  // Conditionals
  // ---------------------------------------------------------------------

  /** Both bodies are compiled, and the new fork and join are labelled. */
  lemma ForkBothBrackets(cfg: Config, g: Graph, at: Label, labels: seq<Label>)
    requires Bracketed(cfg, g, labels)
    ensures Bracketed(cfg, ForkBoth(g), labels + [at, at.Inner(false)])
  {
    AddPipeBrackets(cfg, g, Multiplexer([], true, false), NO_FLAGS, at, labels);
    AddPipeBrackets(cfg, AddPipe(g, Multiplexer([], true, false), NO_FLAGS), Forwarder, JUNCTION_END, at.Inner(false),
                    labels + [at]);
    assert labels + [at] + [at.Inner(false)] == labels + [at, at.Inner(false)];
  }

  /** The midpoint stands between the filter and the body. */
  lemma GuardBrackets(cfg: Config, f: Compiled, thnHead: nat, at: Label, labels: seq<Label>)
    requires HasEnds(f) && Bracketed(cfg, f.graph, labels)
    requires LeavesAt(f.graph, labels, f.tail, at.Inner(false)) && EntersAt(labels, Some(thnHead), at.Inner(true))
    ensures Bracketed(cfg, GuardBranch(f, thnHead), labels + [at.Inner(false)])
  {
    var mid, more := |f.graph.pipes|, labels + [at.Inner(false)];
    var g1 := AddPipe(f.graph, Forwarder, CONDITIONAL_MIDPOINT);
    AddPipeBrackets(cfg, f.graph, Forwarder, CONDITIONAL_MIDPOINT, at.Inner(false), labels);
    AppendBrackets(cfg, g1, f.tail.value, mid, more);
    var g2 := AppendPipe(g1, f.tail.value, mid);
    assert Out(CONDITIONAL_MIDPOINT, at.Inner(false).stack) == Some(at.Inner(true).stack);
    AppendBrackets(cfg, g2, mid, thnHead, more);
  }

  lemma CloseBrackets(cfg: Config, g: Graph, fork: nat, join: nat, thnHead: nat, thnTail: nat, elsHead: nat, elsTail: nat,
                      past: bool, at: Label, labels: seq<Label>)
    requires Bracketed(cfg, g, labels) && fork < |g.pipes| && join < |g.pipes|
    requires g.pipes[fork] == Pipe(Multiplexer([], true, false), NO_FLAGS, None) && fork != thnTail && fork != elsTail
    requires g.pipes[join].flags == JUNCTION_END && join != thnTail && join != elsTail
    requires EntersAt(labels, Some(fork), at) && EntersAt(labels, Some(join), at.Inner(false))
    requires EntersAt(labels, Some(thnHead), at.Inner(false)) && EntersAt(labels, Some(elsHead), at.Inner(false))
    requires LeavesAt(g, labels, Some(thnTail), at.Inner(past)) && LeavesAt(g, labels, Some(elsTail), at.Inner(false))
    ensures var c := CloseConditional(g, fork, join, thnHead, thnTail, elsHead, elsTail);
            Bracketed(cfg, c.graph, labels) && EntersAt(labels, c.head, at) && LeavesAt(c.graph, labels, c.tail, at)
  {
    AddHopBrackets(cfg, g, fork, thnHead, labels);
    var g1 := AddHop(g, fork, thnHead);
    AddHopBrackets(cfg, g1, fork, elsHead, labels);
    var g2 := AddHop(g1, fork, elsHead);
    AppendBrackets(cfg, g2, thnTail, join, labels);
    var g3 := AppendPipe(g2, thnTail, join);
    AppendBrackets(cfg, g3, elsTail, join, labels);
    assert Out(JUNCTION_END, at.Inner(false).stack) == Some(at.stack);
  }

  lemma {:induction false} ConditionalBrackets(cfg: Config, limit: nat, g: Graph, node: Node, at: Label, older: seq<Label>)
    returns (labels: seq<Label>)
    requires node.Conditional? && WellFormed(cfg, limit, node, false)
    requires Bracketed(cfg, g, older) && limit <= at.root
    ensures var c := CompileNode(cfg, limit, g, node);
            c.Compiled? && BracketedAt(cfg, c, OpenEnd(c), at, older, labels)
            && (node.filter.Some? ==> MidpointLast(c.graph, labels, at))
    decreases limit, node, 2
  {
    var s := ConditionalStages(cfg, limit, g, node);
    StagesHaveShape(cfg, limit, g, s);
    labels := StagesBrackets(cfg, limit, g, node, s, at, older);
    var f := BeforeClose(s);
    CloseStagesBrackets(cfg, s, f.0, f.1, node.filter.Some?, at, older, labels);
    if node.filter.Some? {
      MidpointStays(s, f.0, CloseStages(s).graph, f.1, at, labels);
    }
  }

  /** The midpoint is the last pipe, inside the fork. */
  predicate MidpointLast(g: Graph, labels: seq<Label>, at: Label) {
    && |labels| == |g.pipes| && |labels| > 0 && labels[|labels| - 1] == at.Inner(false)
    && g.pipes[|labels| - 1].flags == CONDITIONAL_MIDPOINT
  }

  /** Before the last step: bodies, fork and join, and possibly filter and midpoint, are
      labelled; nothing is linked to fork and join yet. */
  ghost predicate StagesAt(cfg: Config, s: Stages, f: Graph, thnHead: nat, guarded: bool, at: Label, older: seq<Label>,
                           labels: seq<Label>)
    requires Complete(s)
  {
    && Bracketed(cfg, f, labels) && older <= labels
    && var fork := |s.els.graph.pipes|;
       && EntersAt(labels, Some(fork), at) && EntersAt(labels, Some(fork + 1), at.Inner(false))
       && EntersAt(labels, Some(thnHead), at.Inner(false)) && EntersAt(labels, s.els.head, at.Inner(false))
       && LeavesAt(f, labels, s.thn.tail, at.Inner(guarded)) && LeavesAt(f, labels, s.els.tail, at.Inner(false))
  }

  lemma CloseStagesBrackets(cfg: Config, s: Stages, f: Graph, thnHead: nat, guarded: bool, at: Label, older: seq<Label>,
                            labels: seq<Label>)
    requires Complete(s) && s.thn.tail.value < |s.els.graph.pipes| && s.els.tail.value < |s.els.graph.pipes|
    requires |s.els.graph.pipes| + 1 < |f.pipes|
    requires f.pipes[|s.els.graph.pipes|] == Pipe(Multiplexer([], true, false), NO_FLAGS, None)
    requires f.pipes[|s.els.graph.pipes| + 1] == Pipe(Forwarder, JUNCTION_END, None)
    requires StagesAt(cfg, s, f, thnHead, guarded, at, older, labels)
    ensures var fork := |s.els.graph.pipes|;
            var c := CloseConditional(f, fork, fork + 1, thnHead, s.thn.tail.value, s.els.head.value, s.els.tail.value);
            BracketedAt(cfg, c, c.tail, at, older, labels)
  {
    var fork := |s.els.graph.pipes|;
    CloseBrackets(cfg, f, fork, fork + 1, thnHead, s.thn.tail.value, s.els.head.value, s.els.tail.value, guarded, at, labels);
  }

  lemma MidpointStays(s: Stages, f: Graph, c: Graph, thnHead: nat, at: Label, labels: seq<Label>)
    requires Complete(s) && Closed(f, c, |s.els.graph.pipes|, |s.els.graph.pipes| + 1, thnHead, s.els.head.value,
                                   s.thn.tail, s.els.tail)
    requires MidpointLast(f, labels, at) && |s.els.graph.pipes| + 2 < |f.pipes|
    ensures MidpointLast(c, labels, at)
  {
  }

  lemma {:induction false} StagesBrackets(cfg: Config, limit: nat, g: Graph, node: Node, s: Stages, at: Label,
                                          older: seq<Label>) returns (labels: seq<Label>)
    requires node.Conditional? && WellFormed(cfg, limit, node, false) && AreStages(cfg, limit, g, node, s)
    requires Bracketed(cfg, g, older) && limit <= at.root
    ensures StagesAt(cfg, s, BeforeClose(s).0, BeforeClose(s).1, node.filter.Some?, at, older, labels)
    ensures node.filter.Some? ==> MidpointLast(BeforeClose(s).0, labels, at) && |labels| > |s.els.graph.pipes| + 2
    decreases limit, node, 1
  {
    labels := BodiesBrackets(cfg, limit, g, node, s, at, older);
    if node.filter.Some? {
      FilterWellFormed(cfg, limit, node.filter.value);
      var f := NodeBrackets(cfg, limit, ForkBoth(s.els.graph), node.filter.value, false, at.Inner(false), labels);
      GuardStages(cfg, limit, g, s, at, older, labels, f);
      labels := f + [at.Inner(false)];
    }
  }

  /** Both bodies, then fork and join. */
  ghost predicate BodiesAt(cfg: Config, s: Stages, guarded: bool, at: Label, older: seq<Label>, labels: seq<Label>)
    requires Complete(s)
  {
    && Bracketed(cfg, ForkBoth(s.els.graph), labels) && older <= labels
    && var b, fork := ForkBoth(s.els.graph), |s.els.graph.pipes|;
       && EntersAt(labels, Some(fork), at) && EntersAt(labels, Some(fork + 1), at.Inner(false))
       && EntersAt(labels, s.thn.head, at.Inner(guarded)) && EntersAt(labels, s.els.head, at.Inner(false))
       && LeavesAt(b, labels, s.thn.tail, at.Inner(guarded)) && LeavesAt(b, labels, s.els.tail, at.Inner(false))
  }

  lemma {:induction false} BodiesBrackets(cfg: Config, limit: nat, g: Graph, node: Node, s: Stages, at: Label,
                                          older: seq<Label>) returns (labels: seq<Label>)
    requires node.Conditional? && WellFormed(cfg, limit, node, false) && AreStages(cfg, limit, g, node, s)
    requires Bracketed(cfg, g, older) && limit <= at.root
    ensures BodiesAt(cfg, s, node.filter.Some?, at, older, labels)
    decreases limit, node, 0
  {
    var t := NodeBrackets(cfg, limit, g, node.thn, true, at.Inner(node.filter.Some?), older);
    var e := NodeBrackets(cfg, limit, s.thn.graph, node.els, true, at.Inner(false), t);
    ForkBothBrackets(cfg, s.els.graph, at, e);
    labels := e + [at, at.Inner(false)];
    BodiesStay(s, node.filter.Some?, at, t, e);
  }

  /** Ends keep their labels while more pipes are added. */
  lemma BodiesStay(s: Stages, guarded: bool, at: Label, t: seq<Label>, e: seq<Label>)
    requires Complete(s) && SameBut(s.thn.graph, s.els.graph, None) && |e| == |s.els.graph.pipes| && t <= e
    requires EntersAt(t, s.thn.head, at.Inner(guarded)) && LeavesAt(s.thn.graph, t, s.thn.tail, at.Inner(guarded))
    requires EntersAt(e, s.els.head, at.Inner(false)) && LeavesAt(s.els.graph, e, s.els.tail, at.Inner(false))
    ensures var labels, b, fork := e + [at, at.Inner(false)], ForkBoth(s.els.graph), |s.els.graph.pipes|;
            && EntersAt(labels, Some(fork), at) && EntersAt(labels, Some(fork + 1), at.Inner(false))
            && EntersAt(labels, s.thn.head, at.Inner(guarded)) && EntersAt(labels, s.els.head, at.Inner(false))
            && LeavesAt(b, labels, s.thn.tail, at.Inner(guarded)) && LeavesAt(b, labels, s.els.tail, at.Inner(false))
  {
  }

  lemma GuardStages(cfg: Config, limit: nat, g: Graph, s: Stages, at: Label, older: seq<Label>, bodies: seq<Label>,
                    filtered: seq<Label>)
    requires StagesShape(cfg, limit, g, s) && s.filter.Some? && BodiesAt(cfg, s, true, at, older, bodies)
    requires BracketedAt(cfg, s.filter.value, s.filter.value.tail, at.Inner(false), bodies, filtered)
    ensures StagesAt(cfg, s, BeforeClose(s).0, BeforeClose(s).1, true, at, older, filtered + [at.Inner(false)])
    ensures MidpointLast(BeforeClose(s).0, filtered + [at.Inner(false)], at) && |filtered| > |s.els.graph.pipes| + 1
  {
    var f := s.filter.value;
    GuardShape(ForkBoth(s.els.graph), f, s.thn.head.value);
    GuardBrackets(cfg, f, s.thn.head.value, at, filtered);
  }

  // ---------------------------------------------------------------------
  // All paths
  // ---------------------------------------------------------------------

  /** Initialization adds branch flags only, so labels still fit. */
  lemma InitLabelled(p: seq<Pipe>, labels: seq<Label>, n: nat)
    requires Labelled(p, labels)
    ensures Labelled(InitPipes(p, n), labels)
  {
    var q := InitPipes(p, n);
    forall i: nat | i < |q| ensures PipeFits(q, labels, i) {
      InitAt(p, n, i);
      assert PipeFits(p, labels, i) && Out(q[i].flags, labels[i].stack) == Out(p[i].flags, labels[i].stack);
    }
  }

  /** From the first pipe of an expression to its last: whatever graph it is compiled
      into, every path through its pipes hands on the matched cell and the parent link
      it came in with. */
  lemma ExpressionBalances(cfg: Config, limit: nat, g: Graph, older: seq<Label>, node: Node, atHead: bool, n: nat,
                           o: LogPathOptions, moves: seq<Move>)
    requires WellFormed(cfg, limit, node, atHead) && !Headless(node) && Bracketed(cfg, g, older)
    ensures var c := CompileNode(cfg, limit, g, node);
            c.Compiled? && c.head.Some? && OpenEnd(c).Some?
            && var q, last := InitPipes(c.graph.pipes, n), OpenEnd(c).value;
               last < |q|
               && var place := Follow(q, c.head.value, o, moves);
                  place.Some? && place.value.at == last ==> SameTarget(EnterPipe(q[last].flags, place.value.o), o)
  {
    var c := CompileNode(cfg, limit, g, node);
    var labels := NodeBrackets(cfg, limit, g, node, atHead, Label(limit, []), older);
    var q, last := InitPipes(c.graph.pipes, n), OpenEnd(c).value;
    InitLabelled(c.graph.pipes, labels, n);
    InitAt(c.graph.pipes, n, last);
    BalanceBehind(q, labels, c.head.value, last, o, moves);
  }

  /** Of a whole compiled expression: brackets balance, and no path closes a bracket it
      did not open. */
  lemma CompiledPathsBalance(cfg: Config, limit: nat, node: Node, n: nat, o: LogPathOptions, moves: seq<Move>)
    requires WellFormed(cfg, limit, node, true) && !Headless(node)
    ensures var c := CompileNode(cfg, limit, EMPTY_GRAPH, node);
            c.Compiled? && c.head.Some? && OpenEnd(c).Some?
            && var q, last := InitPipes(c.graph.pipes, n), OpenEnd(c).value;
               last < |q|
               && var place := Follow(q, c.head.value, o, moves);
                  place.Some? ==>
                    && place.value.at < |q|
                    && (place.value.at == last ==> SameTarget(EnterPipe(q[last].flags, place.value.o), o))
                    && (q[place.value.at].flags.junctionEnd || q[place.value.at].flags.conditionalMidpoint ==>
                          place.value.o.parent.Some?)
  {
    ExpressionBalances(cfg, limit, EMPTY_GRAPH, [], node, true, n, o, moves);
    var c := CompileNode(cfg, limit, EMPTY_GRAPH, node);
    var labels := NodeBrackets(cfg, limit, EMPTY_GRAPH, node, true, Label(limit, []), []);
    InitLabelled(c.graph.pipes, labels, n);
    ClosesOpenBracket(InitPipes(c.graph.pipes, n), labels, c.head.value, o, moves);
  }

  /** Behind the midpoint of a compiled `if`, whatever path led there: a mismatch clears
      the matched cell that was current in front of the conditional. */
  lemma CompiledMidpoint(cfg: Config, limit: nat, g: Graph, older: seq<Label>, node: Node, n: nat,
                         o: LogPathOptions, moves: seq<Move>)
    requires WellFormed(cfg, limit, node, false) && node.Conditional? && node.filter.Some? && Bracketed(cfg, g, older)
    ensures var c := CompileNode(cfg, limit, g, node);
            c.Compiled? && c.head.Some? && |c.graph.pipes| > 0
            && var q, mid := InitPipes(c.graph.pipes, n), |c.graph.pipes| - 1;
               q[mid].flags.conditionalMidpoint
               && var place := Follow(q, c.head.value, o, moves);
                  place.Some? && place.value.at == mid ==> EnterPipe(q[mid].flags, place.value.o).matched == o.matched
  {
    var c := CompileNode(cfg, limit, g, node);
    var labels := ConditionalBrackets(cfg, limit, g, node, Label(limit, []), older);
    var mid := |c.graph.pipes| - 1;
    InitLabelled(c.graph.pipes, labels, n);
    InitAt(c.graph.pipes, n, mid);
    MidpointSeesEnclosing(InitPipes(c.graph.pipes, n), labels, c.head.value, mid, o, moves);
  }
}
