/**
 The brackets of junctions (lib/logpipe.h): a fork pushes a matched cell, the
 midpoint of an if exchanges it for that of the enclosing path, the join removes
 it.  Along every path through compiled pipes, what stands behind an expression
 sees the matched cell and the parent link that were seen in front of it.

 The proof labels every pipe with the forks it is inside of.  A label belongs to
 the pipe and not to the path, so labels that fit along every link and every hop
 say something about all paths at once (`PathsFit`).  `CompiledBrackets` finds
 such labels for whatever the compiler builds.
 */
module Brackets {
  import opened Wrappers
  import opened LogPipe

  // ---------------------------------------------------------------------
  // Paths
  // ---------------------------------------------------------------------

  /** From a pipe a message goes along `pipe_next` or into one of the hops, where the
      multiplexer pushes a matched cell. */
  datatype Move = Along | Into(hop: nat, cell: nat)

  datatype Place = Place(at: nat, o: LogPathOptions)

  /** Where a path leads, and the options that arrive there. */
  function Follow(p: seq<Pipe>, at: nat, o: LogPathOptions, moves: seq<Move>): Option<Place>
    decreases |moves|
  {
    if at >= |p| then None
    else if moves == [] then Some(Place(at, o))
    else
      var inside := EnterPipe(p[at].flags, o);
      match moves[0]
      case Along =>
        if p[at].next.None? then None else Follow(p, p[at].next.value, inside, moves[1..])
      case Into(hop, cell) =>
        if !p[at].kind.Multiplexer? || hop >= |p[at].kind.hops| then None
        else Follow(p, p[at].kind.hops[hop], PushJunction(cell, inside), moves[1..])
  }

  predicate SameTarget(a: LogPathOptions, b: LogPathOptions) {
    a.matched == b.matched && a.parent == b.parent && a.ackNeeded == b.ackNeeded
  }

  // ---------------------------------------------------------------------
  // Labels
  // ---------------------------------------------------------------------

  /** `stack`: one entry per fork the pipe is inside of, the innermost last, true behind
      the midpoint of that fork.  `root`: the expression itself and every destination,
      which is shared and left by no path, have numbers of their own. */
  datatype Label = Label(root: nat, stack: seq<bool>)
  {
    function Inner(past: bool): Label { Label(root, stack + [past]) }
  }

  /** What a pipe makes of its label, if it has any bracket to close. */
  function Out(flags: PipeFlags, stack: seq<bool>): Option<seq<bool>> {
    if (flags.junctionEnd || flags.conditionalMidpoint) && stack == [] then None
    else
      var s := if flags.junctionEnd then stack[..|stack| - 1] else stack;
      if !flags.conditionalMidpoint then Some(s)
      else if s == [] then None
      else Some(s[..|s| - 1] + [true])
  }

  /** The label `weak` claims no more than `strong`. */
  predicate Implies(strong: seq<bool>, weak: seq<bool>) {
    |strong| == |weak| && forall k :: 0 <= k < |weak| && weak[k] ==> strong[k]
  }

  predicate LinkFits(labels: seq<Label>, root: nat, out: seq<bool>, to: nat) {
    to < |labels| && labels[to].root == root && Implies(out, labels[to].stack)
  }

  /** A hop goes one fork deeper, or into a destination. */
  predicate HopFits(labels: seq<Label>, root: nat, out: seq<bool>, to: nat) {
    LinkFits(labels, root, out + [false], to)
    || (to < |labels| && labels[to].root < root && labels[to].stack == [])
  }

  predicate PipeFits(p: seq<Pipe>, labels: seq<Label>, i: nat)
    requires i < |p| && i < |labels|
  {
    var out := Out(p[i].flags, labels[i].stack);
    && out.Some?
    && (p[i].next.Some? ==> LinkFits(labels, labels[i].root, out.value, p[i].next.value))
    && (p[i].kind.Multiplexer? ==>
          forall k :: 0 <= k < |p[i].kind.hops| ==> HopFits(labels, labels[i].root, out.value, p[i].kind.hops[k]))
  }

  ghost predicate Labelled(p: seq<Pipe>, labels: seq<Label>) {
    |labels| == |p| && forall i: nat :: i < |p| ==> PipeFits(p, labels, i)
  }

  // ---------------------------------------------------------------------
  // What labels say about options
  // ---------------------------------------------------------------------

  /** The options of a pipe inside the forks `stack`, if `base` arrived at its root:
      every fork left its own options as parent, down to those of the root; behind a
      midpoint the matched cell is that of the parent. */
  predicate Fits(o: LogPathOptions, base: LogPathOptions, stack: seq<bool>)
    decreases |stack|
  {
    if stack == [] then SameTarget(o, base)
    else
      && o.parent.Some? && o.ackNeeded == o.parent.value.ackNeeded
      && Fits(o.parent.value, base, stack[..|stack| - 1])
      && (stack[|stack| - 1] ==> o.matched == o.parent.value.matched)
  }

  /** Only the target matters. */
  lemma FitsSame(o: LogPathOptions, o': LogPathOptions, base: LogPathOptions, stack: seq<bool>)
    requires Fits(o, base, stack) && SameTarget(o, o')
    ensures Fits(o', base, stack)
  {
  }

  lemma {:induction false} FitsWeaker(o: LogPathOptions, base: LogPathOptions, strong: seq<bool>, weak: seq<bool>)
    requires Fits(o, base, strong) && Implies(strong, weak)
    ensures Fits(o, base, weak)
    decreases |strong|
  {
    if strong == [] {
    } else {
      var n := |strong| - 1;
      assert weak[n] ==> strong[n];
      FitsWeaker(o.parent.value, base, strong[..n], weak[..n]);
    }
  }

  lemma PushFits(cell: nat, o: LogPathOptions, base: LogPathOptions, stack: seq<bool>)
    requires Fits(o, base, stack)
    ensures Fits(PushJunction(cell, o), base, stack + [false])
  {
    assert (stack + [false])[..|stack|] == stack;
  }

  lemma PopFits(o: LogPathOptions, base: LogPathOptions, stack: seq<bool>)
    requires Fits(o, base, stack) && stack != []
    ensures Fits(PopJunction(o), base, stack[..|stack| - 1])
  {
    FitsSame(o.parent.value, PopJunction(o), base, stack[..|stack| - 1]);
  }

  lemma MidpointFits(o: LogPathOptions, base: LogPathOptions, stack: seq<bool>)
    requires Fits(o, base, stack) && stack != []
    ensures Fits(PopConditional(o), base, stack[..|stack| - 1] + [true])
  {
    assert (stack[..|stack| - 1] + [true])[..|stack| - 1] == stack[..|stack| - 1];
  }

  lemma EnterFits(flags: PipeFlags, o: LogPathOptions, base: LogPathOptions, stack: seq<bool>)
    requires Fits(o, base, stack) && Out(flags, stack).Some?
    ensures Fits(EnterPipe(flags, o), base, Out(flags, stack).value)
  {
    var o1 := if flags.hardFlowControl then o.(flowControlRequested := true) else o;
    FitsSame(o, o1, base, stack);
    var o2 := if flags.junctionEnd then PopJunction(o1) else o1;
    var s := if flags.junctionEnd then stack[..|stack| - 1] else stack;
    if flags.junctionEnd {
      PopFits(o1, base, stack);
    }
    if flags.conditionalMidpoint {
      MidpointFits(o2, base, s);
    }
  }

  /** One move from a pipe whose label fits to a pipe whose label fits; into a destination
      everything starts anew. */
  lemma LinkKeeps(labels: seq<Label>, root: nat, out: seq<bool>, to: nat, o: LogPathOptions, base: LogPathOptions)
    requires LinkFits(labels, root, out, to) && Fits(o, base, out)
    ensures Fits(o, base, labels[to].stack)
  {
    FitsWeaker(o, base, out, labels[to].stack);
  }

  /** The label of the pipe a path leads to fits the options that arrive there, and those
      that came in, as long as the path has not gone into a destination; none comes back
      out of one. */
  ghost predicate Arrives(labels: seq<Label>, root: nat, base: LogPathOptions, place: Option<Place>) {
    place.Some? ==>
      && place.value.at < |labels| && labels[place.value.at].root <= root
      && (exists b: LogPathOptions :: Fits(place.value.o, b, labels[place.value.at].stack))
      && (labels[place.value.at].root == root ==> Fits(place.value.o, base, labels[place.value.at].stack))
  }

  lemma {:induction false} PathsFit(p: seq<Pipe>, labels: seq<Label>, at: nat, o: LogPathOptions, base: LogPathOptions,
                                    moves: seq<Move>)
    requires Labelled(p, labels) && at < |p| && Fits(o, base, labels[at].stack)
    ensures Arrives(labels, labels[at].root, base, Follow(p, at, o, moves))
    decreases |moves|, 0
  {
    if moves == [] {
    } else {
      assert PipeFits(p, labels, at);
      var out, inside := Out(p[at].flags, labels[at].stack).value, EnterPipe(p[at].flags, o);
      EnterFits(p[at].flags, o, base, labels[at].stack);
      match moves[0]
      case Along =>
        if p[at].next.Some? {
          LinkKeeps(labels, labels[at].root, out, p[at].next.value, inside, base);
          PathsFit(p, labels, p[at].next.value, inside, base, moves[1..]);
        }
      case Into(hop, cell) =>
        if p[at].kind.Multiplexer? && hop < |p[at].kind.hops| {
          HopsFit(p, labels, at, p[at].kind.hops[hop], PushJunction(cell, inside), out, base, cell, inside, moves[1..]);
        }
    }
  }

  lemma {:induction false} HopsFit(p: seq<Pipe>, labels: seq<Label>, at: nat, to: nat, pushed: LogPathOptions, out: seq<bool>,
                                   base: LogPathOptions, cell: nat, inside: LogPathOptions, rest: seq<Move>)
    requires Labelled(p, labels) && at < |p| && HopFits(labels, labels[at].root, out, to)
    requires Fits(inside, base, out) && pushed == PushJunction(cell, inside)
    ensures Arrives(labels, labels[at].root, base, Follow(p, to, pushed, rest))
    decreases |rest|, 1
  {
    if LinkFits(labels, labels[at].root, out + [false], to) {
      PushFits(cell, inside, base, out);
      LinkKeeps(labels, labels[at].root, out + [false], to, pushed, base);
      PathsFit(p, labels, to, pushed, base, rest);
    } else {
      PathsFit(p, labels, to, pushed, pushed, rest);
    }
  }

  /** Brackets balance: wherever the labels of two pipes say "inside no fork of this
      expression", every path from one to the other leads back to the same matched cell
      and parent link. */
  lemma BracketsBalance(p: seq<Pipe>, labels: seq<Label>, from: nat, o: LogPathOptions, moves: seq<Move>)
    requires Labelled(p, labels) && from < |p| && labels[from].stack == []
    ensures var place := Follow(p, from, o, moves);
            place.Some? && place.value.at < |p| && labels[place.value.at] == labels[from] ==> SameTarget(place.value.o, o)
  {
    PathsFit(p, labels, from, o, o, moves);
  }

  /** The same seen behind the last pipe of an expression, which may be a join. */
  lemma BalanceBehind(p: seq<Pipe>, labels: seq<Label>, from: nat, to: nat, o: LogPathOptions, moves: seq<Move>)
    requires Labelled(p, labels) && from < |p| && labels[from].stack == []
    requires to < |p| && labels[to].root == labels[from].root && Out(p[to].flags, labels[to].stack) == Some([])
    ensures var place := Follow(p, from, o, moves);
            place.Some? && place.value.at == to ==> SameTarget(EnterPipe(p[to].flags, place.value.o), o)
  {
    PathsFit(p, labels, from, o, o, moves);
    var place := Follow(p, from, o, moves);
    if place.Some? && place.value.at == to {
      EnterFits(p[to].flags, place.value.o, o, labels[to].stack);
    }
  }

  /** No path closes a bracket it did not open. */
  lemma ClosesOpenBracket(p: seq<Pipe>, labels: seq<Label>, from: nat, o: LogPathOptions, moves: seq<Move>)
    requires Labelled(p, labels) && from < |p| && labels[from].stack == []
    ensures var place := Follow(p, from, o, moves);
            place.Some? ==> place.value.at < |p|
                            && (p[place.value.at].flags.junctionEnd || p[place.value.at].flags.conditionalMidpoint ==>
                                  place.value.o.parent.Some?)
  {
    PathsFit(p, labels, from, o, o, moves);
    var place := Follow(p, from, o, moves);
    if place.Some? {
      assert PipeFits(p, labels, place.value.at);
    }
  }

  /** Behind the midpoint of an `if`, a mismatch clears the cell of the path around the
      conditional and not the one that selects the branch. */
  lemma MidpointSeesEnclosing(p: seq<Pipe>, labels: seq<Label>, from: nat, to: nat, o: LogPathOptions, moves: seq<Move>)
    requires Labelled(p, labels) && from < |p| && labels[from].stack == []
    requires to < |p| && labels[to] == labels[from].Inner(false)
    requires p[to].flags.conditionalMidpoint && !p[to].flags.junctionEnd
    ensures var place := Follow(p, from, o, moves);
            place.Some? && place.value.at == to ==> EnterPipe(p[to].flags, place.value.o).matched == o.matched
  {
    PathsFit(p, labels, from, o, o, moves);
    var place := Follow(p, from, o, moves);
    if place.Some? && place.value.at == to {
      assert labels[to].stack[..0] == [];
      assert Fits(place.value.o.parent.value, o, []);
    }
  }
}
