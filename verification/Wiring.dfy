/**
 What it means for a pipe array to be wired like a log expression, and the two
 consequences: the branch flags collected at initialization are the ones of the
 expression, and the initialized graph runs the meaning of the expression.
 */
module Wiring {
  import opened Wrappers
  import opened LogPipe
  import opened LogExpr

  // ---------------------------------------------------------------------
  // The relation
  // ---------------------------------------------------------------------

  /** From `entry`, the pipes `p` form the expression `node` and continue at
      `next`; the first pipe carries the additional flags `extra`.  `aux` maps a
      destination to the first pipe of its only compiled instance. */
  ghost predicate Wired(cfg: Config, limit: nat, p: seq<Pipe>, aux: map<Key, nat>, node: Node,
                        entry: Option<nat>, next: Option<nat>, extra: PipeFlags)
    decreases limit, node, 1
  {
    && entry.Some? && entry.value < |p|
    && var h := entry.value;
    match node
    case Single(e) => p[h] == Pipe(Element(e), extra, next)
    case Reference(key) =>
      && cfg.Resolves(key, limit)
      && if key.content == ContentDestination then
           key in aux && p[h] == Pipe(Multiplexer([aux[key]], false, false), extra, next)
         else
           Wired(cfg, cfg.Rank(key), p, aux, cfg.objects[key], entry, next, extra)
    case Sequence(_, flags, children) =>
      if AllHeadless(children) then
        p[h] == Pipe(Forwarder, extra.Or(OfLc(flags)), next)
      else
        WiredList(cfg, limit, p, aux, children, entry, next, extra.Or(OfLc(flags)))
    case Junction(content, branches) =>
      && IsFork(p, h, content != ContentDestination, extra)
      && exists join: nat ::
           IsJoin(p, join, next) && WiredBranches(cfg, limit, p, aux, branches, p[h].kind.hops, join)
    case Conditional(thn, els, filter) =>
      && IsFork(p, h, true, extra)
      && |p[h].kind.hops| == 2
      && exists join: nat ::
           && IsJoin(p, join, next)
           && Wired(cfg, limit, p, aux, els, Some(p[h].kind.hops[1]), Some(join), NO_FLAGS)
           && if filter.None? then
                Wired(cfg, limit, p, aux, thn, Some(p[h].kind.hops[0]), Some(join), NO_FLAGS)
              else
                exists mid: nat ::
                  && IsMidpoint(p, mid)
                  && Wired(cfg, limit, p, aux, filter.value, Some(p[h].kind.hops[0]), Some(mid), NO_FLAGS)
                  && Wired(cfg, limit, p, aux, thn, p[mid].next, Some(join), NO_FLAGS)
  }

  predicate IsFork(p: seq<Pipe>, h: nat, propagate: bool, extra: PipeFlags) {
    && h < |p| && p[h].kind.Multiplexer?
    && p[h] == Pipe(Multiplexer(p[h].kind.hops, propagate, false), extra, None)
  }

  predicate IsJoin(p: seq<Pipe>, join: nat, next: Option<nat>) {
    join < |p| && p[join] == Pipe(Forwarder, JUNCTION_END, next)
  }

  predicate IsMidpoint(p: seq<Pipe>, mid: nat) {
    mid < |p| && p[mid] == Pipe(Forwarder, CONDITIONAL_MIDPOINT, p[mid].next)
  }

  ghost predicate WiredList(cfg: Config, limit: nat, p: seq<Pipe>, aux: map<Key, nat>, nodes: Nodes,
                            entry: Option<nat>, next: Option<nat>, extra: PipeFlags)
    decreases limit, nodes, 0
  {
    match nodes
    case Nil => entry == next && extra == NO_FLAGS
    case Cons(n, rest) =>
      if Headless(n) then
        WiredList(cfg, limit, p, aux, rest, entry, next, extra)
      else
        exists middle: Option<nat> ::
          && Wired(cfg, limit, p, aux, n, entry, middle, extra)
          && WiredList(cfg, limit, p, aux, rest, middle, next, NO_FLAGS)
  }

  ghost predicate WiredBranches(cfg: Config, limit: nat, p: seq<Pipe>, aux: map<Key, nat>, branches: Nodes,
                                hops: seq<nat>, join: nat)
    decreases limit, branches, 0
  {
    match branches
    case Nil => hops == []
    case Cons(n, rest) =>
      && hops != []
      && Wired(cfg, limit, p, aux, n, Some(hops[0]), Some(join), NO_FLAGS)
      && WiredBranches(cfg, limit, p, aux, rest, hops[1..], join)
  }

  /** A bound on the call depth the expression adds. */
  function Cost(cfg: Config, limit: nat, node: Node): nat
    decreases limit, node, 1
  {
    match node
    case Single(_) => 1
    case Reference(key) =>
      if !cfg.Resolves(key, limit) then 0 else 1 + Cost(cfg, cfg.Rank(key), cfg.objects[key])
    case Sequence(_, _, children) => 1 + CostOfList(cfg, limit, children)
    case Junction(_, branches) => 2 + CostOfList(cfg, limit, branches)
    case Conditional(thn, els, filter) =>
      3 + Cost(cfg, limit, thn) + Cost(cfg, limit, els)
      + (if filter.None? then 0 else Cost(cfg, limit, filter.value))
  }

  function CostOfList(cfg: Config, limit: nat, nodes: Nodes): nat
    decreases limit, nodes, 0
  {
    match nodes
    case Nil => 0
    case Cons(n, rest) => Cost(cfg, limit, n) + CostOfList(cfg, limit, rest)
  }

  // ---------------------------------------------------------------------
  // Branch flags
  // ---------------------------------------------------------------------

  ghost predicate ChainIs(p: seq<Pipe>, at: Option<nat>, flags: PipeFlags, depth: nat) {
    forall n: nat :: n >= depth ==> ChainFlags(p, at, n) == flags
  }

  lemma ChainStep(p: seq<Pipe>, id: nat, flags: PipeFlags, depth: nat)
    requires id < |p| && ChainIs(p, p[id].next, flags, depth)
    ensures ChainIs(p, Some(id), p[id].flags.Branch().Or(flags), depth + 1)
  {
    forall n: nat | n >= depth + 1
      ensures ChainFlags(p, Some(id), n) == p[id].flags.Branch().Or(flags)
    {
      assert ChainFlags(p, p[id].next, n - 1) == flags;
    }
  }

  lemma {:induction false} NoFlagsInside(cfg: Config, limit: nat, node: Node)
    requires WellFormed(cfg, limit, node, false)
    ensures BranchFlags(node) == NO_FLAGS
    decreases node
  {
    if node.Sequence? && node.children.Cons? {
      NoFlagsInside(cfg, limit, node.children.node);
    }
  }

  /** Following `pipe_next` from the first pipe of an expression collects the
      flags of that expression and nothing from what comes after it. */
  lemma {:induction false} ChainOfWired(cfg: Config, limit: nat, p: seq<Pipe>, aux: map<Key, nat>, node: Node,
                                        entry: Option<nat>, next: Option<nat>, extra: PipeFlags,
                                        atHead: bool, depth: nat)
    requires WellFormed(cfg, limit, node, atHead)
    requires Wired(cfg, limit, p, aux, node, entry, next, extra)
    requires ChainIs(p, next, NO_FLAGS, depth)
    ensures ChainIs(p, entry, extra.Branch().Or(BranchFlags(node)), depth + Cost(cfg, limit, node))
    decreases limit, node, 1
  {
    var h := entry.value;
    match node
    case Single(_) => ChainStep(p, h, NO_FLAGS, depth);
    case Reference(key) =>
      if key.content == ContentDestination {
        ChainStep(p, h, NO_FLAGS, depth);
      } else {
        var def := cfg.objects[key];
        ChainOfSequence(cfg, cfg.Rank(key), p, aux, def, entry, next, extra, false, depth);
        if def.children.Cons? {
          NoFlagsInside(cfg, cfg.Rank(key), def.children.node);
        }
      }
    case Sequence(_, _, _) => ChainOfSequence(cfg, limit, p, aux, node, entry, next, extra, atHead, depth);
    case Junction(_, _) => ChainStep(p, h, NO_FLAGS, 0);
    case Conditional(_, _, _) => ChainStep(p, h, NO_FLAGS, 0);
  }

  lemma {:induction false} ChainOfSequence(cfg: Config, limit: nat, p: seq<Pipe>, aux: map<Key, nat>, node: Node,
                                           entry: Option<nat>, next: Option<nat>, extra: PipeFlags,
                                           atHead: bool, depth: nat)
    requires node.Sequence? && WellFormedList(cfg, limit, node.children, atHead)
    requires Wired(cfg, limit, p, aux, node, entry, next, extra)
    requires ChainIs(p, next, NO_FLAGS, depth)
    ensures ChainIs(p, entry, extra.Branch().Or(BranchFlags(node)), depth + Cost(cfg, limit, node))
    decreases limit, node, 0
  {
    var own := extra.Or(OfLc(node.flags));
    if AllHeadless(node.children) {
      ChainStep(p, entry.value, NO_FLAGS, depth);
      assert node.children.Cons? ==> BranchFlags(node.children.node) == NO_FLAGS;
    } else {
      ChainOfList(cfg, limit, p, aux, node.children, entry, next, own, atHead, depth);
    }
  }

  lemma {:induction false} ChainOfList(cfg: Config, limit: nat, p: seq<Pipe>, aux: map<Key, nat>, nodes: Nodes,
                                       entry: Option<nat>, next: Option<nat>, extra: PipeFlags,
                                       atHead: bool, depth: nat)
    requires WellFormedList(cfg, limit, nodes, atHead)
    requires WiredList(cfg, limit, p, aux, nodes, entry, next, extra)
    requires ChainIs(p, next, NO_FLAGS, depth)
    ensures ChainIs(p, entry,
                    extra.Branch().Or(if nodes.Cons? then BranchFlags(nodes.node) else NO_FLAGS),
                    depth + CostOfList(cfg, limit, nodes))
    decreases limit, nodes, 0
  {
    if nodes.Nil? {
    } else {
      var n, rest := nodes.node, nodes.next;
      if rest.Cons? {
        NoFlagsInside(cfg, limit, rest.node);
      }
      if Headless(n) {
        ChainOfList(cfg, limit, p, aux, rest, entry, next, extra, false, depth);
      } else {
        var middle: Option<nat> :| Wired(cfg, limit, p, aux, n, entry, middle, extra)
                                   && WiredList(cfg, limit, p, aux, rest, middle, next, NO_FLAGS);
        ChainOfList(cfg, limit, p, aux, rest, middle, next, NO_FLAGS, false, depth);
        ChainOfWired(cfg, limit, p, aux, n, entry, middle, extra, atHead, depth + CostOfList(cfg, limit, rest));
      }
    }
  }
}
