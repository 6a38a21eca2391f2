/**
 Log expressions (lib/cfg-tree.h, lib/cfg-tree.c) and what they mean.

 `Meaning` reads a log expression directly off its tree, without pipes, links
 or matched cells: it lists, in order, what happens to one message.  The
 compiled pipe graph is proved to do exactly this.
 */
module LogExpr {
  import opened Wrappers
  import opened LogPipe

  datatype Content = ContentPipe | ContentFilter | ContentParser | ContentRewrite | ContentDestination

  datatype LcFlags = LcFlags(catchAll: bool, fallback: bool, final: bool, flowControl: bool)

  const NO_LC := LcFlags(false, false, false, false)
  const LC_FINAL := NO_LC.(final := true)

  datatype Key = Key(content: Content, name: string)

  /** Children form a linked list, as in the source. */
  datatype Nodes = Nil | Cons(node: Node, next: Nodes)

  datatype Node =
    | Single(element: nat)
    | Reference(key: Key)
    | Sequence(content: Content, flags: LcFlags, children: Nodes)
    | Junction(jcontent: Content, branches: Nodes)
    | Conditional(thn: Node, els: Node, filter: Option<Node>)

  /** Named objects.  `rank` witnesses that references are acyclic: an object
      only refers to objects of smaller rank. */
  datatype Config = Config(objects: map<Key, Node>, rank: map<Key, nat>, behaviour: Behaviour)
  {
    function Rank(key: Key): nat { if key in rank then rank[key] else 0 }

    /** The reference can be followed from an expression of rank `limit`. */
    predicate Resolves(key: Key, limit: nat) { key in objects && Rank(key) < limit }
  }

  // ---------------------------------------------------------------------
  // Actions
  // ---------------------------------------------------------------------

  /** `Emit`: the message reaches the end of the expression.  `Mismatch(n)`: the
      n-th enclosing junction branch (0 is the innermost) does not match. */
  datatype Action = Deliver(delivery: Delivery) | Emit(item: Item) | Mismatch(level: nat)

  type Meaningful = Item -> seq<Action>

  /** Continues every emitted message with `k`. */
  function Bind(a: seq<Action>, k: Meaningful): seq<Action> {
    if a == [] then []
    else (if a[0].Emit? then k(a[0].item) else [a[0]]) + Bind(a[1..], k)
  }

  /** Nothing follows: the message is dropped at the end of the path. */
  function EndOfPath(i: Item): seq<Action> { [] }

  predicate Matches(a: seq<Action>) { Mismatch(0) !in a }

  function LowerOne(x: Action): seq<Action> {
    if x.Mismatch? then (if x.level == 0 then [] else [Mismatch(x.level - 1)]) else [x]
  }

  /** Actions of a branch as seen from outside the junction. */
  function Lower(a: seq<Action>): seq<Action> {
    if a == [] then [] else LowerOne(a[0]) + Lower(a[1..])
  }

  function LiftOne(x: Action): Action {
    if x.Mismatch? then Mismatch(x.level + 1) else x
  }

  /** Actions after a junction as seen from inside one of its branches. */
  function Lift(a: seq<Action>): seq<Action> {
    if a == [] then [] else [LiftOne(a[0])] + Lift(a[1..])
  }

  function PastMidpointOne(x: Action): Action {
    if x == Mismatch(0) then Mismatch(1) else x
  }

  /** Actions of the body of `if (filter)`: once the filter is past, a mismatch
      belongs to the enclosing path and not to the choice of the branch. */
  function PastMidpoint(a: seq<Action>): seq<Action> {
    if a == [] then [] else [PastMidpointOne(a[0])] + PastMidpoint(a[1..])
  }

  // ---------------------------------------------------------------------
  // Forks
  // ---------------------------------------------------------------------

  datatype Hop = Hop(final: bool, fallback: bool, actions: seq<Action>)

  datatype Tried = Tried(actions: seq<Action>, delivered: bool)

  /** Tries the hops of one kind in order, stopping after a matching final one. */
  function Try(hops: seq<Hop>, fallback: bool): Tried {
    if hops == [] then
      Tried([], false)
    else if hops[0].fallback != fallback then
      Try(hops[1..], fallback)
    else if Matches(hops[0].actions) && hops[0].final then
      Tried(Lower(hops[0].actions), true)
    else
      var rest := Try(hops[1..], fallback);
      Tried(Lower(hops[0].actions) + rest.actions, Matches(hops[0].actions) || rest.delivered)
  }

  predicate HasFallback(hops: seq<Hop>) {
    exists h :: h in hops && h.fallback
  }

  /** Fallback hops are tried only if no other hop matched; the fork itself does
      not match when no hop did. */
  function Fork(hops: seq<Hop>, propagate: bool): seq<Action> {
    var regular := Try(hops, false);
    var extra := if HasFallback(hops) && !regular.delivered then Try(hops, true) else Tried([], false);
    regular.actions + extra.actions
    + (if propagate && !regular.delivered && !extra.delivered then [Mismatch(0)] else [])
  }

  // ---------------------------------------------------------------------
  // Meaning
  // ---------------------------------------------------------------------

  function OrFlow(i: Item, flow: bool): Item { i.(flowControl := i.flowControl || flow) }

  /** Whether a branch ends the search when it matches, and whether it is only tried
      when nothing else matched.  A sequence directly at the head of another one shares
      its first pipe, and so its flags. */
  predicate HeadFinal(node: Node) {
    node.Sequence? && (node.flags.final || (node.children.Cons? && HeadFinal(node.children.node)))
  }

  predicate HeadFallback(node: Node) {
    node.Sequence? && (node.flags.fallback || (node.children.Cons? && HeadFallback(node.children.node)))
  }

  /** The same as flags of the pipes. */
  function BranchFlags(node: Node): (f: PipeFlags)
    ensures f.branchFinal == HeadFinal(node) && f.branchFallback == HeadFallback(node) && f.Branch() == f
  {
    if node.Sequence? then
      OfLc(node.flags).Branch().Or(
        if node.children.Cons? then BranchFlags(node.children.node) else NO_FLAGS)
    else
      NO_FLAGS
  }

  function OfLc(f: LcFlags): PipeFlags {
    NO_FLAGS.(branchFinal := f.final, branchFallback := f.fallback, hardFlowControl := f.flowControl)
  }

  function MeaningOfElement(cfg: Config, e: nat, i: Item): seq<Action> {
    match cfg.behaviour(e, i.msg)
    case Pass(m) => [Emit(i.(msg := m))]
    case Reject => [Mismatch(0)]
    case Consume => [Deliver(Delivery(e, i))]
  }

  function Meaning(cfg: Config, limit: nat, node: Node, i: Item): seq<Action>
    decreases limit, node, 1
  {
    match node
    case Single(e) => MeaningOfElement(cfg, e, i)
    case Reference(key) =>
      if !cfg.Resolves(key, limit) then []
      else if key.content == ContentDestination then
        // a copy goes to the destination, whatever becomes of it there
        Lower(Bind(Meaning(cfg, cfg.Rank(key), cfg.objects[key], i), EndOfPath)) + [Emit(i)]
      else
        Meaning(cfg, cfg.Rank(key), cfg.objects[key], i)
    case Sequence(_, flags, children) =>
      MeaningOfList(cfg, limit, children, OrFlow(i, flags.flowControl))
    case Junction(content, branches) =>
      if branches.Nil? then [Emit(i)]
      else Fork(HopsOf(cfg, limit, branches, i), content != ContentDestination)
    case Conditional(thn, els, filter) =>
      var yes := if filter.None? then Meaning(cfg, limit, thn, i)
                 else Bind(Meaning(cfg, limit, filter.value, i),
                           j => PastMidpoint(Meaning(cfg, limit, thn, j)));
      Fork([HopFor(thn, yes), HopFor(els, Meaning(cfg, limit, els, i))], true)
  }

  function HopFor(node: Node, actions: seq<Action>): Hop {
    Hop(HeadFinal(node), HeadFallback(node), actions)
  }

  function MeaningOfList(cfg: Config, limit: nat, nodes: Nodes, i: Item): seq<Action>
    decreases limit, nodes, 0
  {
    match nodes
    case Nil => [Emit(i)]
    case Cons(n, rest) => Bind(Meaning(cfg, limit, n, i), j => MeaningOfList(cfg, limit, rest, j))
  }

  function HopsOf(cfg: Config, limit: nat, branches: Nodes, i: Item): seq<Hop>
    decreases limit, branches, 0
  {
    match branches
    case Nil => []
    case Cons(n, rest) => [HopFor(n, Meaning(cfg, limit, n, i))] + HopsOf(cfg, limit, rest, i)
  }

  // ---------------------------------------------------------------------
  // Well-formedness
  // ---------------------------------------------------------------------

  predicate Headless(node: Node) { node.Junction? && node.branches.Nil? }

  predicate AllHeadless(nodes: Nodes) {
    nodes.Nil? || (Headless(nodes.node) && AllHeadless(nodes.next))
  }

  predicate NoBranchFlags(f: LcFlags) { !f.final && !f.fallback }

  /** The trees the grammar builds, without sources: catch-all only before
      compilation, branch flags only at the head of a branch (`atHead`), every
      reference resolved, branches that have both ends. */
  predicate WellFormed(cfg: Config, limit: nat, node: Node, atHead: bool)
    decreases limit, node, 1
  {
    match node
    case Single(_) => true
    case Reference(key) =>
      && cfg.Resolves(key, limit)
      && WellFormedObject(key, cfg.objects[key])
      && WellFormedList(cfg, cfg.Rank(key), cfg.objects[key].children, false)
    case Sequence(content, flags, children) =>
      && !flags.catchAll
      && content != ContentDestination
      && (atHead || NoBranchFlags(flags))
      && WellFormedList(cfg, limit, children, atHead)
    case Junction(_, branches) => WellFormedBranches(cfg, limit, branches)
    case Conditional(thn, els, filter) =>
      && thn.Sequence? && els.Sequence?
      && WellFormed(cfg, limit, thn, true)
      && WellFormed(cfg, limit, els, true)
      && (filter.Some? ==> IsFilterExpr(filter.value))
  }

  /** The condition of an `if` is one filter pipe wrapped into a sequence. */
  predicate IsFilterExpr(node: Node) {
    && node.Sequence? && node.content == ContentFilter && node.flags == NO_LC
    && node.children.Cons? && node.children.node.Single? && node.children.next.Nil?
  }

  predicate WellFormedObject(key: Key, node: Node) {
    && node.Sequence? && node.content == key.content && node.flags == NO_LC
  }

  predicate WellFormedList(cfg: Config, limit: nat, nodes: Nodes, atHead: bool)
    decreases limit, nodes, 0
  {
    match nodes
    case Nil => true
    case Cons(n, rest) => WellFormed(cfg, limit, n, atHead) && WellFormedList(cfg, limit, rest, false)
  }

  predicate HasBothEnds(node: Node) {
    !Headless(node) && !(node.Reference? && node.key.content == ContentDestination)
  }

  predicate WellFormedBranches(cfg: Config, limit: nat, nodes: Nodes)
    decreases limit, nodes, 0
  {
    match nodes
    case Nil => true
    case Cons(n, rest) =>
      HasBothEnds(n) && WellFormed(cfg, limit, n, true) && WellFormedBranches(cfg, limit, rest)
  }
}
