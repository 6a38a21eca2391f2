/**
 The runtime half of the message path (lib/logpipe.h, lib/logpipe.c,
 lib/logmpx.c): pipes linked by `pipe_next`, multiplexers that fan out over
 `next_hops`, and the chain of path options that carries the "matched" cell of
 every enclosing junction.

 A traversal is a function of a call depth budget `depth`.  Running out of
 budget sets `exhausted`, so a result in which `exhausted` is unchanged is the
 result of a traversal that ended by itself.
 */
module LogPipe {
  import opened Wrappers

  datatype LogMessage = LogMessage(id: nat, fields: map<string, string>)

  /** What the queue method of a user configured pipe does with a message. */
  datatype Verdict =
    | Pass(msg: LogMessage)  // forward, possibly changed (filter, parser, rewrite)
    | Reject                 // clear the matched cell and drop (filter, parser)
    | Consume                // keep it together with its acknowledgement (destination)

  /** A message together with the flow control request it travels under. */
  datatype Item = Item(msg: LogMessage, flowControl: bool)

  datatype Delivery = Delivery(leaf: nat, item: Item)

  // ---------------------------------------------------------------------
  // Path options
  // ---------------------------------------------------------------------

  /** `matched` names a cell of the run state; `parent` is the options value the
      innermost junction was entered with. */
  datatype LogPathOptions = LogPathOptions(
    ackNeeded: bool,
    flowControlRequested: bool,
    matched: Option<nat>,
    parent: Option<LogPathOptions>)

  function PushJunction(cell: nat, o: LogPathOptions): LogPathOptions {
    o.(matched := Some(cell), parent := Some(o))
  }

  function PopConditional(o: LogPathOptions): LogPathOptions {
    if o.parent.Some? then o.(matched := o.parent.value.matched) else o
  }

  function PopJunction(o: LogPathOptions): LogPathOptions {
    var popped := PopConditional(o);
    if popped.parent.Some? then popped.(parent := popped.parent.value.parent) else popped
  }

  // ---------------------------------------------------------------------
  // Pipes
  // ---------------------------------------------------------------------

  datatype PipeFlags = PipeFlags(
    branchFinal: bool,
    branchFallback: bool,
    hardFlowControl: bool,
    conditionalMidpoint: bool,
    junctionEnd: bool)
  {
    function Or(other: PipeFlags): PipeFlags {
      PipeFlags(branchFinal || other.branchFinal,
                branchFallback || other.branchFallback,
                hardFlowControl || other.hardFlowControl,
                conditionalMidpoint || other.conditionalMidpoint,
                junctionEnd || other.junctionEnd)
    }

    /** The part of the flags that PIF_BRANCH_PROPERTIES selects. */
    function Branch(): PipeFlags {
      NO_FLAGS.(branchFinal := branchFinal, branchFallback := branchFallback)
    }
  }

  const NO_FLAGS := PipeFlags(false, false, false, false, false)
  const JUNCTION_END := NO_FLAGS.(junctionEnd := true)
  const CONDITIONAL_MIDPOINT := NO_FLAGS.(conditionalMidpoint := true)

  datatype Kind =
    | Element(element: nat)  // user configured pipe, behaviour looked up by number
    | Forwarder              // plain LogPipe, forwards everything
    | Multiplexer(hops: seq<nat>, deliveryPropagation: bool, fallbackExists: bool)

  datatype Pipe = Pipe(kind: Kind, flags: PipeFlags, next: Option<nat>)

  // ---------------------------------------------------------------------
  // Traversal
  // ---------------------------------------------------------------------

  /** `cells` is the stack of matched variables of the active multiplexers,
      `acks` the number of acknowledgements the message still waits for. */
  datatype RunState = RunState(
    cells: seq<bool>,
    deliveries: seq<Delivery>,
    acks: int,
    exhausted: bool)

  type Behaviour = (nat, LogMessage) -> Verdict

  function AckUnit(o: LogPathOptions): nat {
    if o.ackNeeded then 1 else 0
  }

  function Unmatch(target: Option<nat>, st: RunState): RunState {
    if target.Some? && target.value < |st.cells|
    then st.(cells := st.cells[target.value := false])
    else st
  }

  function DropMessage(o: LogPathOptions, st: RunState): RunState {
    st.(acks := st.acks - AckUnit(o))
  }

  /** log_pipe_queue_slow_path: the options a flagged pipe hands to its queue method. */
  function EnterPipe(flags: PipeFlags, o: LogPathOptions): LogPathOptions {
    var o1 := if flags.hardFlowControl then o.(flowControlRequested := true) else o;
    var o2 := if flags.junctionEnd then PopJunction(o1) else o1;
    if flags.conditionalMidpoint then PopConditional(o2) else o2
  }

  /** log_pipe_queue */
  function Queue(b: Behaviour, g: seq<Pipe>, id: nat, m: LogMessage, o: LogPathOptions,
                 st: RunState, depth: nat): RunState
    decreases depth, 0
  {
    if depth == 0 || id >= |g| then
      st.(exhausted := true)
    else
      var o' := EnterPipe(g[id].flags, o);
      match g[id].kind
      case Forwarder => Forward(b, g, g[id].next, m, o', st, depth - 1)
      case Element(e) =>
        (match b(e, m)
         case Pass(m') => Forward(b, g, g[id].next, m', o', st, depth - 1)
         case Reject => DropMessage(o', Unmatch(o'.matched, st))
         case Consume =>
           st.(deliveries := st.deliveries + [Delivery(e, Item(m, o'.flowControlRequested))]))
      case Multiplexer(hops, propagate, fallbackExists) =>
        var s := QueueHops(b, g, hops, propagate, fallbackExists, m, o', st, depth - 1);
        Forward(b, g, g[id].next, m, o', s, depth - 1)
  }

  /** log_pipe_forward_msg */
  function Forward(b: Behaviour, g: seq<Pipe>, next: Option<nat>, m: LogMessage, o: LogPathOptions,
                   st: RunState, depth: nat): RunState
    decreases depth, 1
  {
    if next.Some? then Queue(b, g, next.value, m, o, st, depth) else DropMessage(o, st)
  }

  datatype PassResult = PassResult(st: RunState, delivered: bool)

  /** The two passes of log_multiplexer_queue, before the message moves on to
      `pipe_next`. */
  function QueueHops(b: Behaviour, g: seq<Pipe>, hops: seq<nat>, propagate: bool, fallbackExists: bool,
                     m: LogMessage, o: LogPathOptions, st: RunState, depth: nat): RunState
    decreases depth, |hops| + 2
  {
    var cell := |st.cells|;
    var lo := PushJunction(cell, o);
    var r0 := QueuePass(b, g, hops, false, m, lo, cell, st.(cells := st.cells + [false]), depth);
    var r1 := if fallbackExists && !r0.delivered
              then QueuePass(b, g, hops, true, m, lo, cell, r0.st, depth)
              else r0;
    var r2 := PopCell(cell, r1.st);
    if propagate && !(r0.delivered || r1.delivered) then Unmatch(o.matched, r2) else r2
  }

  function PopCell(cell: nat, st: RunState): RunState {
    if cell <= |st.cells| then st.(cells := st.cells[..cell]) else st
  }

  /** One pass over the next hops: the ones whose fallback flag equals `fallback`,
      in order, up to and including the first final one that matched. */
  function QueuePass(b: Behaviour, g: seq<Pipe>, hops: seq<nat>, fallback: bool, m: LogMessage,
                     lo: LogPathOptions, cell: nat, st: RunState, depth: nat): PassResult
    decreases depth, |hops| + 1
  {
    if hops == [] then
      PassResult(st, false)
    else if FlagsAt(g, hops[0]).branchFallback != fallback then
      QueuePass(b, g, hops[1..], fallback, m, lo, cell, st, depth)
    else
      var armed := ArmHop(lo, cell, st);
      var s := Queue(b, g, hops[0], m, lo, armed, depth);
      var matched := cell < |s.cells| && s.cells[cell];
      if matched && FlagsAt(g, hops[0]).branchFinal then
        PassResult(s, true)
      else
        var rest := QueuePass(b, g, hops[1..], fallback, m, lo, cell, s, depth);
        PassResult(rest.st, matched || rest.delivered)
  }

  function FlagsAt(g: seq<Pipe>, id: nat): PipeFlags {
    if id < |g| then g[id].flags else NO_FLAGS
  }

  /** Sets the matched cell and adds the acknowledgement the hop will consume. */
  function ArmHop(lo: LogPathOptions, cell: nat, st: RunState): RunState {
    var s := if cell < |st.cells| then st.(cells := st.cells[cell := true]) else st;
    s.(acks := s.acks + AckUnit(lo))
  }

  // ---------------------------------------------------------------------
  // Initialization: branch flags move to the branch heads
  // ---------------------------------------------------------------------

  /** The branch flags found by following `pipe_next` for at most `n` pipes. */
  function ChainFlags(g: seq<Pipe>, at: Option<nat>, n: nat): PipeFlags
    decreases n
  {
    if n == 0 || at.None? || at.value >= |g| then NO_FLAGS
    else g[at.value].flags.Branch().Or(ChainFlags(g, g[at.value].next, n - 1))
  }

  ghost predicate IsHop(g: seq<Pipe>, id: nat) {
    exists p :: 0 <= p < |g| && g[p].kind.Multiplexer? && id in g[p].kind.hops
  }

  ghost predicate SomeFallback(g: seq<Pipe>, hops: seq<nat>, n: nat) {
    exists h :: h in hops && h < |g| && ChainFlags(g, Some(h), n).branchFallback
  }

  /** What log_multiplexer_init leaves behind once every pipe is initialized. */
  ghost function InitPipe(g: seq<Pipe>, id: nat, n: nat): Pipe
    requires id < |g|
  {
    var p := g[id];
    var p1 := if IsHop(g, id) then p.(flags := p.flags.Or(ChainFlags(g, Some(id), n))) else p;
    if p1.kind.Multiplexer? then
      p1.(kind := p1.kind.(fallbackExists := p1.kind.fallbackExists || SomeFallback(g, p1.kind.hops, n)))
    else
      p1
  }

  ghost function InitPipes(g: seq<Pipe>, n: nat): (r: seq<Pipe>) {
    seq(|g|, i requires 0 <= i < |g| => InitPipe(g, i, n))
  }
}
