/**
 Acknowledgements over any pipe graph: a traversal that ends gives up the
 acknowledgement it was handed and leaves one for every delivery it made.
 */
module AckBalance {
  import opened Wrappers
  import opened LogPipe

  /** A finished traversal consumed the acknowledgement it was given and left one
      per new delivery. */
  ghost predicate Balanced(o: LogPathOptions, st: RunState, r: RunState, used: nat) {
    r.exhausted || (|r.deliveries| >= |st.deliveries|
                    && r.acks == if o.ackNeeded then st.acks - used + |r.deliveries| - |st.deliveries| else st.acks)
  }

  lemma {:induction false} StaysExhausted(b: Behaviour, g: seq<Pipe>, id: nat, m: LogMessage, o: LogPathOptions,
                                          st: RunState, depth: nat)
    requires st.exhausted
    ensures Queue(b, g, id, m, o, st, depth).exhausted
    decreases depth, 0
  {
    if depth > 0 && id < |g| {
      var o' := EnterPipe(g[id].flags, o);
      if g[id].kind.Multiplexer? {
        var kind := g[id].kind;
        HopsStayExhausted(b, g, kind.hops, kind.deliveryPropagation, kind.fallbackExists, m, o', st, depth - 1);
        var s := QueueHops(b, g, kind.hops, kind.deliveryPropagation, kind.fallbackExists, m, o', st, depth - 1);
        if g[id].next.Some? {
          StaysExhausted(b, g, g[id].next.value, m, o', s, depth - 1);
        }
      } else if g[id].next.Some? {
        StaysExhausted(b, g, g[id].next.value, m, o', st, depth - 1);
        if g[id].kind.Element? && b(g[id].kind.element, m).Pass? {
          StaysExhausted(b, g, g[id].next.value, b(g[id].kind.element, m).msg, o', st, depth - 1);
        }
      }
    }
  }

  lemma {:induction false} HopsStayExhausted(b: Behaviour, g: seq<Pipe>, hops: seq<nat>, propagate: bool,
                                             fallbackExists: bool, m: LogMessage, o: LogPathOptions, st: RunState,
                                             depth: nat)
    requires st.exhausted
    ensures QueueHops(b, g, hops, propagate, fallbackExists, m, o, st, depth).exhausted
    decreases depth, |hops| + 2
  {
    var cell := |st.cells|;
    var lo := PushJunction(cell, o);
    var s := st.(cells := st.cells + [false]);
    PassStaysExhausted(b, g, hops, false, m, lo, cell, s, depth);
    PassStaysExhausted(b, g, hops, true, m, lo, cell, QueuePass(b, g, hops, false, m, lo, cell, s, depth).st, depth);
  }

  lemma {:induction false} PassStaysExhausted(b: Behaviour, g: seq<Pipe>, hops: seq<nat>, fallback: bool, m: LogMessage,
                                              lo: LogPathOptions, cell: nat, st: RunState, depth: nat)
    requires st.exhausted
    ensures QueuePass(b, g, hops, fallback, m, lo, cell, st, depth).st.exhausted
    decreases depth, |hops| + 1
  {
    if hops == [] {
    } else {
      var armed := ArmHop(lo, cell, st);
      StaysExhausted(b, g, hops[0], m, lo, armed, depth);
      PassStaysExhausted(b, g, hops[1..], fallback, m, lo, cell, st, depth);
      PassStaysExhausted(b, g, hops[1..], fallback, m, lo, cell, Queue(b, g, hops[0], m, lo, armed, depth), depth);
    }
  }

  /** Acknowledgements are conserved by every traversal that ends, of any graph. */
  lemma {:induction false} AcksConserved(b: Behaviour, g: seq<Pipe>, id: nat, m: LogMessage, o: LogPathOptions,
                                         st: RunState, depth: nat)
    ensures Balanced(o, st, Queue(b, g, id, m, o, st, depth), 1)
    decreases depth, 0
  {
    if depth > 0 && id < |g| {
      var o' := EnterPipe(g[id].flags, o);
      match g[id].kind
      case Forwarder => ForwardAcksConserved(b, g, g[id].next, m, o', st, depth - 1);
      case Element(e) =>
        if b(e, m).Pass? {
          ForwardAcksConserved(b, g, g[id].next, b(e, m).msg, o', st, depth - 1);
        }
      case Multiplexer(_, _, _) => MultiplexerAcksConserved(b, g, id, m, o, st, depth);
    }
  }

  lemma {:induction false} ForwardAcksConserved(b: Behaviour, g: seq<Pipe>, next: Option<nat>, m: LogMessage,
                                                o: LogPathOptions, st: RunState, depth: nat)
    ensures Balanced(o, st, Forward(b, g, next, m, o, st, depth), 1)
    ensures st.exhausted ==> Forward(b, g, next, m, o, st, depth).exhausted
    decreases depth, 1
  {
    if next.Some? {
      AcksConserved(b, g, next.value, m, o, st, depth);
      if st.exhausted {
        StaysExhausted(b, g, next.value, m, o, st, depth);
      }
    }
  }

  lemma {:induction false} MultiplexerAcksConserved(b: Behaviour, g: seq<Pipe>, id: nat, m: LogMessage,
                                                    o: LogPathOptions, st: RunState, depth: nat)
    requires depth > 0 && id < |g| && g[id].kind.Multiplexer?
    ensures Balanced(o, st, Queue(b, g, id, m, o, st, depth), 1)
    decreases depth - 1, |g[id].kind.hops| + 3
  {
    var o', kind := EnterPipe(g[id].flags, o), g[id].kind;
    var s := QueueHops(b, g, kind.hops, kind.deliveryPropagation, kind.fallbackExists, m, o', st, depth - 1);
    HopAcksConserved(b, g, kind.hops, kind.deliveryPropagation, kind.fallbackExists, m, o', st, depth - 1);
    ForwardAcksConserved(b, g, g[id].next, m, o', s, depth - 1);
  }

  lemma {:induction false} HopAcksConserved(b: Behaviour, g: seq<Pipe>, hops: seq<nat>, propagate: bool,
                                            fallbackExists: bool, m: LogMessage, o: LogPathOptions, st: RunState,
                                            depth: nat)
    ensures Balanced(o, st, QueueHops(b, g, hops, propagate, fallbackExists, m, o, st, depth), 0)
    decreases depth, |hops| + 2
  {
    var cell := |st.cells|;
    var lo := PushJunction(cell, o);
    var s := st.(cells := st.cells + [false]);
    var r0 := QueuePass(b, g, hops, false, m, lo, cell, s, depth);
    PassAcksConserved(b, g, hops, false, m, lo, cell, s, depth);
    PassAcksConserved(b, g, hops, true, m, lo, cell, r0.st, depth);
    if r0.st.exhausted {
      PassStaysExhausted(b, g, hops, true, m, lo, cell, r0.st, depth);
    }
  }

  lemma {:induction false} PassAcksConserved(b: Behaviour, g: seq<Pipe>, hops: seq<nat>, fallback: bool, m: LogMessage,
                                             lo: LogPathOptions, cell: nat, st: RunState, depth: nat)
    ensures Balanced(lo, st, QueuePass(b, g, hops, fallback, m, lo, cell, st, depth).st, 0)
    decreases depth, |hops| + 1
  {
    if hops == [] {
    } else {
      var armed := ArmHop(lo, cell, st);
      var s := Queue(b, g, hops[0], m, lo, armed, depth);
      PassAcksConserved(b, g, hops[1..], fallback, m, lo, cell, st, depth);
      AcksConserved(b, g, hops[0], m, lo, armed, depth);
      PassAcksConserved(b, g, hops[1..], fallback, m, lo, cell, s, depth);
      if s.exhausted {
        PassStaysExhausted(b, g, hops[1..], fallback, m, lo, cell, s, depth);
      }
    }
  }
}
