/**
 log_multiplexer_queue as the loops it is: two passes over the next hops, with
 one `matched` variable shared by all of them.
 */
module LogMultiplexer {
  import opened LogPipe

  /** Everything log_multiplexer_queue does before the message moves on along `pipe_next`. */
  method QueueNextHops(b: Behaviour, g: seq<Pipe>, hops: seq<nat>, propagate: bool, fallbackExists: bool,
                       m: LogMessage, o: LogPathOptions, st: RunState, depth: nat) returns (r: RunState)
    ensures r == QueueHops(b, g, hops, propagate, fallbackExists, m, o, st, depth)
  {
    var cell := |st.cells|;
    var local := PushJunction(cell, o);
    var delivered, fallback := false, 0;
    r := st.(cells := st.cells + [false]);
    ghost var first := QueuePass(b, g, hops, false, m, local, cell, r, depth);
    while fallback == 0 || (fallback == 1 && fallbackExists && !delivered)
      invariant 0 <= fallback <= 2
      invariant fallback == 0 ==> !delivered && r == st.(cells := st.cells + [false])
      invariant fallback == 1 ==> PassResult(r, delivered) == first
      invariant fallback == 2 ==> fallbackExists && !first.delivered
      invariant fallback == 2 ==> PassResult(r, delivered) == QueuePass(b, g, hops, true, m, local, cell, first.st, depth)
      decreases 2 - fallback
    {
      ghost var pass := QueuePass(b, g, hops, fallback == 1, m, local, cell, r, depth);
      var i, stop := 0, false;
      while i < |hops| && !stop
        invariant 0 <= i <= |hops|
        invariant stop ==> pass == PassResult(r, true) && delivered
        invariant !stop ==> var rest := QueuePass(b, g, hops[i..], fallback == 1, m, local, cell, r, depth);
                            pass == PassResult(rest.st, delivered || rest.delivered)
        decreases |hops| - i, !stop
      {
        assert hops[i..][1..] == hops[i + 1..];
        var hop := FlagsAt(g, hops[i]);
        if hop.branchFallback == (fallback == 1) {
          r := Queue(b, g, hops[i], m, local, ArmHop(local, cell, r), depth);
          if cell < |r.cells| && r.cells[cell] {
            delivered := true;
            stop := hop.branchFinal;
          }
        }
        i := i + 1;
      }
      fallback := fallback + 1;
    }
    r := PopCell(cell, r);
    if propagate && !delivered {
      r := Unmatch(o.matched, r);
    }
  }
}
