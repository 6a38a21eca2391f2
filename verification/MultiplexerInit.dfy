/**
 log_multiplexer_init collects the branch flags of a whole chain into the first
 pipe of the branch.  It updates flags that other multiplexers will look at
 later, and still the outcome does not depend on the order of initialization.
 */
module MultiplexerInit {
  import opened Wrappers
  import opened LogPipe

  /** Following `pipe_next` from `at` comes to an end within `n` pipes. */
  predicate ChainEnds(g: seq<Pipe>, at: Option<nat>, n: nat)
    decreases n
  {
    at.None? || at.value >= |g| || (n > 0 && ChainEnds(g, g[at.value].next, n - 1))
  }

  ghost predicate ChainsEnd(g: seq<Pipe>, n: nat) {
    forall i: nat :: i < |g| ==> ChainEnds(g, Some(i), n)
  }

  lemma {:induction false} LongerWalk(g: seq<Pipe>, at: Option<nat>, k: nat, n: nat)
    requires ChainEnds(g, at, k) && k <= n
    ensures ChainFlags(g, at, k) == ChainFlags(g, at, n)
    decreases k
  {
    if k > 0 && at.Some? && at.value < |g| {
      LongerWalk(g, g[at.value].next, k - 1, n - 1);
    }
  }

  lemma {:induction false} OnlyBranchFlags(g: seq<Pipe>, at: Option<nat>, n: nat)
    ensures ChainFlags(g, at, n).Branch() == ChainFlags(g, at, n)
    decreases n
  {
    if n > 0 && at.Some? && at.value < |g| {
      OnlyBranchFlags(g, g[at.value].next, n - 1);
    }
  }

  /** The flags of pipe `id` once it has been collected into, or before. */
  function Collected(g: seq<Pipe>, id: nat, n: nat): PipeFlags
    requires id < |g|
  {
    g[id].flags.Or(ChainFlags(g, Some(id), n))
  }

  /** `p` is `g` with the flags collected into some of the pipes. */
  ghost predicate PartlyCollected(g: seq<Pipe>, p: seq<Pipe>, n: nat) {
    && |p| == |g|
    && forall i: nat :: i < |g| ==>
         p[i].next == g[i].next && (p[i].flags == g[i].flags || p[i].flags == Collected(g, i, n))
  }

  /** One step of the walk, with the flags `f` collected so far: what has been
      collected and what is still ahead stay the flags of the whole chain. */
  lemma WalkStep(g: seq<Pipe>, flags: PipeFlags, at: nat, k: nat, n: nat, f: PipeFlags)
    requires at < |g| && 0 < k <= n && ChainEnds(g, Some(at), k)
    requires flags == g[at].flags || flags == Collected(g, at, n) || (flags == f && f.Or(g[at].flags) == f)
    ensures f.Or(flags.Branch()).Or(ChainFlags(g, g[at].next, k - 1)) == f.Or(ChainFlags(g, Some(at), k))
  {
    LongerWalk(g, Some(at), k, n);
    OnlyBranchFlags(g, Some(at), k);
  }

  /** The pipes of the multiplexers in front of `upto`, and the first `hops` hops of that one. */
  ghost predicate Visited(g: seq<Pipe>, id: nat, upto: nat, hops: nat) {
    || (exists m :: 0 <= m < upto && m < |g| && g[m].kind.Multiplexer? && id in g[m].kind.hops)
    || (upto < |g| && g[upto].kind.Multiplexer? && exists k :: 0 <= k < hops && k < |g[upto].kind.hops| && g[upto].kind.hops[k] == id)
  }

  ghost predicate FallbackSeen(g: seq<Pipe>, id: nat, hops: nat, n: nat)
    requires id < |g| && g[id].kind.Multiplexer?
  {
    exists k :: 0 <= k < hops && k < |g[id].kind.hops| && g[id].kind.hops[k] < |g|
                && ChainFlags(g, Some(g[id].kind.hops[k]), n).branchFallback
  }

  /** Pipe `id` when the multiplexers before `upto` and `hops` hops of that one are done. */
  ghost function Progress(g: seq<Pipe>, id: nat, upto: nat, hops: nat, n: nat): Pipe
    requires id < |g|
  {
    var p := g[id].(flags := if Visited(g, id, upto, hops) then Collected(g, id, n) else g[id].flags);
    if !p.kind.Multiplexer? || id > upto then p
    else
      var done := if id < upto then |p.kind.hops| else hops;
      p.(kind := p.kind.(fallbackExists := p.kind.fallbackExists || FallbackSeen(g, id, done, n)))
  }

  ghost predicate InProgress(g: seq<Pipe>, p: seq<Pipe>, upto: nat, hops: nat, n: nat) {
    |p| == |g| && forall i: nat :: i < |g| ==> p[i] == Progress(g, i, upto, hops, n)
  }

  lemma StartProgress(g: seq<Pipe>, n: nat)
    ensures InProgress(g, g, 0, 0, n)
  {
  }

  lemma NextMultiplexer(g: seq<Pipe>, p: seq<Pipe>, upto: nat, n: nat)
    requires upto < |g|
    requires InProgress(g, p, upto, if g[upto].kind.Multiplexer? then |g[upto].kind.hops| else 0, n)
    ensures InProgress(g, p, upto + 1, 0, n)
  {
    var hops := if g[upto].kind.Multiplexer? then |g[upto].kind.hops| else 0;
    forall i: nat | i < |g| ensures p[i] == Progress(g, i, upto + 1, 0, n) {
      assert Visited(g, i, upto, hops) == Visited(g, i, upto + 1, 0);
    }
  }

  lemma NextHop(g: seq<Pipe>, p: seq<Pipe>, p': seq<Pipe>, upto: nat, hops: nat, n: nat, h: nat)
    requires upto < |g| && g[upto].kind.Multiplexer? && hops < |g[upto].kind.hops| && n > 0
    requires h == g[upto].kind.hops[hops] && h < |g| && InProgress(g, p, upto, hops, n)
    requires |p'| == |g| && p[upto].kind.Multiplexer?
    requires forall i: nat :: i < |g| ==>
               p'[i].next == p[i].next && p'[i].flags == (if i == h then Collected(g, h, n) else p[i].flags)
    requires forall i: nat :: i < |g| && i != upto ==> p'[i].kind == p[i].kind
    requires p'[upto].kind == p[upto].kind.(fallbackExists := p[upto].kind.fallbackExists || Collected(g, h, n).branchFallback)
    ensures InProgress(g, p', upto, hops + 1, n)
  {
    assert Collected(g, h, n).branchFallback == ChainFlags(g, Some(h), n).branchFallback;
    forall i: nat | i < |g| ensures p'[i] == Progress(g, i, upto, hops + 1, n) {
      assert Visited(g, i, upto, hops + 1) == (Visited(g, i, upto, hops) || i == h);
      if i == upto {
        assert FallbackSeen(g, i, hops + 1, n) == (FallbackSeen(g, i, hops, n) || ChainFlags(g, Some(h), n).branchFallback);
      }
    }
  }

  lemma SkipHop(g: seq<Pipe>, p: seq<Pipe>, upto: nat, hops: nat, n: nat)
    requires upto < |g| && g[upto].kind.Multiplexer? && hops < |g[upto].kind.hops|
    requires g[upto].kind.hops[hops] >= |g| && InProgress(g, p, upto, hops, n)
    ensures InProgress(g, p, upto, hops + 1, n)
  {
    forall i: nat | i < |g| ensures p[i] == Progress(g, i, upto, hops + 1, n) {
      assert Visited(g, i, upto, hops + 1) == Visited(g, i, upto, hops);
      if i == upto {
        assert FallbackSeen(g, i, hops + 1, n) == FallbackSeen(g, i, hops, n);
      }
    }
  }

  lemma ProgressIsPartial(g: seq<Pipe>, p: seq<Pipe>, upto: nat, hops: nat, n: nat)
    requires InProgress(g, p, upto, hops, n)
    ensures PartlyCollected(g, p, n)
  {
  }

  lemma EndProgress(g: seq<Pipe>, p: seq<Pipe>, n: nat)
    requires InProgress(g, p, |g|, 0, n)
    ensures p == InitPipes(g, n)
  {
    forall i: nat | i < |g| ensures p[i] == InitPipe(g, i, n) {
      assert Visited(g, i, |g|, 0) == IsHop(g, i);
      if g[i].kind.Multiplexer? {
        assert FallbackSeen(g, i, |g[i].kind.hops|, n) == SomeFallback(g, g[i].kind.hops, n);
      }
    }
  }
}
