/**
 What becomes of a message of a source: it goes to all log statements that refer
 to the source, in the order of the configuration, up to and including the first
 final one that matches; fallback statements see it only if no other one matched.
 */
module SourceDispatch {
  import opened Wrappers
  import opened LogPipe
  import opened LogExpr
  import opened CompileShape
  import opened CompileWires
  import opened LogPathRun
  import opened PipeRuns
  import opened Wiring
  import opened WiringRuns
  import opened WiredRuns
  import opened LogPathTheorem
  import opened ForkReading
  import opened LogStatements
  import opened LogStatementWires

  // ---------------------------------------------------------------------
  // The reading of a configuration
  // ---------------------------------------------------------------------

  function Repeat(s: LogStatement, n: nat): seq<LogStatement> {
    if n == 0 then [] else [s] + Repeat(s, n - 1)
  }

  /** The statements that refer to source `t`, once per reference. */
  function FedBy(statements: seq<LogStatement>, t: string): seq<LogStatement> {
    if statements == [] then []
    else Repeat(statements[0], Occurrences(statements[0].sources, t)) + FedBy(statements[1..], t)
  }

  /** What each statement does with a message. */
  function Branches(cfg: Config, limit: nat, fed: seq<LogStatement>, i: Item): seq<Hop> {
    if fed == [] then []
    else [HopFor(fed[0].Expr(), Bind(Meaning(cfg, limit, fed[0].Expr(), i), EndOfPath))]
         + Branches(cfg, limit, fed[1..], i)
  }

  predicate WellFormedStatements(cfg: Config, limit: nat, statements: seq<LogStatement>) {
    forall k :: 0 <= k < |statements| ==> WellFormed(cfg, limit, statements[k].Expr(), true)
  }

  function TotalCost(cfg: Config, limit: nat, statements: seq<LogStatement>): nat {
    if statements == [] then 0 else Cost(cfg, limit, statements[0].Expr()) + TotalCost(cfg, limit, statements[1..])
  }

  // ---------------------------------------------------------------------
  // The hops behind a source
  // ---------------------------------------------------------------------

  /** The pipes attached to source `t` by these statements. */
  function NewlyFed(cfg: Config, limit: nat, f: Front, statements: seq<LogStatement>, t: string): seq<nat>
    decreases |statements|
  {
    if statements == [] then []
    else
      var c := CompileStatement(cfg, limit, f, statements[0]);
      if c.StatementFailed? then []
      else AttachedTo(f, statements[0].sources, None, t) + NewlyFed(cfg, limit, c.front, statements[1..], t)
  }

  ghost predicate StatementsDone(cfg: Config, limit: nat, f: Front, statements: seq<LogStatement>, f': Front) {
    && FrontOk(f') && Keeps(f, f') && AuxGrows(cfg, limit, f.graph.aux, f'.graph.aux)
    && NewCosts(cfg, f.graph.aux, f'.graph.aux, TotalCost(cfg, limit, statements))
  }

  lemma {:induction false} StatementsAreDone(cfg: Config, limit: nat, f: Front, statements: seq<LogStatement>)
    requires FrontOk(f) && WellFormedStatements(cfg, limit, statements)
    ensures var r := CompileStatements(cfg, limit, f, statements);
            r.StatementCompiled? && StatementsDone(cfg, limit, f, statements, r.front)
    decreases |statements|
  {
    if statements == [] {
    } else {
      StatementIsDone(cfg, limit, f, statements[0]);
      var f1 := CompileStatement(cfg, limit, f, statements[0]).front;
      StatementsAreDone(cfg, limit, f1, statements[1..]);
      var f' := CompileStatements(cfg, limit, f1, statements[1..]).front;
      KeepsTransitive(f, f1, f');
      AuxGrowsTransitive(cfg, limit, f.graph.aux, f1.graph.aux, f'.graph.aux);
    }
  }

  lemma {:induction false} StatementsFeed(cfg: Config, limit: nat, f: Front, statements: seq<LogStatement>, t: string)
    requires FrontOk(f) && WellFormedStatements(cfg, limit, statements)
    ensures var r := CompileStatements(cfg, limit, f, statements);
            r.StatementCompiled? && Fed(r.front, t) == Fed(f, t) + NewlyFed(cfg, limit, f, statements, t)
    decreases |statements|
  {
    if statements != [] {
      StatementIsDone(cfg, limit, f, statements[0]);
      var f1 := CompileStatement(cfg, limit, f, statements[0]).front;
      StatementsFeed(cfg, limit, f1, statements[1..], t);
      Reassociate(Fed(f, t), AttachedTo(f, statements[0].sources, None, t), NewlyFed(cfg, limit, f1, statements[1..], t));
    } else {
      assert Fed(f, t) + [] == Fed(f, t);
    }
  }

  /** The hops of a source lead to the statements that refer to it, in order. */
  ghost predicate Feeding(cfg: Config, limit: nat, p: seq<Pipe>, aux: map<Key, nat>, hops: seq<nat>, fed: seq<LogStatement>) {
    |hops| == |fed| && forall k :: 0 <= k < |hops| ==> LeadsTo(cfg, limit, p, aux, hops[k], fed[k])
  }

  lemma {:induction false} RepeatIs(s: LogStatement, n: nat)
    ensures |Repeat(s, n)| == n && forall k :: 0 <= k < n ==> Repeat(s, n)[k] == s
  {
    if n == 0 {
    } else {
      RepeatIs(s, n - 1);
    }
  }

  lemma FeedingConcat(cfg: Config, limit: nat, p: seq<Pipe>, aux: map<Key, nat>, a: seq<nat>, b: seq<nat>,
                      fa: seq<LogStatement>, fb: seq<LogStatement>)
    requires Feeding(cfg, limit, p, aux, a, fa) && Feeding(cfg, limit, p, aux, b, fb)
    ensures Feeding(cfg, limit, p, aux, a + b, fa + fb)
  {
  }

  lemma FirstStatementFeeds(cfg: Config, limit: nat, f: Front, s: LogStatement, p: seq<Pipe>, aux: map<Key, nat>, t: string)
    requires FrontOk(f) && WellFormed(cfg, limit, s.Expr(), true)
    requires var r := CompileStatement(cfg, limit, f, s);
             r.StatementCompiled? && Settled(r.front, p) && SubAux(r.front.graph.aux, aux)
    ensures Feeding(cfg, limit, p, aux, AttachedTo(f, s.sources, None, t), Repeat(s, Occurrences(s.sources, t)))
    ensures NewDestinationsWired(cfg, p, aux, f.graph.aux, CompileStatement(cfg, limit, f, s).front.graph.aux)
  {
    StatementWires(cfg, limit, f, s, p, aux);
    AllFed(f, s.sources, None, t);
    RepeatIs(s, Occurrences(s.sources, t));
    var hops := AttachedTo(f, s.sources, None, t);
    forall k | 0 <= k < |hops| ensures LeadsTo(cfg, limit, p, aux, hops[k], s) {
      assert hops[k] in hops;
    }
  }

  lemma {:induction false} StatementsWire(cfg: Config, limit: nat, f: Front, statements: seq<LogStatement>,
                                          p: seq<Pipe>, aux: map<Key, nat>, t: string)
    requires FrontOk(f) && WellFormedStatements(cfg, limit, statements)
    requires var r := CompileStatements(cfg, limit, f, statements);
             r.StatementCompiled? && Settled(r.front, p) && SubAux(r.front.graph.aux, aux)
    ensures Feeding(cfg, limit, p, aux, NewlyFed(cfg, limit, f, statements, t), FedBy(statements, t))
    ensures NewDestinationsWired(cfg, p, aux, f.graph.aux, CompileStatements(cfg, limit, f, statements).front.graph.aux)
    decreases |statements|
  {
    if statements == [] {
    } else {
      var s, rest := statements[0], statements[1..];
      StatementIsDone(cfg, limit, f, s);
      var f1 := CompileStatement(cfg, limit, f, s).front;
      StatementsAreDone(cfg, limit, f1, rest);
      FirstStatementFeeds(cfg, limit, f, s, p, aux, t);
      StatementsWire(cfg, limit, f1, rest, p, aux, t);
      FeedingConcat(cfg, limit, p, aux, AttachedTo(f, s.sources, None, t), NewlyFed(cfg, limit, f1, rest, t),
                    Repeat(s, Occurrences(s.sources, t)), FedBy(rest, t));
    }
  }

  // ---------------------------------------------------------------------
  // Running
  // ---------------------------------------------------------------------

  function Runner(cfg: Config, limit: nat, s: LogStatement): Meaningful { Then(cfg, limit, s.Expr(), false, EndOfPath) }

  lemma ForwarderRuns(b: Behaviour, p: seq<Pipe>, n: nat, id: nat, next: nat, k: Meaningful, nesting: nat, depth: nat)
    requires n > 0 && id < |p| && p[id] == Pipe(Forwarder, NO_FLAGS, Some(next))
    requires Runs(b, InitPipes(p, n), Some(next), k, nesting, depth)
    ensures Runs(b, InitPipes(p, n), Some(id), k, nesting, depth + 1)
  {
    InitAt(p, n, id);
    forall i ensures k(i) == k(OrFlow(i, false)) {
      assert OrFlow(i, false) == i;
    }
    RunsForwarder(b, InitPipes(p, n), id, k, k, nesting, depth);
  }

  lemma LeadsRuns(cfg: Config, limit: nat, p: seq<Pipe>, g: seq<Pipe>, aux: map<Key, nat>, n: nat, hop: nat, s: LogStatement)
    requires Context(cfg, limit, p, g, aux, n) && WellFormed(cfg, limit, s.Expr(), true)
    requires LeadsTo(cfg, limit, p, aux, hop, s) && n >= Cost(cfg, limit, s.Expr()) + 2
    ensures Runs(cfg.behaviour, g, Some(hop), Runner(cfg, limit, s), 1, Cost(cfg, limit, s.Expr()) + 2)
    ensures ChainFlags(p, Some(hop), n) == BranchFlags(s.Expr())
  {
    var join: nat, entry: nat :| Leads(cfg, limit, p, aux, hop, join, entry, s);
    var b, k, cost := cfg.behaviour, Runner(cfg, limit, s), Cost(cfg, limit, s.Expr());
    RunsEnd(b, g, 1);
    assert ChainIs(p, None, NO_FLAGS, 0);
    NodeRuns(cfg, limit, p, g, aux, n, s.Expr(), Some(entry), None, NO_FLAGS, true, EndOfPath, 1, 0);
    ChainOfWired(cfg, limit, p, aux, s.Expr(), Some(entry), None, NO_FLAGS, true, 0);
    var flags := BranchFlags(s.Expr());
    assert NO_FLAGS.Branch().Or(flags) == flags;
    if entry == join {
      RunsWeaker(b, g, Some(join), k, 1, 1, cost, cost + 1);
    } else {
      ForwarderRuns(b, p, n, join, entry, k, 1, cost);
      ChainStep(p, join, flags, cost);
    }
    assert ChainIs(p, Some(join), flags, cost + 1);
    ForwarderRuns(b, p, n, hop, join, k, 1, cost + 1);
    ChainStep(p, hop, flags, cost + 1);
  }

  function Runners(cfg: Config, limit: nat, fed: seq<LogStatement>): seq<Meaningful> {
    if fed == [] then [] else [Runner(cfg, limit, fed[0])] + Runners(cfg, limit, fed[1..])
  }

  lemma {:induction false} RunnersAt(cfg: Config, limit: nat, fed: seq<LogStatement>)
    ensures |Runners(cfg, limit, fed)| == |fed|
    ensures forall k :: 0 <= k < |fed| ==> Runners(cfg, limit, fed)[k] == Runner(cfg, limit, fed[k])
  {
    if fed == [] {
    } else {
      RunnersAt(cfg, limit, fed[1..]);
    }
  }

  lemma FirstBranch(cfg: Config, limit: nat, s: LogStatement, flags: PipeFlags, i: Item)
    requires flags.Branch() == BranchFlags(s.Expr())
    ensures Hop(flags.branchFinal, flags.branchFallback, Runner(cfg, limit, s)(i))
         == HopFor(s.Expr(), Bind(Meaning(cfg, limit, s.Expr(), i), EndOfPath))
  {
    assert OrFlow(i, false) == i;
    assert flags.Branch().branchFinal == flags.branchFinal && flags.Branch().branchFallback == flags.branchFallback;
  }

  lemma {:induction false} HopsAreBranches(cfg: Config, limit: nat, g: seq<Pipe>, hops: seq<nat>, hs: seq<Meaningful>,
                                           fed: seq<LogStatement>, i: Item)
    requires |hops| == |fed| == |hs| && forall k :: 0 <= k < |fed| ==> hs[k] == Runner(cfg, limit, fed[k])
    requires forall k :: 0 <= k < |hops| ==> FlagsAt(g, hops[k]).Branch() == BranchFlags(fed[k].Expr())
    ensures HopsAt(g, hops, hs, i) == Branches(cfg, limit, fed, i)
    decreases |hops|
  {
    if hops == [] {
    } else {
      HopsAreBranches(cfg, limit, g, hops[1..], hs[1..], fed[1..], i);
      FirstBranch(cfg, limit, fed[0], FlagsAt(g, hops[0]), i);
    }
  }

  ghost predicate CostsFit(cfg: Config, limit: nat, fed: seq<LogStatement>, bound: nat) {
    forall k :: 0 <= k < |fed| ==> WellFormed(cfg, limit, fed[k].Expr(), true) && Cost(cfg, limit, fed[k].Expr()) + 2 <= bound
  }

  lemma SourceRuns(cfg: Config, limit: nat, p: seq<Pipe>, g: seq<Pipe>, aux: map<Key, nat>, n: nat, id: nat,
                   fed: seq<LogStatement>, bound: nat)
    requires Context(cfg, limit, p, g, aux, n) && n >= bound && CostsFit(cfg, limit, fed, bound)
    requires id < |p| && IsFork(p, id, true, NO_FLAGS) && Feeding(cfg, limit, p, aux, p[id].kind.hops, fed)
    ensures Runs(cfg.behaviour, g, Some(id), i => Fork(Branches(cfg, limit, fed, i), true), 0, bound + 1)
  {
    var hops, hs, b := p[id].kind.hops, Runners(cfg, limit, fed), cfg.behaviour;
    RunnersAt(cfg, limit, fed);
    ForkIsForkPipe(p, g, n, id, true, NO_FLAGS);
    forall k | 0 <= k < |hops|
      ensures Runs(b, g, Some(hops[k]), hs[k], 1, bound) && FlagsAt(g, hops[k]).Branch() == BranchFlags(fed[k].Expr())
    {
      LeadsRuns(cfg, limit, p, g, aux, n, hops[k], fed[k]);
      RunsWeaker(b, g, Some(hops[k]), hs[k], 1, 1, Cost(cfg, limit, fed[k].Expr()) + 2, bound);
      InitHop(p, n, id, hops[k]);
    }
    var r := (i: Item) => Fork(Branches(cfg, limit, fed, i), true);
    forall i ensures r(i) == Fork(HopsAt(g, hops, hs, OrFlow(i, false)), true) {
      assert OrFlow(i, false) == i;
      HopsAreBranches(cfg, limit, g, hops, hs, fed, i);
    }
    ForkRuns(b, g, id, true, false, hs, r, 0, bound);
  }

  lemma {:induction false} FedIsFine(cfg: Config, limit: nat, statements: seq<LogStatement>, t: string, bound: nat)
    requires WellFormedStatements(cfg, limit, statements) && TotalCost(cfg, limit, statements) + 2 <= bound
    ensures CostsFit(cfg, limit, FedBy(statements, t), bound)
  {
    if statements == [] {
    } else {
      var s, rest := statements[0], statements[1..];
      FedIsFine(cfg, limit, rest, t, bound);
      RepeatIs(s, Occurrences(s.sources, t));
    }
  }

  /** The compiled configuration as seen from source `t`. */
  ghost predicate Ready(cfg: Config, limit: nat, f: Front, statements: seq<LogStatement>, t: string, n: nat) {
    && t in f.srcs && f.srcs[t] < |f.graph.pipes| && IsFork(f.graph.pipes, f.srcs[t], true, NO_FLAGS)
    && Feeding(cfg, limit, f.graph.pipes, f.graph.aux, f.graph.pipes[f.srcs[t]].kind.hops, FedBy(statements, t))
    && DestinationsWired(cfg, f.graph.pipes, f.graph.aux, n)
  }

  lemma SourceIsReady(cfg: Config, limit: nat, statements: seq<LogStatement>, t: string, n: nat)
    requires WellFormedStatements(cfg, limit, statements) && FedBy(statements, t) != []
    requires n >= TotalCost(cfg, limit, statements)
    ensures var r := CompileStatements(cfg, limit, NEW_FRONT, statements);
            r.StatementCompiled? && Ready(cfg, limit, r.front, statements, t, n)
  {
    StatementsAreDone(cfg, limit, NEW_FRONT, statements);
    var f := CompileStatements(cfg, limit, NEW_FRONT, statements).front;
    var fed := FedFromNew(cfg, limit, statements, t, f);
    AllDestinationsWired(cfg, limit, f, statements, n);
    ReadyFromParts(cfg, limit, f, statements, t, n, fed);
  }

  lemma FedFromNew(cfg: Config, limit: nat, statements: seq<LogStatement>, t: string, f: Front) returns (fed: seq<nat>)
    requires WellFormedStatements(cfg, limit, statements)
    requires CompileStatements(cfg, limit, NEW_FRONT, statements) == StatementCompiled(f)
    ensures fed == Fed(f, t) && Feeding(cfg, limit, f.graph.pipes, f.graph.aux, fed, FedBy(statements, t))
    ensures NewDestinationsWired(cfg, f.graph.pipes, f.graph.aux, NEW_FRONT.graph.aux, f.graph.aux)
  {
    fed := NewlyFed(cfg, limit, NEW_FRONT, statements, t);
    StatementsFeed(cfg, limit, NEW_FRONT, statements, t);
    StatementsWire(cfg, limit, NEW_FRONT, statements, f.graph.pipes, f.graph.aux, t);
    assert Fed(NEW_FRONT, t) == [] && [] + fed == fed;
  }

  lemma AllDestinationsWired(cfg: Config, limit: nat, f: Front, statements: seq<LogStatement>, n: nat)
    requires StatementsDone(cfg, limit, NEW_FRONT, statements, f) && n >= TotalCost(cfg, limit, statements)
    requires NewDestinationsWired(cfg, f.graph.pipes, f.graph.aux, NEW_FRONT.graph.aux, f.graph.aux)
    ensures DestinationsWired(cfg, f.graph.pipes, f.graph.aux, n)
  {
  }

  lemma ReadyFromParts(cfg: Config, limit: nat, f: Front, statements: seq<LogStatement>, t: string, n: nat, fed: seq<nat>)
    requires FrontOk(f) && Fed(f, t) == fed && FedBy(statements, t) != []
    requires Feeding(cfg, limit, f.graph.pipes, f.graph.aux, fed, FedBy(statements, t))
    requires DestinationsWired(cfg, f.graph.pipes, f.graph.aux, n)
    ensures Ready(cfg, limit, f, statements, t, n)
  {
  }

  /** Dispatch of log statements.  Every configuration of well-formed log statements
      compiles; and a message that a source referred to by some statement hands to
      its multiplexer does what the fork of these statements means, for every path
      options value, state and sufficient call depth. */
  lemma SourceDispatches(cfg: Config, limit: nat, statements: seq<LogStatement>, t: string, n: nat,
                         m: LogMessage, o: LogPathOptions, st: RunState, depth: nat)
    requires WellFormedStatements(cfg, limit, statements) && FedBy(statements, t) != []
    requires n >= TotalCost(cfg, limit, statements) + 2 && depth >= TotalCost(cfg, limit, statements) + 3
    requires Scoped(o, |st.cells|)
    ensures var r := CompileStatements(cfg, limit, NEW_FRONT, statements);
            && r.StatementCompiled? && t in r.front.srcs
            && Queue(cfg.behaviour, InitPipes(r.front.graph.pipes, n), r.front.srcs[t], m, o, st, depth)
               == Perform(Fork(Branches(cfg, limit, FedBy(statements, t), Item(m, o.flowControlRequested)), true), o, st)
  {
    SourceIsReady(cfg, limit, statements, t, n);
    var f := CompileStatements(cfg, limit, NEW_FRONT, statements).front;
    ReadyRuns(cfg, limit, f, statements, t, n);
    assert Queue(cfg.behaviour, InitPipes(f.graph.pipes, n), f.srcs[t], m, o, st, depth)
        == Forward(cfg.behaviour, InitPipes(f.graph.pipes, n), Some(f.srcs[t]), m, o, st, depth);
  }

  lemma ReadyRuns(cfg: Config, limit: nat, f: Front, statements: seq<LogStatement>, t: string, n: nat)
    requires WellFormedStatements(cfg, limit, statements) && Ready(cfg, limit, f, statements, t, n)
    requires n >= TotalCost(cfg, limit, statements) + 2
    ensures Runs(cfg.behaviour, InitPipes(f.graph.pipes, n), Some(f.srcs[t]),
                 i => Fork(Branches(cfg, limit, FedBy(statements, t), i), true), 0, TotalCost(cfg, limit, statements) + 3)
  {
    var p, aux, bound := f.graph.pipes, f.graph.aux, TotalCost(cfg, limit, statements) + 2;
    DestinationsRunBelow(cfg, limit, p, InitPipes(p, n), aux, n);
    FedIsFine(cfg, limit, statements, t, bound);
    SourceRuns(cfg, limit, p, InitPipes(p, n), aux, n, f.srcs[t], FedBy(statements, t), bound);
  }

  lemma PerformDelivers(a: seq<Action>, o: LogPathOptions, st: RunState, r: RunState)
    requires r == Perform(a, o, st) && o.ackNeeded
    ensures r.deliveries == st.deliveries + Deliveries(a) && r.acks == st.acks - 1 + |Deliveries(a)|
    ensures r.exhausted == st.exhausted
  {
    ActAllDelivers(a, o, st);
  }

  /** The observable form, for a message straight from its source: the leaves receive the
      deliveries of the statements, one acknowledgement is outstanding per delivery,
      and the traversal ends. */
  lemma SourceDelivers(cfg: Config, limit: nat, statements: seq<LogStatement>, t: string, n: nat, m: LogMessage,
                       st: RunState, depth: nat)
    requires WellFormedStatements(cfg, limit, statements) && FedBy(statements, t) != []
    requires n >= TotalCost(cfg, limit, statements) + 2 && depth >= TotalCost(cfg, limit, statements) + 3
    ensures var c := CompileStatements(cfg, limit, NEW_FRONT, statements);
            c.StatementCompiled? && t in c.front.srcs
            && var o := LogPathOptions(true, false, None, None);
               var r := Queue(cfg.behaviour, InitPipes(c.front.graph.pipes, n), c.front.srcs[t], m, o, st, depth);
               var d := Deliveries(Fork(Branches(cfg, limit, FedBy(statements, t), Item(m, false)), true));
               && r.deliveries == st.deliveries + d && r.acks == st.acks - 1 + |d|
               && r.exhausted == st.exhausted
  {
    var o := LogPathOptions(true, false, None, None);
    SourceDispatches(cfg, limit, statements, t, n, m, o, st, depth);
    var f := CompileStatements(cfg, limit, NEW_FRONT, statements).front;
    PerformDelivers(Fork(Branches(cfg, limit, FedBy(statements, t), Item(m, false)), true), o, st,
                    Queue(cfg.behaviour, InitPipes(f.graph.pipes, n), f.srcs[t], m, o, st, depth));
  }

  // ---------------------------------------------------------------------
  // Statement by statement
  // ---------------------------------------------------------------------

  predicate Accepts(cfg: Config, limit: nat, s: LogStatement, i: Item) { Matches(Meaning(cfg, limit, s.Expr(), i)) }

  predicate IsFallback(s: LogStatement) { HeadFallback(s.Expr()) }

  /** Which of the statements behind a source get a message: none that comes after a
      matching final statement of its kind, and a fallback statement only if no other
      statement matched. */
  ghost predicate Served(cfg: Config, limit: nat, fed: seq<LogStatement>, i: Item, j: nat)
    requires j < |fed|
  {
    && (forall k :: 0 <= k < j && IsFallback(fed[k]) == IsFallback(fed[j]) ==>
          !(HeadFinal(fed[k].Expr()) && Accepts(cfg, limit, fed[k], i)))
    && (IsFallback(fed[j]) ==> forall k :: 0 <= k < |fed| && !IsFallback(fed[k]) ==> !Accepts(cfg, limit, fed[k], i))
  }

  /** What the served statements of one kind deliver, from the j-th on. */
  ghost function ServedDeliveries(cfg: Config, limit: nat, fed: seq<LogStatement>, i: Item, fallback: bool, j: nat): seq<Delivery>
    requires j <= |fed|
    decreases |fed| - j
  {
    if j == |fed| then []
    else (if IsFallback(fed[j]) == fallback && Served(cfg, limit, fed, i, j)
          then Deliveries(Meaning(cfg, limit, fed[j].Expr(), i)) else [])
         + ServedDeliveries(cfg, limit, fed, i, fallback, j + 1)
  }

  lemma {:induction false} BranchesAt(cfg: Config, limit: nat, fed: seq<LogStatement>, i: Item)
    ensures var hops := Branches(cfg, limit, fed, i);
            |hops| == |fed| && forall k :: 0 <= k < |fed| ==> hops[k] == StatementHop(cfg, limit, fed[k], i)
  {
    if fed == [] {
    } else {
      BranchesAt(cfg, limit, fed[1..], i);
    }
  }

  function StatementHop(cfg: Config, limit: nat, s: LogStatement, i: Item): Hop {
    HopFor(s.Expr(), Bind(Meaning(cfg, limit, s.Expr(), i), EndOfPath))
  }

  lemma HopOfStatement(cfg: Config, limit: nat, s: LogStatement, i: Item)
    ensures var h := StatementHop(cfg, limit, s, i);
            && h.final == HeadFinal(s.Expr()) && h.fallback == IsFallback(s)
            && Matches(h.actions) == Accepts(cfg, limit, s, i)
            && Deliveries(h.actions) == Deliveries(Meaning(cfg, limit, s.Expr(), i))
  {
    EndKeepsDeliveries(Meaning(cfg, limit, s.Expr(), i));
    EndKeepsMatch(Meaning(cfg, limit, s.Expr(), i));
  }

  lemma ReachedIsServed(cfg: Config, limit: nat, fed: seq<LogStatement>, i: Item, j: nat)
    requires j < |fed|
    ensures var hops := Branches(cfg, limit, fed, i);
            |hops| == |fed| && (Reached(hops, j) <==> Served(cfg, limit, fed, i, j))
  {
    var hops := Branches(cfg, limit, fed, i);
    BranchesAt(cfg, limit, fed, i);
    forall k | 0 <= k < |fed|
      ensures && hops[k].fallback == IsFallback(fed[k])
              && Matches(hops[k].actions) == Accepts(cfg, limit, fed[k], i)
              && Wins(hops[k]) == (HeadFinal(fed[k].Expr()) && Accepts(cfg, limit, fed[k], i))
    {
      HopOfStatement(cfg, limit, fed[k], i);
    }
  }

  lemma {:induction false} CollectedIsServed(cfg: Config, limit: nat, fed: seq<LogStatement>, i: Item, fallback: bool, j: nat)
    requires j <= |fed| == |Branches(cfg, limit, fed, i)|
    ensures Collected(Branches(cfg, limit, fed, i), fallback, j) == ServedDeliveries(cfg, limit, fed, i, fallback, j)
    decreases |fed| - j
  {
    if j == |fed| {
    } else {
      BranchesAt(cfg, limit, fed, i);
      HopOfStatement(cfg, limit, fed[j], i);
      ReachedIsServed(cfg, limit, fed, i, j);
      CollectedIsServed(cfg, limit, fed, i, fallback, j + 1);
    }
  }

  /** A message straight from its source is delivered by exactly the statements that are
      served, in order, fallback statements last. */
  lemma SourceServes(cfg: Config, limit: nat, statements: seq<LogStatement>, t: string, n: nat, m: LogMessage,
                     st: RunState, depth: nat)
    requires WellFormedStatements(cfg, limit, statements) && FedBy(statements, t) != []
    requires n >= TotalCost(cfg, limit, statements) + 2 && depth >= TotalCost(cfg, limit, statements) + 3
    ensures var c := CompileStatements(cfg, limit, NEW_FRONT, statements);
            c.StatementCompiled? && t in c.front.srcs
            && var o := LogPathOptions(true, false, None, None);
               var r := Queue(cfg.behaviour, InitPipes(c.front.graph.pipes, n), c.front.srcs[t], m, o, st, depth);
               var fed, i := FedBy(statements, t), Item(m, false);
               r.deliveries == st.deliveries + (ServedDeliveries(cfg, limit, fed, i, false, 0)
                                                + ServedDeliveries(cfg, limit, fed, i, true, 0))
  {
    var fed, i := FedBy(statements, t), Item(m, false);
    SourceDelivers(cfg, limit, statements, t, n, m, st, depth);
    BranchesAt(cfg, limit, fed, i);
    ForkDelivers(Branches(cfg, limit, fed, i), true);
    CollectedIsServed(cfg, limit, fed, i, false, 0);
    CollectedIsServed(cfg, limit, fed, i, true, 0);
  }

  /** A statement without `final` never keeps a later one of its kind from its
      deliveries: with no final statement in front of it, a statement is served, fallback
      statements if no other statement matches. */
  lemma OnlyFinalStops(cfg: Config, limit: nat, fed: seq<LogStatement>, i: Item, j: nat)
    requires j < |fed| && forall k :: 0 <= k < j && IsFallback(fed[k]) == IsFallback(fed[j]) ==> !HeadFinal(fed[k].Expr())
    requires IsFallback(fed[j]) ==> forall k :: 0 <= k < |fed| && !IsFallback(fed[k]) ==> !Accepts(cfg, limit, fed[k], i)
    ensures ServedDeliveries(cfg, limit, fed, i, IsFallback(fed[j]), j)
         == Deliveries(Meaning(cfg, limit, fed[j].Expr(), i)) + ServedDeliveries(cfg, limit, fed, i, IsFallback(fed[j]), j + 1)
  {
  }
}
