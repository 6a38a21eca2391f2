/**
 From configuration to running log paths: compile every log statement, initialize
 every pipe, and the pipe graph in memory does what the statements mean.
 */
module LoadedConfig {
  import opened LogPipe
  import opened LogExpr
  import opened LogPathRun
  import opened LogStatements
  import opened SourceDispatch
  import opened StatementChains
  import Compiler = CfgTreeCompiler

  /** Whatever message a source hands on, the traversal of `pipes` performs the fork of
      the log statements that refer to the source. */
  ghost predicate Dispatches(cfg: Config, limit: nat, statements: seq<LogStatement>, pipes: seq<Pipe>,
                             sources: map<string, nat>) {
    forall t: string, m: LogMessage, o: LogPathOptions, st: RunState, depth: nat
      {:trigger Dispatched(cfg, limit, statements, pipes, sources, t, m, o, st, depth)} ::
      FedBy(statements, t) != [] && Scoped(o, |st.cells|) && depth >= TotalCost(cfg, limit, statements) + 3
      ==> Dispatched(cfg, limit, statements, pipes, sources, t, m, o, st, depth)
  }

  ghost predicate Dispatched(cfg: Config, limit: nat, statements: seq<LogStatement>, pipes: seq<Pipe>,
                             sources: map<string, nat>, t: string,
                             m: LogMessage, o: LogPathOptions, st: RunState, depth: nat) {
    && t in sources
    && Queue(cfg.behaviour, pipes, sources[t], m, o, st, depth)
       == Perform(Fork(Branches(cfg, limit, FedBy(statements, t), Item(m, o.flowControlRequested)), true), o, st)
  }

  lemma InitializedDispatches(cfg: Config, limit: nat, statements: seq<LogStatement>, n: nat)
    requires WellFormedStatements(cfg, limit, statements) && n >= TotalCost(cfg, limit, statements) + 2
    ensures var c := CompileStatements(cfg, limit, NEW_FRONT, statements);
            c.StatementCompiled? && Dispatches(cfg, limit, statements, InitPipes(c.front.graph.pipes, n), c.front.srcs)
  {
    var c := CompileStatements(cfg, limit, NEW_FRONT, statements);
    StatementsAreDone(cfg, limit, NEW_FRONT, statements);
    forall t: string, m: LogMessage, o: LogPathOptions, st: RunState, depth: nat
      | FedBy(statements, t) != [] && Scoped(o, |st.cells|) && depth >= TotalCost(cfg, limit, statements) + 3
      ensures Dispatched(cfg, limit, statements, InitPipes(c.front.graph.pipes, n), c.front.srcs, t, m, o, st, depth)
    {
      SourceDispatches(cfg, limit, statements, t, n, m, o, st, depth);
    }
  }

  /** cfg_tree_compile and cfg_tree_start on a fresh tree. */
  method Load(cfg: Config, limit: nat, statements: seq<LogStatement>) returns (tree: Compiler.CfgTree)
    requires WellFormedStatements(cfg, limit, statements)
    ensures fresh(tree) && Dispatches(cfg, limit, statements, tree.pipes, tree.sources)
  {
    tree := new Compiler.CfgTree(cfg);
    ghost var n := StatementChainsEnd(cfg, limit, statements, TotalCost(cfg, limit, statements) + 2);
    var _ := tree.CompileStatements(limit, statements);
    InitializedDispatches(cfg, limit, statements, n);
    tree.Start(n);
  }
}
