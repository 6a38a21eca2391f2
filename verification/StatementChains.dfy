/** Chains also end in a configuration of log statements with sources. */
module StatementChains {
  import opened Wrappers
  import opened LogPipe
  import opened LogExpr
  import opened CfgTree
  import opened CompileShape
  import opened Wiring
  import opened MultiplexerInit
  import opened CompiledChains
  import opened LogStatements
  import opened LogStatementWires
  import opened SourceDispatch

  /** Any number of new pipes that link nowhere. */
  lemma GrowFalls(q: seq<Pipe>, p: seq<Pipe>, lo: nat, r: seq<nat>) returns (s: seq<nat>)
    requires Falls(q, lo, r) && |q| <= |p|
    requires forall i :: 0 <= i < |q| ==> p[i].next == q[i].next
    requires forall i :: |q| <= i < |p| ==> p[i].next.None?
    ensures Falls(p, lo, s)
  {
    s := r + seq(|p| - |q|, _ => 0);
  }

  lemma AttachFalls(f: Front, name: string, join: Option<nat>, lo: nat, r: seq<nat>) returns (s: seq<nat>)
    requires FrontOk(f) && (join.Some? ==> IsJoinOf(f, join.value) && lo <= join.value) && Falls(f.graph.pipes, lo, r)
    ensures Falls(AttachAndJoin(f, name, join).graph.pipes, lo, s)
  {
    var p, attach, j := AttachAndJoin(f, name, join).graph.pipes, |f.graph.pipes|, JoinAfter(f, name, join);
    AttachPipes(f, name);
    JoinPipes(f, name, join);
    var q := p[attach := p[attach].(next := None)];
    forall i: nat | i < attach ensures q[i].next == f.graph.pipes[i].next {
      assert q[i] == p[i] == Attach(f, name).graph.pipes[i];
      assert name in f.srcs && f.srcs[name] == i ==> IsFork(f.graph.pipes, i, true, NO_FLAGS);
    }
    s := GrowFalls(f.graph.pipes, q, lo, r);
    JoinFalls(q, p, lo, j, s);
    s := RaiseBut(s, j - lo);
  }

  lemma {:induction false} AllAttachedFall(f: Front, names: seq<string>, join: Option<nat>, lo: nat, r: seq<nat>)
    returns (s: seq<nat>)
    requires FrontOk(f) && (join.Some? ==> IsJoinOf(f, join.value) && lo <= join.value) && Falls(f.graph.pipes, lo, r)
    ensures Falls(AttachAll(f, names, join).front.graph.pipes, lo, s)
    decreases |names|
  {
    s := r;
    if names == [] {
    } else {
      s := AttachFalls(f, names[0], join, lo, r);
      JoinShape(f, names[0], join);
      s := AllAttachedFall(AttachAndJoin(f, names[0], join), names[1..], Some(JoinAfter(f, names[0], join)), lo, s);
    }
  }

  lemma StatementFalls(cfg: Config, limit: nat, f: Front, s: LogStatement, r: seq<nat>) returns (t: seq<nat>)
    requires FrontOk(f) && WellFormed(cfg, limit, s.Expr(), true) && Falls(f.graph.pipes, 0, r)
    ensures var c := CompileStatement(cfg, limit, f, s); c.StatementCompiled? && Falls(c.front.graph.pipes, 0, t)
  {
    var a, rest := AttachAll(f, s.sources, None), Rest(cfg, limit, f, s);
    AllAttached(f, s.sources, None);
    RestHasShape(cfg, limit, f, s);
    var r0 := AllAttachedFall(f, s.sources, None, 0, r);
    var r1 := ChildrenFall(cfg, limit, a.front.graph, OfLc(s.flags), s.children, None, None, true, |a.front.graph.pipes|, []);
    if s.sources == [] {
      ConcatFalls(a.front.graph.pipes, rest.graph.pipes, 0, r0, r1);
      t := GrowFalls(rest.graph.pipes, CompileStatement(cfg, limit, f, s).front.graph.pipes, 0, r0 + r1);
    } else {
      StatementPlaced(cfg, limit, f, s);
      t := PlacedFalls(a, rest, CompileStatement(cfg, limit, f, s).front, OfLc(s.flags), r0, r1);
    }
  }

  lemma PlacedFalls(a: Attached, c: Compiled, f1: Front, flags: PipeFlags, r0: seq<nat>, r1: seq<nat>) returns (t: seq<nat>)
    requires c.Compiled? && a.join.Some? && SameBut(a.front.graph, c.graph, None) && Placed(a, c, f1, flags)
    requires IsJoinOf(a.front, a.join.value) && (c.head.Some? ==> |a.front.graph.pipes| <= c.head.value < |c.graph.pipes|)
    requires Falls(a.front.graph.pipes, 0, r0) && Falls(c.graph.pipes, |a.front.graph.pipes|, r1)
    ensures Falls(f1.graph.pipes, 0, t)
  {
    ConcatFalls(a.front.graph.pipes, c.graph.pipes, 0, r0, r1);
    if c.head.None? {
      t := r0 + r1;
    } else {
      t := LinkFalls(0, a.front.graph, c.graph, f1.graph, NO_FLAGS, c.head, a.join, c.head.value, r0, r1);
    }
  }

  lemma {:induction false} StatementsFall(cfg: Config, limit: nat, f: Front, statements: seq<LogStatement>, r: seq<nat>)
    returns (t: seq<nat>)
    requires FrontOk(f) && WellFormedStatements(cfg, limit, statements) && Falls(f.graph.pipes, 0, r)
    ensures var c := CompileStatements(cfg, limit, f, statements); c.StatementCompiled? && Falls(c.front.graph.pipes, 0, t)
    decreases |statements|
  {
    t := r;
    if statements == [] {
    } else {
      t := StatementFalls(cfg, limit, f, statements[0], r);
      StatementIsDone(cfg, limit, f, statements[0]);
      t := StatementsFall(cfg, limit, CompileStatement(cfg, limit, f, statements[0]).front, statements[1..], t);
    }
  }

  lemma StatementChainsEnd(cfg: Config, limit: nat, statements: seq<LogStatement>, atLeast: nat) returns (n: nat)
    requires WellFormedStatements(cfg, limit, statements)
    ensures var c := CompileStatements(cfg, limit, NEW_FRONT, statements);
            c.StatementCompiled? && ChainsEnd(c.front.graph.pipes, n) && n >= atLeast
  {
    var r := StatementsFall(cfg, limit, NEW_FRONT, statements, []);
    n := EndsWithin(CompileStatements(cfg, limit, NEW_FRONT, statements).front.graph.pipes, r, atLeast);
  }
}
