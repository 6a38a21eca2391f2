/** Every reference to a source leads to the statement it stands in. */
module LogStatementWires {
  import opened Wrappers
  import opened LogPipe
  import opened LogExpr
  import opened CfgTree
  import opened CompileShape
  import opened CompileWires
  import opened Wiring
  import opened LogPathTheorem
  import opened LogStatements

  /** `p` has the pipes of `f`, up to the hops behind the sources. */
  ghost predicate Settled(f: Front, p: seq<Pipe>) {
    |f.graph.pipes| <= |p| && forall i: nat :: i < |f.graph.pipes| && !IsSource(f, i) ==> p[i] == f.graph.pipes[i]
  }

  /** The attached pipe leads through the source join to the statement. */
  ghost predicate Leads(cfg: Config, limit: nat, p: seq<Pipe>, aux: map<Key, nat>, hop: nat, join: nat, entry: nat,
                        s: LogStatement) {
    && hop < |p| && p[hop] == Pipe(Forwarder, NO_FLAGS, Some(join)) && join < |p|
    && (entry == join || p[join] == Pipe(Forwarder, NO_FLAGS, Some(entry)))
    && Wired(cfg, limit, p, aux, s.Expr(), Some(entry), None, NO_FLAGS)
  }

  ghost predicate LeadsTo(cfg: Config, limit: nat, p: seq<Pipe>, aux: map<Key, nat>, hop: nat, s: LogStatement) {
    exists join: nat, entry: nat :: Leads(cfg, limit, p, aux, hop, join, entry, s)
  }

  /** The statement behind its references. */
  function Rest(cfg: Config, limit: nat, f: Front, s: LogStatement): Compiled {
    CompileChildren(cfg, limit, AttachAll(f, s.sources, None).front.graph, OfLc(s.flags), s.children, None, None)
  }

  lemma RestHasShape(cfg: Config, limit: nat, f: Front, s: LogStatement)
    requires FrontOk(f) && WellFormed(cfg, limit, s.Expr(), true)
    ensures var a, c := AttachAll(f, s.sources, None), Rest(cfg, limit, f, s);
            && ChildrenShape(cfg, limit, a.front.graph, s.children, None, None, c)
            && NewCosts(cfg, f.graph.aux, c.graph.aux, CostOfList(cfg, limit, s.children))
            && AuxGrows(cfg, limit, f.graph.aux, c.graph.aux)
  {
    var a := AttachAll(f, s.sources, None);
    AllAttached(f, s.sources, None);
    ChildrenHaveShape(cfg, limit, a.front.graph, OfLc(s.flags), s.children, None, None, true);
    ListCosts(cfg, limit, a.front.graph, OfLc(s.flags), s.children, None, None, true);
  }

  /** What compiling a statement with sources did to the pipes. */
  ghost predicate Placed(a: Attached, c: Compiled, f1: Front, flags: PipeFlags)
    requires c.Compiled? && a.join.Some?
  {
    && f1.srcs == a.front.srcs && |f1.graph.pipes| == |c.graph.pipes| && f1.graph.aux == c.graph.aux
    && a.join.value < |a.front.graph.pipes| <= |c.graph.pipes|
    && (forall i: nat :: i < |c.graph.pipes| && i != a.join.value ==> f1.graph.pipes[i] == c.graph.pipes[i])
    && f1.graph.pipes[a.join.value]
       == if c.head.None? then Pipe(Forwarder, flags, None) else Pipe(Forwarder, NO_FLAGS, c.head)
  }

  lemma StatementPlaced(cfg: Config, limit: nat, f: Front, s: LogStatement)
    requires FrontOk(f) && WellFormed(cfg, limit, s.Expr(), true) && s.sources != []
    ensures var r, a, c := CompileStatement(cfg, limit, f, s), AttachAll(f, s.sources, None), Rest(cfg, limit, f, s);
            && r.StatementCompiled? && c.Compiled? && a.join.Some? && SameBut(a.front.graph, c.graph, None)
            && Placed(a, c, r.front, OfLc(s.flags))
  {
    AllAttached(f, s.sources, None);
    RestHasShape(cfg, limit, f, s);
    var a, c := AttachAll(f, s.sources, None), Rest(cfg, limit, f, s);
    assert c.graph.pipes[a.join.value] == Pipe(Forwarder, NO_FLAGS, None);
    assert NO_FLAGS.Or(OfLc(s.flags)) == OfLc(s.flags);
  }

  ghost predicate StatementDone(cfg: Config, limit: nat, f: Front, s: LogStatement, f1: Front) {
    && FrontOk(f1) && Keeps(f, f1) && AuxGrows(cfg, limit, f.graph.aux, f1.graph.aux)
    && NewCosts(cfg, f.graph.aux, f1.graph.aux, Cost(cfg, limit, s.Expr()))
    && forall t :: Fed(f1, t) == Fed(f, t) + AttachedTo(f, s.sources, None, t)
  }

  lemma SourcelessDone(cfg: Config, limit: nat, f: Front, s: LogStatement)
    requires FrontOk(f) && WellFormed(cfg, limit, s.Expr(), true) && s.sources == []
    ensures var r := CompileStatement(cfg, limit, f, s); r.StatementCompiled? && StatementDone(cfg, limit, f, s, r.front)
  {
    RestHasShape(cfg, limit, f, s);
    var r := CompileStatement(cfg, limit, f, s);
    assert SameBut(f.graph, r.front.graph, None);
    OutsideSources(f, r.front.graph);
    assert r.front == f.(graph := r.front.graph);
    forall t ensures Fed(r.front, t) == Fed(f, t) + AttachedTo(f, s.sources, None, t) {
      assert Fed(f, t) + [] == Fed(f, t);
    }
  }

  lemma StatementIsDone(cfg: Config, limit: nat, f: Front, s: LogStatement)
    requires FrontOk(f) && WellFormed(cfg, limit, s.Expr(), true)
    ensures var r := CompileStatement(cfg, limit, f, s); r.StatementCompiled? && StatementDone(cfg, limit, f, s, r.front)
  {
    if s.sources == [] {
      SourcelessDone(cfg, limit, f, s);
    } else {
      var r, a := CompileStatement(cfg, limit, f, s), AttachAll(f, s.sources, None);
      StatementPlaced(cfg, limit, f, s);
      AllAttached(f, s.sources, None);
      RestHasShape(cfg, limit, f, s);
      assert r.front == a.front.(graph := r.front.graph);
      OutsideSources(a.front, r.front.graph);
      SourcesFed(f, s, r.front);
    }
  }

  lemma SourcesFed(f: Front, s: LogStatement, f1: Front)
    requires FrontOk(f) && forall t :: Fed(f1, t) == Fed(AttachAll(f, s.sources, None).front, t)
    ensures forall t :: Fed(f1, t) == Fed(f, t) + AttachedTo(f, s.sources, None, t)
  {
    forall t ensures Fed(f1, t) == Fed(f, t) + AttachedTo(f, s.sources, None, t) {
      AllFed(f, s.sources, None, t);
    }
  }

  /** The pipes of the rest of a statement are in `p`. */
  lemma RestFits(cfg: Config, limit: nat, f: Front, s: LogStatement, p: seq<Pipe>)
    requires FrontOk(f) && WellFormed(cfg, limit, s.Expr(), true) && !AllHeadless(s.children)
    requires var r := CompileStatement(cfg, limit, f, s); r.StatementCompiled? && Settled(r.front, p)
    ensures var a, c := AttachAll(f, s.sources, None), Rest(cfg, limit, f, s);
            c.Compiled? && BeyondFits(c.graph, |a.front.graph.pipes|, p)
  {
    var r, a, c := CompileStatement(cfg, limit, f, s), AttachAll(f, s.sources, None), Rest(cfg, limit, f, s);
    AllAttached(f, s.sources, None);
    RestHasShape(cfg, limit, f, s);
    if s.sources != [] {
      StatementPlaced(cfg, limit, f, s);
    }
    forall i | |a.front.graph.pipes| <= i < |c.graph.pipes| ensures p[i] == c.graph.pipes[i] {
      assert !IsSource(r.front, i);
    }
  }

  lemma RestWires(cfg: Config, limit: nat, f: Front, s: LogStatement, p: seq<Pipe>, aux: map<Key, nat>)
    requires FrontOk(f) && WellFormed(cfg, limit, s.Expr(), true) && !AllHeadless(s.children)
    requires var r := CompileStatement(cfg, limit, f, s); r.StatementCompiled? && Settled(r.front, p)
    requires SubAux(Rest(cfg, limit, f, s).graph.aux, aux)
    ensures var c := Rest(cfg, limit, f, s);
            c.Compiled? && Wired(cfg, limit, p, aux, s.Expr(), c.head, None, NO_FLAGS)
            && NewDestinationsWired(cfg, p, aux, f.graph.aux, c.graph.aux)
  {
    var a, c := AttachAll(f, s.sources, None), Rest(cfg, limit, f, s);
    AllAttached(f, s.sources, None);
    RestHasShape(cfg, limit, f, s);
    RestFits(cfg, limit, f, s, p);
    assert CompileNode(cfg, limit, a.front.graph, s.Expr()) == c;
    NodeHasShape(cfg, limit, a.front.graph, s.Expr(), true);
    NodeWires(cfg, limit, a.front.graph, s.Expr(), true, p, aux, NO_FLAGS, None);
  }

  lemma HopLeads(cfg: Config, limit: nat, f: Front, s: LogStatement, p: seq<Pipe>, aux: map<Key, nat>, t: string, h: nat)
    requires FrontOk(f) && WellFormed(cfg, limit, s.Expr(), true) && h in AttachedTo(f, s.sources, None, t)
    requires var r := CompileStatement(cfg, limit, f, s); r.StatementCompiled? && Settled(r.front, p)
    requires !AllHeadless(s.children) ==> Wired(cfg, limit, p, aux, s.Expr(), Rest(cfg, limit, f, s).head, None, NO_FLAGS)
    ensures LeadsTo(cfg, limit, p, aux, h, s)
  {
    var r, a, c := CompileStatement(cfg, limit, f, s), AttachAll(f, s.sources, None), Rest(cfg, limit, f, s);
    AllAttached(f, s.sources, None);
    AllLinked(f, s.sources, None, t, h);
    RestHasShape(cfg, limit, f, s);
    StatementPlaced(cfg, limit, f, s);
    var join := a.join.value;
    assert p[h] == Pipe(Forwarder, NO_FLAGS, Some(join));
    assert p[join] == r.front.graph.pipes[join];
    if AllHeadless(s.children) {
      assert NO_FLAGS.Or(OfLc(s.flags)) == OfLc(s.flags);
      assert Leads(cfg, limit, p, aux, h, join, join, s);
    } else {
      assert Leads(cfg, limit, p, aux, h, join, c.head.value, s);
    }
  }

  lemma StatementWires(cfg: Config, limit: nat, f: Front, s: LogStatement, p: seq<Pipe>, aux: map<Key, nat>)
    requires FrontOk(f) && WellFormed(cfg, limit, s.Expr(), true)
    requires var r := CompileStatement(cfg, limit, f, s);
             r.StatementCompiled? && Settled(r.front, p) && SubAux(r.front.graph.aux, aux)
    ensures NewDestinationsWired(cfg, p, aux, f.graph.aux, CompileStatement(cfg, limit, f, s).front.graph.aux)
    ensures forall t, h :: h in AttachedTo(f, s.sources, None, t) ==> LeadsTo(cfg, limit, p, aux, h, s)
  {
    RestHasShape(cfg, limit, f, s);
    if s.sources != [] {
      StatementPlaced(cfg, limit, f, s);
    }
    AllAttached(f, s.sources, None);
    if !AllHeadless(s.children) {
      RestWires(cfg, limit, f, s, p, aux);
    }
    forall t, h | h in AttachedTo(f, s.sources, None, t) ensures LeadsTo(cfg, limit, p, aux, h, s) {
      HopLeads(cfg, limit, f, s, p, aux, t, h);
    }
  }
}
