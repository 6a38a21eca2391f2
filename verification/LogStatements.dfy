/**
 Log statements and their sources (lib/cfg-tree.c).  Every reference to a source
 adds a pipe of its own to the multiplexer behind that source; all references of
 one log statement meet in a source join, and the rest of the statement follows.
 A message of the source therefore goes to its statements in the order of the
 configuration, and this is where the flags of a statement count.
 */
module LogStatements {
  import opened Wrappers
  import opened LogPipe
  import opened LogExpr
  import opened CfgTree
  import opened Wiring

  datatype LogStatement = LogStatement(sources: seq<string>, flags: LcFlags, children: Nodes)
  {
    /** The statement without its sources. */
    function Expr(): Node { Sequence(ContentPipe, flags, children) }
  }

  /** The pipes so far, and the multiplexer behind each source referred to so far. */
  datatype Front = Front(graph: Graph, srcs: map<string, nat>)

  const NEW_FRONT := Front(EMPTY_GRAPH, map[])

  /** The source part of cfg_tree_compile_reference. */
  function Attach(f: Front, name: string): Front {
    var attach := |f.graph.pipes|;
    var g := AddPipe(f.graph, Forwarder, NO_FLAGS);
    if name in f.srcs then Front(AddHop(g, f.srcs[name], attach), f.srcs)
    else Front(AddHop(AddPipe(g, Multiplexer([], true, false), NO_FLAGS), attach + 1, attach), f.srcs[name := attach + 1])
  }

  /** The attached reference is linked to the source join, which is created with the first. */
  function AttachAndJoin(f: Front, name: string, join: Option<nat>): Front {
    var a := Attach(f, name);
    var g := if join.None? then AddPipe(a.graph, Forwarder, NO_FLAGS) else a.graph;
    a.(graph := AppendPipe(g, |f.graph.pipes|, JoinAfter(f, name, join)))
  }

  function JoinAfter(f: Front, name: string, join: Option<nat>): nat {
    if join.None? then |Attach(f, name).graph.pipes| else join.value
  }

  datatype Attached = Attached(front: Front, join: Option<nat>)

  function AttachAll(f: Front, names: seq<string>, join: Option<nat>): Attached
    decreases |names|
  {
    if names == [] then Attached(f, join)
    else AttachAll(AttachAndJoin(f, names[0], join), names[1..], Some(JoinAfter(f, names[0], join)))
  }

  datatype CompiledFront = StatementFailed(error: CompileError) | StatementCompiled(front: Front)

  /** cfg_tree_compile_sequence for a top level statement: sources first, then the rest
      behind the source join; without a rest, the join carries the flags. */
  function CompileStatement(cfg: Config, limit: nat, f: Front, s: LogStatement): CompiledFront {
    if s.flags.catchAll then StatementFailed(CatchAllBelowTopLevel)
    else
      var a := AttachAll(f, s.sources, None);
      var c := CompileChildren(cfg, limit, a.front.graph, OfLc(s.flags), s.children, None, None);
      if c.Failed? then StatementFailed(c.error)
      else if a.join.None? then
        StatementCompiled(a.front.(graph := FinishSequence(ContentPipe, OfLc(s.flags), c).graph))
      else if c.head.None? then
        StatementCompiled(a.front.(graph := OrFlags(c.graph, a.join.value, OfLc(s.flags))))
      else
        StatementCompiled(a.front.(graph := AppendPipe(c.graph, a.join.value, c.head.value)))
  }

  function CompileStatements(cfg: Config, limit: nat, f: Front, statements: seq<LogStatement>): CompiledFront
    decreases |statements|
  {
    if statements == [] then StatementCompiled(f)
    else
      var c := CompileStatement(cfg, limit, f, statements[0]);
      if c.StatementFailed? then c else CompileStatements(cfg, limit, c.front, statements[1..])
  }

  // ---------------------------------------------------------------------
  // Shapes
  // ---------------------------------------------------------------------

  ghost predicate IsSource(f: Front, id: nat) {
    exists s :: s in f.srcs && f.srcs[s] == id
  }

  /** Every source has a multiplexer of its own. */
  ghost predicate FrontOk(f: Front) {
    && (forall s :: s in f.srcs ==> f.srcs[s] < |f.graph.pipes| && IsFork(f.graph.pipes, f.srcs[s], true, NO_FLAGS))
    && (forall s, t :: s in f.srcs && t in f.srcs && s != t ==> f.srcs[s] != f.srcs[t])
  }

  /** The pipes a source feeds. */
  function Fed(f: Front, name: string): seq<nat> {
    if name in f.srcs && f.srcs[name] < |f.graph.pipes| && f.graph.pipes[f.srcs[name]].kind.Multiplexer?
    then f.graph.pipes[f.srcs[name]].kind.hops else []
  }

  /** Pipes stay, except for the hops behind the sources; new sources are new pipes. */
  ghost predicate Keeps(f: Front, f': Front) {
    && |f.graph.pipes| <= |f'.graph.pipes|
    && (forall i: nat :: i < |f.graph.pipes| && !IsSource(f, i) ==>
          !IsSource(f', i) && f'.graph.pipes[i] == f.graph.pipes[i])
  }

  predicate PlainForwarder(f: Front, id: nat, next: Option<nat>) {
    id < |f.graph.pipes| && f.graph.pipes[id] == Pipe(Forwarder, NO_FLAGS, next)
  }

  lemma KeepsTransitive(a: Front, b: Front, c: Front)
    requires Keeps(a, b) && Keeps(b, c)
    ensures Keeps(a, c)
  {
  }

  /** What attaching did to the pipes. */
  lemma AttachPipes(f: Front, name: string)
    requires FrontOk(f)
    ensures var a, attach := Attach(f, name), |f.graph.pipes|;
            && a.graph.aux == f.graph.aux && PlainForwarder(a, attach, None)
            && |a.graph.pipes| == attach + (if name in f.srcs then 1 else 2)
            && a.srcs == (if name in f.srcs then f.srcs else f.srcs[name := attach + 1])
            && (forall i: nat :: i < attach && !(name in f.srcs && f.srcs[name] == i) ==> a.graph.pipes[i] == f.graph.pipes[i])
            && a.srcs[name] < |a.graph.pipes|
            && a.graph.pipes[a.srcs[name]] == Pipe(Multiplexer(Fed(f, name) + [attach], true, false), NO_FLAGS, None)
  {
    assert name !in f.srcs ==> [] + [|f.graph.pipes|] == [|f.graph.pipes|];
  }

  lemma AttachKeeps(f: Front, name: string)
    requires FrontOk(f)
    ensures Keeps(f, Attach(f, name)) && !IsSource(Attach(f, name), |f.graph.pipes|)
  {
    AttachPipes(f, name);
    var a := Attach(f, name);
    forall i: nat | i < |f.graph.pipes| && !IsSource(f, i)
      ensures !IsSource(a, i) && a.graph.pipes[i] == f.graph.pipes[i]
    {
      assert forall s :: s in a.srcs && s != name ==> s in f.srcs && a.srcs[s] == f.srcs[s];
    }
  }

  lemma AttachFeeds(f: Front, name: string, s: string)
    requires FrontOk(f)
    ensures Fed(Attach(f, name), s) == Fed(f, s) + (if s == name then [|f.graph.pipes|] else [])
  {
    AttachPipes(f, name);
    assert Fed(f, s) + [] == Fed(f, s);
  }

  lemma AttachOk(f: Front, name: string)
    requires FrontOk(f)
    ensures FrontOk(Attach(f, name))
  {
    AttachPipes(f, name);
  }

  /** Changes that leave the multiplexers of the sources alone. */
  lemma OutsideSources(f: Front, g: Graph)
    requires FrontOk(f) && |f.graph.pipes| <= |g.pipes|
    requires forall i: nat :: i < |f.graph.pipes| && IsSource(f, i) ==> g.pipes[i] == f.graph.pipes[i]
    ensures FrontOk(f.(graph := g)) && forall s :: Fed(f.(graph := g), s) == Fed(f, s)
  {
    forall s | s in f.srcs ensures g.pipes[f.srcs[s]] == f.graph.pipes[f.srcs[s]] {
      assert IsSource(f, f.srcs[s]);
    }
  }

  ghost predicate IsJoinOf(f: Front, join: nat) { PlainForwarder(f, join, None) && !IsSource(f, join) }

  /** One attached reference, linked to the join. */
  ghost predicate ReferenceLinked(f: Front, f1: Front, attach: nat, join: nat) {
    && FrontOk(f1) && Keeps(f, f1) && f1.graph.aux == f.graph.aux && IsJoinOf(f1, join)
    && PlainForwarder(f1, attach, Some(join)) && !IsSource(f1, attach)
  }

  lemma JoinPipes(f: Front, name: string, join: Option<nat>)
    requires FrontOk(f) && (join.Some? ==> IsJoinOf(f, join.value))
    ensures var a, f1, attach, j := Attach(f, name), AttachAndJoin(f, name, join), |f.graph.pipes|, JoinAfter(f, name, join);
            && f1.srcs == a.srcs && f1.graph.aux == f.graph.aux && attach != j && |a.graph.pipes| <= |f1.graph.pipes|
            && PlainForwarder(f1, j, None) && PlainForwarder(f1, attach, Some(j))
            && (forall i: nat :: i < |a.graph.pipes| && i != attach ==> f1.graph.pipes[i] == a.graph.pipes[i])
            && !IsSource(a, j)
  {
    AttachPipes(f, name);
    AttachKeeps(f, name);
  }

  lemma JoinShape(f: Front, name: string, join: Option<nat>)
    requires FrontOk(f) && (join.Some? ==> IsJoinOf(f, join.value))
    ensures ReferenceLinked(f, AttachAndJoin(f, name, join), |f.graph.pipes|, JoinAfter(f, name, join))
    ensures forall s :: Fed(AttachAndJoin(f, name, join), s) == Fed(f, s) + (if s == name then [|f.graph.pipes|] else [])
  {
    var a, f1 := Attach(f, name), AttachAndJoin(f, name, join);
    AttachPipes(f, name);
    AttachKeeps(f, name);
    AttachOk(f, name);
    JoinPipes(f, name, join);
    OutsideSources(a, f1.graph);
    assert f1 == a.(graph := f1.graph);
    forall s ensures Fed(f1, s) == Fed(f, s) + (if s == name then [|f.graph.pipes|] else []) {
      AttachFeeds(f, name, s);
    }
  }

  // ---------------------------------------------------------------------
  // All references of a statement
  // ---------------------------------------------------------------------

  /** The pipes attached to source `s`. */
  function AttachedTo(f: Front, names: seq<string>, join: Option<nat>, s: string): seq<nat>
    decreases |names|
  {
    if names == [] then []
    else (if names[0] == s then [|f.graph.pipes|] else [])
         + AttachedTo(AttachAndJoin(f, names[0], join), names[1..], Some(JoinAfter(f, names[0], join)), s)
  }

  function Occurrences(names: seq<string>, s: string): nat {
    if names == [] then 0 else (if names[0] == s then 1 else 0) + Occurrences(names[1..], s)
  }

  lemma {:induction false} AllAttached(f: Front, names: seq<string>, join: Option<nat>)
    requires FrontOk(f) && (join.Some? ==> IsJoinOf(f, join.value))
    ensures var a := AttachAll(f, names, join);
            && FrontOk(a.front) && Keeps(f, a.front) && a.front.graph.aux == f.graph.aux
            && (a.join.None? <==> names == [] && join.None?)
            && (join.Some? ==> a.join == join)
            && (a.join.Some? ==> IsJoinOf(a.front, a.join.value) && (join.None? ==> a.join.value >= |f.graph.pipes|))
    decreases |names|
  {
    if names == [] {
    } else {
      var f1, j := AttachAndJoin(f, names[0], join), JoinAfter(f, names[0], join);
      JoinShape(f, names[0], join);
      AllAttached(f1, names[1..], Some(j));
      KeepsTransitive(f, f1, AttachAll(f1, names[1..], Some(j)).front);
    }
  }

  lemma {:induction false} AllFed(f: Front, names: seq<string>, join: Option<nat>, s: string)
    requires FrontOk(f) && (join.Some? ==> IsJoinOf(f, join.value))
    ensures Fed(AttachAll(f, names, join).front, s) == Fed(f, s) + AttachedTo(f, names, join, s)
    ensures |AttachedTo(f, names, join, s)| == Occurrences(names, s)
    decreases |names|
  {
    if names != [] {
      var f1, j := AttachAndJoin(f, names[0], join), JoinAfter(f, names[0], join);
      JoinShape(f, names[0], join);
      AllFed(f1, names[1..], Some(j), s);
      Reassociate(Fed(f, s), if names[0] == s then [|f.graph.pipes|] else [], AttachedTo(f1, names[1..], Some(j), s));
    } else {
      assert Fed(f, s) + [] == Fed(f, s);
    }
  }

  lemma Reassociate(a: seq<nat>, b: seq<nat>, c: seq<nat>)
    ensures a + b + c == a + (b + c)
  {
  }

  lemma {:induction false} AllLinked(f: Front, names: seq<string>, join: Option<nat>, s: string, h: nat)
    requires FrontOk(f) && (join.Some? ==> IsJoinOf(f, join.value)) && h in AttachedTo(f, names, join, s)
    ensures var a := AttachAll(f, names, join); PlainForwarder(a.front, h, a.join) && !IsSource(a.front, h)
    decreases |names|
  {
    var f1, j := AttachAndJoin(f, names[0], join), JoinAfter(f, names[0], join);
    JoinShape(f, names[0], join);
    AllAttached(f1, names[1..], Some(j));
    if h != |f.graph.pipes| {
      AllLinked(f1, names[1..], Some(j), s, h);
    }
  }
}
