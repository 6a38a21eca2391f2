/**
 The if / elif / else builders of lib/cfg-tree.c.  The parser builds a chain
 one arm at a time, always replacing the empty else of the last `if`; the
 result reads as "the first arm that matches", whatever the number of arms.
 */
module IfChains {
  import opened Wrappers
  import opened LogPipe
  import opened LogExpr
  import opened ActionLaws
  import opened WiringRuns
  import opened MeaningLevels

  /** `if (filter) { body }`, or `if { body }` when there is no filter. */
  datatype Arm = Arm(filter: Option<nat>, flags: LcFlags, children: Nodes)
  {
    function Body(): Node { Sequence(ContentPipe, flags.(final := true), children) }

    function Filter(): Option<Node> { if filter.Some? then Some(FilterExpr(filter.value)) else None }
  }

  function FilterExpr(element: nat): Node {
    Sequence(ContentFilter, NO_LC, Cons(Single(element), Nil))
  }

  function FinalLog(children: Nodes): Node { Sequence(ContentPipe, LC_FINAL, children) }

  /** log_expr_node_new_simple_conditional and log_expr_node_new_compound_conditional */
  function NewConditional(arm: Arm): Node { Conditional(arm.Body(), FinalLog(Nil), arm.Filter()) }

  /** log_expr_node_conditional_set_false_branch_of_the_last_if; None where an
      assertion of the source fails. */
  function SetFalseBranchOfLastIf(node: Node, falseExpr: Node): Option<Node>
    decreases node
  {
    if !node.Conditional? || !node.els.Sequence? then None
    else if node.els.children.Nil? then Some(node.(els := FinalLog(Cons(falseExpr, Nil))))
    else
      var inner := SetFalseBranchOfLastIf(node.els.children.node, falseExpr);
      if inner.None? then None
      else Some(node.(els := node.els.(children := Cons(inner.value, node.els.children.next))))
  }

  /** What the parser has after `if` and the `elif`s, and then after `else`. */
  function BuildIf(arms: seq<Arm>): Option<Node>
    requires arms != []
  {
    if |arms| == 1 then Some(NewConditional(arms[0]))
    else
      var chain := BuildIf(arms[..|arms| - 1]);
      if chain.None? then None
      else SetFalseBranchOfLastIf(chain.value, NewConditional(arms[|arms| - 1]))
  }

  function BuildIfElse(arms: seq<Arm>, els: Option<Node>): Option<Node>
    requires arms != []
  {
    var chain := BuildIf(arms);
    if chain.None? || els.None? then chain else SetFalseBranchOfLastIf(chain.value, els.value)
  }

  // ---------------------------------------------------------------------
  // The nesting the builders arrive at
  // ---------------------------------------------------------------------

  /** Every arm sits alone in the else of the one before; `last` is the content
      of the last else. */
  function Nest(arms: seq<Arm>, last: Nodes): Node
    requires arms != []
  {
    Conditional(arms[0].Body(), FinalLog(if |arms| == 1 then last else Cons(Nest(arms[1..], last), Nil)), arms[0].Filter())
  }

  lemma {:induction false} SetFalseBranchNests(arms: seq<Arm>, falseExpr: Node)
    requires arms != []
    ensures SetFalseBranchOfLastIf(Nest(arms, Nil), falseExpr) == Some(Nest(arms, Cons(falseExpr, Nil)))
  {
    if |arms| > 1 {
      SetFalseBranchNests(arms[1..], falseExpr);
    }
  }

  lemma {:induction false} NestExtends(arms: seq<Arm>, arm: Arm)
    requires arms != []
    ensures Nest(arms, Cons(NewConditional(arm), Nil)) == Nest(arms + [arm], Nil)
  {
    assert (arms + [arm])[0] == arms[0];
    assert (arms + [arm])[1..] == arms[1..] + [arm];
    if |arms| > 1 {
      NestExtends(arms[1..], arm);
    } else {
      assert arms[1..] + [arm] == [arm];
    }
  }

  lemma {:induction false} BuildIfNests(arms: seq<Arm>)
    requires arms != []
    ensures BuildIf(arms) == Some(Nest(arms, Nil))
  {
    if |arms| > 1 {
      var front, arm := arms[..|arms| - 1], arms[|arms| - 1];
      BuildIfNests(front);
      SetFalseBranchNests(front, NewConditional(arm));
      NestExtends(front, arm);
      assert front + [arm] == arms;
    }
  }

  // ---------------------------------------------------------------------
  // The first arm that matches
  // ---------------------------------------------------------------------

  /** What an enclosing path sees of an expression: its actions and whether it matched. */
  function Observed(a: seq<Action>): Tried { Tried(Lower(a), Matches(a)) }

  /** Whether an arm is taken, and what it does: an arm with a filter is taken as
      soon as its filter passes, whatever happens in its body; an arm without one is
      taken if its whole body matches, and what it did before failing is kept. */
  datatype Choice = Choice(taken: bool, seen: Tried)

  /** The body of an arm: its elements in order, under the flow control it asks for. */
  function BodyReads(cfg: Config, limit: nat, arm: Arm, i: Item): seq<Action> {
    MeaningOfList(cfg, limit, arm.children, OrFlow(i, arm.flags.flowControl))
  }

  lemma BodyMeans(cfg: Config, limit: nat, arm: Arm, i: Item)
    ensures Meaning(cfg, limit, arm.Body(), i) == BodyReads(cfg, limit, arm, i)
    ensures HeadFinal(arm.Body())
  {
  }

  function Choose(cfg: Config, limit: nat, arm: Arm, i: Item): Choice {
    if arm.filter.Some? then
      match cfg.behaviour(arm.filter.value, i.msg)
      case Pass(m) => Choice(true, Observed(BodyReads(cfg, limit, arm, i.(msg := m))))
      case Reject => Choice(false, Tried([], false))
      case Consume => Choice(true, Tried([Deliver(Delivery(arm.filter.value, i))], true))
    else
      var body := Observed(BodyReads(cfg, limit, arm, i));
      Choice(body.delivered, body)
  }

  /** The arm first; after a taken arm nothing else is tried. */
  function FirstOr(c: Choice, rest: Tried): Tried {
    if c.taken then c.seen else Tried(c.seen.actions + rest.actions, rest.delivered)
  }

  /** The arm only if nothing else matched. */
  function LastResort(c: Choice, rest: Tried): Tried {
    if rest.delivered then rest else Tried(rest.actions + c.seen.actions, c.seen.delivered)
  }

  /** What the language promises: the arms in order, then the last else. */
  function InOrder(cfg: Config, limit: nat, arms: seq<Arm>, last: Nodes, i: Item): Tried {
    if arms == [] then Observed(MeaningOfList(cfg, limit, last, i))
    else FirstOr(Choose(cfg, limit, arms[0], i), InOrder(cfg, limit, arms[1..], last, i))
  }

  predicate IsFallback(arm: Arm) { arm.flags.fallback || (arm.children.Cons? && HeadFallback(arm.children.node)) }

  predicate ElseIsFallback(last: Nodes) { last.Cons? && HeadFallback(last.node) }

  /** The first of the remaining arms steps back behind everything that follows it:
      its body carries flags(fallback), and it does not stand right before an else
      that carries the same flag. */
  predicate Yields(arms: seq<Arm>, last: Nodes)
    requires arms != []
  {
    IsFallback(arms[0]) && (|arms| > 1 || !ElseIsFallback(last))
  }

  /** The arms in order, except that an arm that yields is tried last. */
  function FirstMatch(cfg: Config, limit: nat, arms: seq<Arm>, last: Nodes, i: Item): Tried {
    if arms == [] then Observed(MeaningOfList(cfg, limit, last, i))
    else
      var c, rest := Choose(cfg, limit, arms[0], i), FirstMatch(cfg, limit, arms[1..], last, i);
      if Yields(arms, last) then LastResort(c, rest) else FirstOr(c, rest)
  }

  lemma {:induction false} LowerOwn(a: seq<Action>)
    requires OwnLevel(a, 0)
    ensures Lower(Lower(a)) == Lower(a) && Matches(Lower(a))
    ensures Matches(a) ==> Lower(a) == a
  {
    if a == [] {
    } else {
      assert a[0] in a;
      assert forall x :: x in a[1..] ==> x in a;
      LowerOwn(a[1..]);
      LowerConcat(LowerOne(a[0]), Lower(a[1..]));
      assert Lower(LowerOne(a[0])) == LowerOne(a[0]);
    }
  }

  lemma {:induction false} LowerPastMidpoint(a: seq<Action>)
    requires OwnLevel(a, 0)
    ensures Lower(PastMidpoint(a)) == a && Matches(PastMidpoint(a))
  {
    if a == [] {
    } else {
      assert a[0] in a;
      assert forall x :: x in a[1..] ==> x in a;
      LowerPastMidpoint(a[1..]);
      var p := PastMidpoint(a);
      assert p[0] == PastMidpointOne(a[0]) && p[1..] == PastMidpoint(a[1..]);
      assert LowerOne(p[0]) == [a[0]];
    }
  }

  lemma {:induction false} BindUnit(a: seq<Action>, k: Meaningful)
    requires forall j :: k(j) == [Emit(j)]
    ensures Bind(a, k) == a
  {
    if a == [] {
    } else {
      BindUnit(a[1..], k);
    }
  }

  lemma TryFinal(hop: Hop)
    requires hop.final
    ensures Try([hop], hop.fallback) == Tried(Lower(hop.actions), Matches(hop.actions))
    ensures Try([hop], !hop.fallback) == Tried([], false)
  {
    assert [hop][1..] == [];
    assert Lower(hop.actions) + [] == Lower(hop.actions);
  }

  lemma BindOne(x: Action, k: Meaningful)
    ensures Bind([x], k) == if x.Emit? then k(x.item) else [x]
  {
    assert [x][1..] == [];
  }

  /** The hop that is tried first: a fallback steps back behind a hop that is none. */
  predicate Swapped(yes: Hop, no: Hop) { yes.fallback && !no.fallback }

  function TryBoth(first: Hop, second: Hop): Tried {
    if Matches(first.actions) then Tried(Lower(first.actions), true)
    else Tried(Lower(first.actions) + Lower(second.actions), Matches(second.actions))
  }

  lemma ForkTriesBoth(yes: Hop, no: Hop)
    requires yes.final && no.final
    ensures var t := if Swapped(yes, no) then TryBoth(no, yes) else TryBoth(yes, no);
            Fork([yes, no], true) == t.actions + (if t.delivered then [] else [Mismatch(0)])
  {
    var hops := [yes, no];
    assert hops[1..] == [no];
    assert yes in hops && no in hops;
    TryFinal(no);
    TryFinal(yes);
    assert Lower(yes.actions) + [] == Lower(yes.actions);
    assert [] + Lower(no.actions) == Lower(no.actions);
    assert HasFallback(hops) == (yes.fallback || no.fallback);
    var regular, extra := Try(hops, false), Try(hops, true);
    assert regular.actions + [] == regular.actions;
    assert [] + extra.actions == extra.actions;
  }

  /** What is left of a hop once the fork is behind. */
  lemma ObservedOwn(a: seq<Action>, b: seq<Action>)
    requires OwnLevel(a, 0) && !Matches(a)
    ensures Observed(Lower(a) + Lower(b)) == Tried(Lower(a) + Lower(Lower(b)), Matches(Lower(b)))
  {
    LowerOwn(a);
    LowerConcat(Lower(a), Lower(b));
    assert Mismatch(0) !in Lower(a);
  }

  lemma ObservedMismatch(a: seq<Action>, b: seq<Action>)
    requires OwnLevel(a, 0) && OwnLevel(b, 0)
    ensures Observed(Lower(a) + Lower(b) + [Mismatch(0)]) == Tried(Lower(a) + Lower(b), false)
  {
    LowerOwn(a);
    LowerOwn(b);
    var both := Lower(a) + Lower(b);
    LowerConcat(Lower(a), Lower(b));
    LowerConcat(both, [Mismatch(0)]);
    assert Lower([Mismatch(0)]) == [] by { assert [Mismatch(0)][1..] == []; }
    assert (both + [Mismatch(0)])[|both|] == Mismatch(0);
  }

  /** Two final hops as an enclosing path sees them. */
  lemma ForkOfTwo(first: Hop, second: Hop)
    requires OwnLevel(first.actions, 0) || Matches(first.actions)
    requires OwnLevel(second.actions, 0) || Matches(second.actions)
    ensures var t := TryBoth(first, second);
            Observed(t.actions + (if t.delivered then [] else [Mismatch(0)])) ==
            if Matches(first.actions) then Observed(Lower(first.actions))
            else if Matches(second.actions) then
              Tried(Lower(first.actions) + Lower(Lower(second.actions)), Matches(Lower(second.actions)))
            else Tried(Lower(first.actions) + Lower(second.actions), false)
  {
    var t := TryBoth(first, second);
    assert t.actions + [] == t.actions;
    if !Matches(first.actions) {
      if Matches(second.actions) {
        ObservedOwn(first.actions, second.actions);
      } else {
        ObservedMismatch(first.actions, second.actions);
      }
    }
  }

  lemma ListOfOne(cfg: Config, limit: nat, n: Node, i: Item)
    ensures MeaningOfList(cfg, limit, Cons(n, Nil), i) == Meaning(cfg, limit, n, i)
  {
    var a := Meaning(cfg, limit, n, i);
    var k := (j: Item) => MeaningOfList(cfg, limit, Nil, j);
    BindCongruent(a, k, j => MeaningOfList(cfg, limit, Nil, j));
    BindUnit(a, k);
  }

  lemma YesOfArm(cfg: Config, limit: nat, node: Node, arm: Arm, i: Item)
    requires node.Conditional? && node.thn == arm.Body() && node.filter == arm.Filter()
    ensures var yes := YesActions(cfg, limit, node, i);
            && OwnLevel(yes, 1)
            && match arm.filter
               case None => yes == Meaning(cfg, limit, arm.Body(), i)
               case Some(f) =>
                 match cfg.behaviour(f, i.msg)
                 case Pass(m) => yes == PastMidpoint(Meaning(cfg, limit, arm.Body(), i.(msg := m)))
                 case Reject => yes == [Mismatch(0)]
                 case Consume => yes == [Deliver(Delivery(f, i))]
  {
    YesLevels(cfg, limit, node, i);
    if arm.filter.Some? {
      var f := arm.filter.value;
      var a := MeaningOfElement(cfg, f, i);
      assert OrFlow(i, false) == i;
      ListOfOne(cfg, limit, Single(f), i);
      assert Meaning(cfg, limit, FilterExpr(f), i) == a;
      BindOne(a[0], j => PastMidpoint(Meaning(cfg, limit, node.thn, j)));
      assert a == [a[0]];
    }
  }

  lemma NoOfArms(cfg: Config, limit: nat, arms: seq<Arm>, last: Nodes, i: Item)
    requires arms != []
    ensures Meaning(cfg, limit, FinalLog(Cons(Nest(arms, last), Nil)), i) == Meaning(cfg, limit, Nest(arms, last), i)
  {
    assert OrFlow(i, false) == i;
    ListOfOne(cfg, limit, Nest(arms, last), i);
  }

  /** The hop of an arm, seen from outside the conditional. */
  lemma YesObserved(cfg: Config, limit: nat, arm: Arm, i: Item, yes: seq<Action>)
    requires match arm.filter
             case None => yes == Meaning(cfg, limit, arm.Body(), i)
             case Some(f) =>
               match cfg.behaviour(f, i.msg)
               case Pass(m) => yes == PastMidpoint(Meaning(cfg, limit, arm.Body(), i.(msg := m)))
               case Reject => yes == [Mismatch(0)]
               case Consume => yes == [Deliver(Delivery(f, i))]
    ensures OwnLevel(yes, 0) || Matches(yes)
    ensures var c := Choose(cfg, limit, arm, i);
            && c.taken == Matches(yes)
            && c.seen == if Matches(yes) then Observed(Lower(yes)) else Tried(Lower(yes), false)
  {
    match arm.filter
    case None =>
      BodyMeans(cfg, limit, arm, i);
      JudgesOwnPath(cfg, limit, arm.Body(), i);
      LowerOwn(yes);
    case Some(f) =>
      match cfg.behaviour(f, i.msg)
      case Pass(m) =>
        BodyMeans(cfg, limit, arm, i.(msg := m));
        JudgesOwnPath(cfg, limit, arm.Body(), i.(msg := m));
        LowerPastMidpoint(Meaning(cfg, limit, arm.Body(), i.(msg := m)));
      case Reject =>
        assert Lower(yes) == [] by { assert yes[1..] == []; }
        assert Mismatch(0) in yes;
      case Consume =>
        assert Lower(yes) == yes by { assert yes[1..] == []; }
  }

  /** One arm in front of an else whose meaning is known. */
  lemma ArmBeforeElse(cfg: Config, limit: nat, node: Node, arm: Arm, i: Item, rest: Tried)
    requires node.Conditional? && node.thn == arm.Body() && node.filter == arm.Filter()
    requires HeadFinal(node.els)
    requires Observed(Meaning(cfg, limit, node.els, i)) == rest
    ensures var c := Choose(cfg, limit, arm, i);
            Observed(Meaning(cfg, limit, node, i)) ==
            if IsFallback(arm) && !HeadFallback(node.els) then LastResort(c, rest) else FirstOr(c, rest)
  {
    var yes := HopFor(node.thn, YesActions(cfg, limit, node, i));
    var no := HopFor(node.els, Meaning(cfg, limit, node.els, i));
    ConditionalIsFork(cfg, limit, node, i);
    YesOfArm(cfg, limit, node, arm, i);
    YesObserved(cfg, limit, arm, i, yes.actions);
    JudgesOwnPath(cfg, limit, node.els, i);
    LowerOwn(no.actions);
    ForkTriesBoth(yes, no);
    if Swapped(yes, no) {
      ForkOfTwo(no, yes);
    } else {
      ForkOfTwo(yes, no);
    }
  }

  /** The chain the parser built means: the first arm that matches, where an arm
      with flags(fallback) comes after everything else. */
  lemma {:induction false} NestMeansFirstMatch(cfg: Config, limit: nat, arms: seq<Arm>, last: Nodes, i: Item)
    requires arms != []
    ensures Observed(Meaning(cfg, limit, Nest(arms, last), i)) == FirstMatch(cfg, limit, arms, last, i)
    decreases |arms|
  {
    var node, rest := Nest(arms, last), FirstMatch(cfg, limit, arms[1..], last, i);
    assert OrFlow(i, false) == i;
    if |arms| > 1 {
      NoOfArms(cfg, limit, arms[1..], last, i);
      NestMeansFirstMatch(cfg, limit, arms[1..], last, i);
    } else {
      assert arms[1..] == [];
    }
    ArmBeforeElse(cfg, limit, node, arms[0], i, rest);
  }

  function ElseNodes(els: Option<Node>): Nodes { if els.Some? then Cons(els.value, Nil) else Nil }

  /** For any number of `elif`s, any flags and with or without `else`, the builders
      never run into an assertion and the chain means the first arm that matches, arms
      with flags(fallback) last; without `else`, a message no arm takes passes through
      and counts as matched. */
  lemma IfChainTakesFirstMatch(cfg: Config, limit: nat, arms: seq<Arm>, els: Option<Node>, i: Item)
    requires arms != []
    ensures var chain := BuildIfElse(arms, els);
            && chain.Some?
            && Observed(Meaning(cfg, limit, chain.value, i)) == FirstMatch(cfg, limit, arms, ElseNodes(els), i)
  {
    BuildIfNests(arms);
    if els.Some? {
      SetFalseBranchNests(arms, els.value);
    }
    NestMeansFirstMatch(cfg, limit, arms, ElseNodes(els), i);
  }

  // ---------------------------------------------------------------------
  // When the arms are tried in the order they are written
  // ---------------------------------------------------------------------

  /** flags(fallback) per arm and at the else. */
  datatype Fallbacks = Fallbacks(arms: seq<bool>, els: bool)

  ghost predicate Flagged(f: Fallbacks, arms: seq<Arm>, last: Nodes) {
    && |arms| == |f.arms|
    && (forall k :: 0 <= k < |arms| ==> IsFallback(arms[k]) == f.arms[k])
    && ElseIsFallback(last) == f.els
  }

  /** No arm is flagged, except perhaps the last one if the else is flagged as well. */
  ghost predicate NoneYields(f: Fallbacks) {
    forall k :: 0 <= k < |f.arms| && f.arms[k] ==> k == |f.arms| - 1 && f.els
  }

  ghost predicate KeepsOrder(cfg: Config, limit: nat, arms: seq<Arm>, last: Nodes, i: Item) {
    FirstMatch(cfg, limit, arms, last, i) == InOrder(cfg, limit, arms, last, i)
  }

  lemma {:induction false} UnflaggedKeepOrder(cfg: Config, limit: nat, f: Fallbacks, arms: seq<Arm>, last: Nodes, i: Item)
    requires Flagged(f, arms, last) && NoneYields(f)
    ensures KeepsOrder(cfg, limit, arms, last, i)
    decreases |arms|
  {
    if arms == [] {
    } else {
      assert IsFallback(arms[0]) == f.arms[0];
      UnflaggedKeepOrder(cfg, limit, f.(arms := f.arms[1..]), arms[1..], last, i);
    }
  }

  /** A chain with given flags whose k-th filter is `from + k`: all filters but one
      reject, and every body is one destination. */
  function Probes(fallbacks: seq<bool>, from: nat): seq<Arm> {
    if fallbacks == [] then []
    else [Arm(Some(from), NO_LC.(fallback := fallbacks[0]), Cons(Single(0), Nil))] + Probes(fallbacks[1..], from + 1)
  }

  function ProbeElse(fallback: bool): Nodes { Cons(Sequence(ContentPipe, NO_LC.(fallback := fallback), Nil), Nil) }

  function PassOnly(chosen: nat): Behaviour {
    (e: nat, m: LogMessage) => if e == 0 then Consume else if e == chosen then Pass(m) else Reject
  }

  lemma {:induction false} ProbesFlagged(f: Fallbacks, from: nat)
    ensures Flagged(f, Probes(f.arms, from), ProbeElse(f.els))
    decreases |f.arms|
  {
    if f.arms == [] {
    } else {
      ProbesFlagged(f.(arms := f.arms[1..]), from + 1);
      var arms, rest := Probes(f.arms, from), Probes(f.arms[1..], from + 1);
      forall k | 0 <= k < |arms| ensures IsFallback(arms[k]) == f.arms[k] {
        if k > 0 {
          assert arms[k] == rest[k - 1] && f.arms[k] == f.arms[1..][k - 1];
        }
      }
    }
  }

  lemma ObservedOne(x: Action)
    requires !x.Mismatch?
    ensures Observed([x]) == Tried([x], true)
  {
    assert [x][1..] == [];
    assert Lower([x]) == LowerOne(x) + Lower([x][1..]);
  }

  lemma ProbeElseEmits(cfg: Config, limit: nat, fallback: bool, i: Item)
    ensures Observed(MeaningOfList(cfg, limit, ProbeElse(fallback), i)) == Tried([Emit(i)], true)
  {
    var body := Sequence(ContentPipe, NO_LC.(fallback := fallback), Nil);
    assert OrFlow(i, false) == i;
    ListOfOne(cfg, limit, body, i);
    assert Meaning(cfg, limit, body, i) == [Emit(i)];
    ObservedOne(Emit(i));
  }

  lemma ProbeTaken(cfg: Config, limit: nat, arm: Arm, i: Item)
    requires arm.filter.Some? && arm.children == Cons(Single(0), Nil)
    requires cfg.behaviour == PassOnly(arm.filter.value) && arm.filter.value > 0 && !arm.flags.flowControl
    ensures Choose(cfg, limit, arm, i) == Choice(true, Tried([Deliver(Delivery(0, i))], true))
  {
    var a := [Deliver(Delivery(0, i))];
    assert OrFlow(i, false) == i;
    ObservedOne(a[0]);
    ListOfOne(cfg, limit, Single(0), i);
    assert Meaning(cfg, limit, arm.Body(), i) == a;
  }

  /** Nothing is chosen: the message comes out at the else. */
  lemma {:induction false} ProbesPassBy(cfg: Config, limit: nat, fallbacks: seq<bool>, from: nat, els: bool, i: Item)
    requires from > 0 && exists chosen: nat :: chosen < from && cfg.behaviour == PassOnly(chosen)
    ensures FirstMatch(cfg, limit, Probes(fallbacks, from), ProbeElse(els), i) == Tried([Emit(i)], true)
    decreases |fallbacks|
  {
    if fallbacks == [] {
      ProbeElseEmits(cfg, limit, els, i);
    } else {
      ProbesPassBy(cfg, limit, fallbacks[1..], from + 1, els, i);
      assert Probes(fallbacks, from)[1..] == Probes(fallbacks[1..], from + 1);
      assert [] + [Emit(i)] == [Emit(i)];
    }
  }

  lemma FlaggedIsPassedOver(cfg: Config, limit: nat, arms: seq<Arm>, last: Nodes, i: Item)
    requires arms != [] && Yields(arms, last)
    requires Choose(cfg, limit, arms[0], i) == Choice(true, Tried([Deliver(Delivery(0, i))], true))
    requires FirstMatch(cfg, limit, arms[1..], last, i) == Tried([Emit(i)], true)
    ensures PassedOver(cfg, limit, arms, last, i)
  {
  }

  /** The promise is a delivery, and what happens is that the message passes by. */
  predicate PassedOver(cfg: Config, limit: nat, arms: seq<Arm>, last: Nodes, i: Item) {
    && FirstMatch(cfg, limit, arms, last, i) == Tried([Emit(i)], true)
    && InOrder(cfg, limit, arms, last, i) == Tried([Deliver(Delivery(0, i))], true)
  }

  lemma RejectedChangesNothing(cfg: Config, limit: nat, arms: seq<Arm>, last: Nodes, i: Item)
    requires arms != [] && Choose(cfg, limit, arms[0], i) == Choice(false, Tried([], false))
    requires PassedOver(cfg, limit, arms[1..], last, i)
    ensures PassedOver(cfg, limit, arms, last, i)
  {
    assert [] + [Emit(i)] == [Emit(i)];
    assert [] + [Deliver(Delivery(0, i))] == [Deliver(Delivery(0, i))];
  }

  /** The filter of a flagged arm passes, and still its body is not run. */
  lemma {:induction false} YieldingArmIsPassedOver(cfg: Config, limit: nat, f: Fallbacks, k: nat, from: nat, i: Item)
    requires k < |f.arms| && f.arms[k] && !(k == |f.arms| - 1 && f.els)
    requires from > 0 && cfg.behaviour == PassOnly(from + k)
    ensures PassedOver(cfg, limit, Probes(f.arms, from), ProbeElse(f.els), i)
    decreases k
  {
    var arms := Probes(f.arms, from);
    assert arms[1..] == Probes(f.arms[1..], from + 1);
    if k == 0 {
      ProbesFlagged(f, from);
      assert IsFallback(arms[0]);
      ProbesPassBy(cfg, limit, f.arms[1..], from + 1, f.els, i);
      ProbeTaken(cfg, limit, arms[0], i);
      FlaggedIsPassedOver(cfg, limit, arms, ProbeElse(f.els), i);
    } else {
      YieldingArmIsPassedOver(cfg, limit, f.(arms := f.arms[1..]), k - 1, from + 1, i);
      RejectedChangesNothing(cfg, limit, arms, ProbeElse(f.els), i);
    }
  }

  ghost predicate AlwaysKeepsOrder(f: Fallbacks) {
    forall cfg: Config, limit: nat, arms: seq<Arm>, last: Nodes, i: Item ::
      Flagged(f, arms, last) ==> KeepsOrder(cfg, limit, arms, last, i)
  }

  lemma YieldingBreaksOrder(f: Fallbacks, k: nat)
    requires k < |f.arms| && f.arms[k] && !(k == |f.arms| - 1 && f.els)
    ensures !AlwaysKeepsOrder(f)
  {
    var cfg, i := Config(map[], map[], PassOnly(1 + k)), Item(LogMessage(0, map[]), false);
    ProbesFlagged(f, 1);
    YieldingArmIsPassedOver(cfg, 0, f, k, 1, i);
    assert !KeepsOrder(cfg, 0, Probes(f.arms, 1), ProbeElse(f.els), i);
  }

  /** The arms are tried in the order they are written, whatever the conditions,
      bodies and messages, if and only if no arm carries flags(fallback); one right
      before an else with the same flag does no harm. */
  lemma KeepsOrderIff(f: Fallbacks)
    ensures NoneYields(f) <==> AlwaysKeepsOrder(f)
  {
    if NoneYields(f) {
      forall cfg: Config, limit: nat, arms: seq<Arm>, last: Nodes, i: Item | Flagged(f, arms, last)
        ensures KeepsOrder(cfg, limit, arms, last, i)
      {
        UnflaggedKeepOrder(cfg, limit, f, arms, last, i);
      }
    } else {
      var k :| 0 <= k < |f.arms| && f.arms[k] && !(k == |f.arms| - 1 && f.els);
      YieldingBreaksOrder(f, k);
    }
  }

  const SkippedArm := Arm(Some(7), NO_LC.(fallback := true), Cons(Single(0), Nil))

  const SkippedConfig := Config(map[], map[], PassOnly(7))

  /** `if (7) { 0; flags(fallback); }`: the filter passes, the body is not run. */
  lemma FallbackBodyIsSkipped(i: Item)
    ensures WellFormed(SkippedConfig, 0, NewConditional(SkippedArm), true)
    ensures Choose(SkippedConfig, 0, SkippedArm, i) == Choice(true, Tried([Deliver(Delivery(0, i))], true))
    ensures Observed(Meaning(SkippedConfig, 0, NewConditional(SkippedArm), i)) == Tried([Emit(i)], true)
  {
    ProbeTaken(SkippedConfig, 0, SkippedArm, i);
    NestMeansFirstMatch(SkippedConfig, 0, [SkippedArm], Nil, i);
    ObservedOne(Emit(i));
    assert [SkippedArm][1..] == [];
  }
}
