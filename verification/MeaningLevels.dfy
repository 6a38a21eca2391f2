/**
 Which enclosing path a mismatch belongs to.  A log expression only ever judges
 the path it stands on, and the body of an `if` with a filter only the path
 around the `if`.
 */
module MeaningLevels {
  import opened LogPipe
  import opened LogExpr
  import opened ActionLaws
  import opened WiringRuns

  predicate OwnLevel(a: seq<Action>, top: nat) {
    forall x :: x in a && x.Mismatch? ==> x.level <= top
  }

  lemma {:induction false} BindLevels(a: seq<Action>, k: Meaningful, top: nat)
    requires OwnLevel(a, top) && forall i :: OwnLevel(k(i), top)
    ensures OwnLevel(Bind(a, k), top)
  {
    if a == [] {
    } else {
      assert a[0] in a;
      assert forall x :: x in a[1..] ==> x in a;
      BindLevels(a[1..], k, top);
    }
  }

  lemma {:induction false} LowerLevels(a: seq<Action>)
    requires OwnLevel(a, 1)
    ensures OwnLevel(Lower(a), 0)
  {
    if a == [] {
    } else {
      assert a[0] in a;
      assert forall x :: x in a[1..] ==> x in a;
      LowerLevels(a[1..]);
    }
  }

  lemma {:induction false} PastMidpointLevels(a: seq<Action>)
    requires OwnLevel(a, 0)
    ensures OwnLevel(PastMidpoint(a), 1)
  {
    if a == [] {
    } else {
      assert a[0] in a;
      assert forall x :: x in a[1..] ==> x in a;
      PastMidpointLevels(a[1..]);
    }
  }

  lemma {:induction false} TryLevels(hops: seq<Hop>, fallback: bool)
    requires forall h :: h in hops ==> OwnLevel(h.actions, 1)
    ensures OwnLevel(Try(hops, fallback).actions, 0)
  {
    if hops == [] {
    } else {
      assert hops[0] in hops;
      LowerLevels(hops[0].actions);
      assert forall h :: h in hops[1..] ==> h in hops;
      TryLevels(hops[1..], fallback);
    }
  }

  /** An expression only ever judges the path it stands on. */
  lemma {:induction false} JudgesOwnPath(cfg: Config, limit: nat, node: Node, i: Item)
    ensures OwnLevel(Meaning(cfg, limit, node, i), 0)
    decreases limit, node, 1
  {
    match node
    case Single(_) =>
    case Reference(key) =>
      if cfg.Resolves(key, limit) {
        var a := Meaning(cfg, cfg.Rank(key), cfg.objects[key], i);
        JudgesOwnPath(cfg, cfg.Rank(key), cfg.objects[key], i);
        BindLevels(a, EndOfPath, 0);
        LowerLevels(Bind(a, EndOfPath));
      }
    case Sequence(_, flags, children) => ListLevels(cfg, limit, children, OrFlow(i, flags.flowControl));
    case Junction(_, branches) =>
      HopLevels(cfg, limit, branches, i);
      TryLevels(HopsOf(cfg, limit, branches, i), false);
      TryLevels(HopsOf(cfg, limit, branches, i), true);
    case Conditional(thn, els, filter) =>
      ConditionalIsFork(cfg, limit, node, i);
      YesLevels(cfg, limit, node, i);
      JudgesOwnPath(cfg, limit, els, i);
      var hops := [HopFor(thn, YesActions(cfg, limit, node, i)), HopFor(els, Meaning(cfg, limit, els, i))];
      TryLevels(hops, false);
      TryLevels(hops, true);
  }

  lemma {:induction false} YesLevels(cfg: Config, limit: nat, node: Node, i: Item)
    requires node.Conditional?
    ensures OwnLevel(YesActions(cfg, limit, node, i), 1)
    decreases limit, node, 0
  {
    if node.filter.None? {
      JudgesOwnPath(cfg, limit, node.thn, i);
    } else {
      JudgesOwnPath(cfg, limit, node.filter.value, i);
      var k := (j: Item) => PastMidpoint(Meaning(cfg, limit, node.thn, j));
      forall j ensures OwnLevel(k(j), 1) {
        JudgesOwnPath(cfg, limit, node.thn, j);
        PastMidpointLevels(Meaning(cfg, limit, node.thn, j));
      }
      BindLevels(Meaning(cfg, limit, node.filter.value, i), k, 1);
      BindCongruent(Meaning(cfg, limit, node.filter.value, i), k,
                    j => PastMidpoint(Meaning(cfg, limit, node.thn, j)));
    }
  }

  lemma {:induction false} ListLevels(cfg: Config, limit: nat, nodes: Nodes, i: Item)
    ensures OwnLevel(MeaningOfList(cfg, limit, nodes, i), 0)
    decreases limit, nodes, 0
  {
    if nodes.Nil? {
    } else {
      JudgesOwnPath(cfg, limit, nodes.node, i);
      var k := (j: Item) => MeaningOfList(cfg, limit, nodes.next, j);
      forall j ensures OwnLevel(k(j), 0) {
        ListLevels(cfg, limit, nodes.next, j);
      }
      BindLevels(Meaning(cfg, limit, nodes.node, i), k, 0);
      BindCongruent(Meaning(cfg, limit, nodes.node, i), k, j => MeaningOfList(cfg, limit, nodes.next, j));
    }
  }

  lemma {:induction false} HopLevels(cfg: Config, limit: nat, branches: Nodes, i: Item)
    ensures forall h :: h in HopsOf(cfg, limit, branches, i) ==> OwnLevel(h.actions, 1)
    decreases limit, branches, 0
  {
    if branches.Nil? {
    } else {
      JudgesOwnPath(cfg, limit, branches.node, i);
      HopLevels(cfg, limit, branches.next, i);
    }
  }
}
