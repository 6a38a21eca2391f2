/**
 Laws of action lists: `Bind` is associative, levels shift consistently, and
 continuing a fork is the same as continuing each of its hops.
 */
module ActionLaws {
  import opened LogExpr

  lemma {:induction false} BindConcat(a: seq<Action>, b: seq<Action>, k: Meaningful)
    ensures Bind(a + b, k) == Bind(a, k) + Bind(b, k)
  {
    if a == [] {
      assert a + b == b;
    } else {
      assert (a + b)[1..] == a[1..] + b;
      BindConcat(a[1..], b, k);
    }
  }

  lemma {:induction false} BindAssoc(a: seq<Action>, f: Meaningful, k: Meaningful, fk: Meaningful)
    requires forall i :: fk(i) == Bind(f(i), k)
    ensures Bind(Bind(a, f), k) == Bind(a, fk)
  {
    if a == [] {
    } else {
      var x := if a[0].Emit? then f(a[0].item) else [a[0]];
      BindConcat(x, Bind(a[1..], f), k);
      BindAssoc(a[1..], f, k, fk);
    }
  }

  lemma {:induction false} BindCongruent(a: seq<Action>, f: Meaningful, g: Meaningful)
    requires forall i :: f(i) == g(i)
    ensures Bind(a, f) == Bind(a, g)
  {
    if a == [] {
    } else {
      BindCongruent(a[1..], f, g);
    }
  }

  lemma {:induction false} LowerConcat(a: seq<Action>, b: seq<Action>)
    ensures Lower(a + b) == Lower(a) + Lower(b)
  {
    if a == [] {
      assert a + b == b;
    } else {
      assert (a + b)[1..] == a[1..] + b;
      LowerConcat(a[1..], b);
    }
  }

  lemma {:induction false} LowerLift(a: seq<Action>)
    ensures Lower(Lift(a)) == a
    ensures Matches(Lift(a))
  {
    if a == [] {
    } else {
      LowerLift(a[1..]);
      assert Lift(a)[1..] == Lift(a[1..]);
    }
  }

  /** Seen from outside, continuing a branch past its junction is continuing the
      branch; what follows the junction cannot unmatch the branch. */
  lemma {:induction false} LowerBind(a: seq<Action>, k: Meaningful, lifted: Meaningful)
    requires forall i :: lifted(i) == Lift(k(i))
    ensures Lower(Bind(a, lifted)) == Bind(Lower(a), k)
    ensures Matches(Bind(a, lifted)) == Matches(a)
  {
    if a == [] {
    } else {
      var x := if a[0].Emit? then lifted(a[0].item) else [a[0]];
      LowerConcat(x, Bind(a[1..], lifted));
      BindConcat(LowerOne(a[0]), Lower(a[1..]), k);
      LowerBind(a[1..], k, lifted);
      if a[0].Emit? {
        LowerLift(k(a[0].item));
        assert LowerOne(a[0]) == [a[0]];
        assert Bind([a[0]], k) == k(a[0].item);
      }
    }
  }

  lemma {:induction false} PastMidpointConcat(a: seq<Action>, b: seq<Action>)
    ensures PastMidpoint(a + b) == PastMidpoint(a) + PastMidpoint(b)
  {
    if a == [] {
      assert a + b == b;
    } else {
      assert (a + b)[1..] == a[1..] + b;
      PastMidpointConcat(a[1..], b);
    }
  }

  lemma {:induction false} PastMidpointLift(a: seq<Action>)
    ensures PastMidpoint(Lift(a)) == Lift(a)
  {
    if a == [] {
    } else {
      PastMidpointLift(a[1..]);
      assert Lift(a)[1..] == Lift(a[1..]);
    }
  }

  lemma {:induction false} PastMidpointBind(a: seq<Action>, k: Meaningful, lifted: Meaningful)
    requires forall i :: lifted(i) == Lift(k(i))
    ensures PastMidpoint(Bind(a, lifted)) == Bind(PastMidpoint(a), lifted)
  {
    if a == [] {
    } else {
      var x := if a[0].Emit? then lifted(a[0].item) else [a[0]];
      PastMidpointConcat(x, Bind(a[1..], lifted));
      PastMidpointBind(a[1..], k, lifted);
      BindConcat([PastMidpointOne(a[0])], PastMidpoint(a[1..]), lifted);
      if a[0].Emit? {
        PastMidpointLift(k(a[0].item));
        assert Bind([a[0]], lifted) == lifted(a[0].item);
      }
    }
  }

  /** `hops` continued by `lifted`. */
  function BindHops(hops: seq<Hop>, lifted: Meaningful): (r: seq<Hop>)
    ensures |r| == |hops|
    ensures forall j :: 0 <= j < |hops| ==> r[j] == hops[j].(actions := Bind(hops[j].actions, lifted))
  {
    if hops == [] then []
    else [hops[0].(actions := Bind(hops[0].actions, lifted))] + BindHops(hops[1..], lifted)
  }

  lemma {:induction false} TryBind(hops: seq<Hop>, fallback: bool, k: Meaningful, lifted: Meaningful)
    requires forall i :: lifted(i) == Lift(k(i))
    ensures Try(BindHops(hops, lifted), fallback)
            == Tried(Bind(Try(hops, fallback).actions, k), Try(hops, fallback).delivered)
  {
    if hops == [] {
    } else {
      var bound := BindHops(hops, lifted);
      assert bound[1..] == BindHops(hops[1..], lifted);
      TryBind(hops[1..], fallback, k, lifted);
      LowerBind(hops[0].actions, k, lifted);
      BindConcat(Lower(hops[0].actions), Try(hops[1..], fallback).actions, k);
    }
  }

  lemma {:induction false} HasFallbackBind(hops: seq<Hop>, lifted: Meaningful)
    ensures HasFallback(BindHops(hops, lifted)) == HasFallback(hops)
  {
    var bound := BindHops(hops, lifted);
    if HasFallback(hops) {
      var j :| 0 <= j < |hops| && hops[j].fallback;
      assert bound[j] in bound;
    }
    if HasFallback(bound) {
      var j :| 0 <= j < |bound| && bound[j].fallback;
      assert hops[j] in hops;
    }
  }

  /** Continuing a fork is continuing each hop with the lifted continuation. */
  lemma ForkBind(hops: seq<Hop>, propagate: bool, k: Meaningful, lifted: Meaningful)
    requires forall i :: lifted(i) == Lift(k(i))
    ensures Bind(Fork(hops, propagate), k) == Fork(BindHops(hops, lifted), propagate)
  {
    TryBind(hops, false, k, lifted);
    TryBind(hops, true, k, lifted);
    HasFallbackBind(hops, lifted);
    var regular := Try(hops, false);
    var extra := if HasFallback(hops) && !regular.delivered then Try(hops, true) else Tried([], false);
    var tail := if propagate && !regular.delivered && !extra.delivered then [Mismatch(0)] else [];
    BindConcat(regular.actions + extra.actions, tail, k);
    BindConcat(regular.actions, extra.actions, k);
    assert Bind(tail, k) == tail;
  }
}
