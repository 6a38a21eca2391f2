/**
 A fork read hop by hop (lib/logmpx.c): which hops are tried, in terms of all the
 others, and what is delivered.
 */
module ForkReading {
  import opened LogPipe
  import opened LogExpr
  import opened LogPathTheorem
  import opened MeaningLevels
  import opened IfChains

  /** A hop that ends the search. */
  predicate Wins(h: Hop) { h.final && Matches(h.actions) }

  /** No hop of this kind in front of the j-th ends the search. */
  ghost predicate Open(hops: seq<Hop>, fallback: bool, j: nat) {
    forall i :: 0 <= i < j && i < |hops| && hops[i].fallback == fallback ==> !Wins(hops[i])
  }

  ghost predicate SomeMatches(hops: seq<Hop>, fallback: bool) {
    exists i :: 0 <= i < |hops| && hops[i].fallback == fallback && Matches(hops[i].actions)
  }

  /** A hop is tried unless one of its kind ended the search before; a fallback hop only
      if moreover no other hop matched at all. */
  ghost predicate Reached(hops: seq<Hop>, j: nat)
    requires j < |hops|
  {
    Open(hops, hops[j].fallback, j) && (hops[j].fallback ==> !SomeMatches(hops, false))
  }

  /** The deliveries of the hops of one kind that are reached, from the j-th on. */
  ghost function Collected(hops: seq<Hop>, fallback: bool, j: nat): seq<Delivery>
    requires j <= |hops|
    decreases |hops| - j
  {
    if j == |hops| then []
    else (if hops[j].fallback == fallback && Reached(hops, j) then Deliveries(hops[j].actions) else [])
         + Collected(hops, fallback, j + 1)
  }

  // ---------------------------------------------------------------------
  // Deliveries
  // ---------------------------------------------------------------------

  lemma {:induction false} DeliveriesConcat(a: seq<Action>, b: seq<Action>)
    ensures Deliveries(a + b) == Deliveries(a) + Deliveries(b)
  {
    if a == [] {
      assert a + b == b;
    } else {
      DeliveriesConcat(a[1..], b);
      assert a + b == [a[0]] + (a[1..] + b);
      DeliveriesCons(a[0], a[1..] + b);
      assert a == [a[0]] + a[1..];
    }
  }

  lemma {:induction false} LowerDelivers(a: seq<Action>)
    ensures Deliveries(Lower(a)) == Deliveries(a)
  {
    if a == [] {
    } else {
      LowerDelivers(a[1..]);
      DeliveriesConcat(LowerOne(a[0]), Lower(a[1..]));
      LowerOneDelivers(a[0]);
    }
  }

  lemma LowerOneDelivers(x: Action)
    ensures Deliveries(LowerOne(x)) == if x.Deliver? then [x.delivery] else []
  {
    if LowerOne(x) != [] {
      DeliveriesCons(LowerOne(x)[0], []);
      assert LowerOne(x) == [LowerOne(x)[0]] + [];
    }
  }

  // ---------------------------------------------------------------------
  // One pass
  // ---------------------------------------------------------------------

  /** A pass matches exactly if some hop of its kind does. */
  lemma {:induction false} TryMatchesIff(hops: seq<Hop>, fallback: bool)
    ensures Try(hops, fallback).delivered <==> SomeMatches(hops, fallback)
  {
    if hops == [] {
    } else {
      TryMatchesIff(hops[1..], fallback);
      MatchesInRest(hops, fallback);
    }
  }

  lemma MatchesInRest(hops: seq<Hop>, fallback: bool)
    requires hops != []
    ensures SomeMatches(hops, fallback)
       <==> (hops[0].fallback == fallback && Matches(hops[0].actions)) || SomeMatches(hops[1..], fallback)
  {
    var rest := hops[1..];
    assert forall i :: 0 <= i < |rest| ==> rest[i] == hops[i + 1];
    if SomeMatches(hops, fallback) {
      var i :| 0 <= i < |hops| && hops[i].fallback == fallback && Matches(hops[i].actions);
      assert i > 0 ==> rest[i - 1] == hops[i];
    }
  }

  /** The deliveries of a pass over the hops from the j-th on. */
  lemma {:induction false} TryCollects(hops: seq<Hop>, fallback: bool, j: nat)
    requires j <= |hops| && Open(hops, fallback, j) && (fallback ==> !SomeMatches(hops, false))
    ensures Deliveries(Try(hops[j..], fallback).actions) == Collected(hops, fallback, j)
    decreases |hops| - j
  {
    if j == |hops| {
    } else {
      var rest := hops[j..];
      var h := hops[j];
      assert rest[0] == h && rest[1..] == hops[j + 1..];
      LowerDelivers(h.actions);
      if h.fallback != fallback {
        TryCollects(hops, fallback, j + 1);
        assert [] + Collected(hops, fallback, j + 1) == Collected(hops, fallback, j + 1);
      } else if Wins(h) {
        NothingBehind(hops, fallback, j + 1);
        assert Deliveries(h.actions) + [] == Deliveries(h.actions);
      } else {
        TryCollects(hops, fallback, j + 1);
        DeliveriesConcat(Lower(h.actions), Try(rest[1..], fallback).actions);
      }
    }
  }

  lemma {:induction false} NothingBehind(hops: seq<Hop>, fallback: bool, j: nat)
    requires j <= |hops| && !Open(hops, fallback, j)
    ensures Collected(hops, fallback, j) == []
    decreases |hops| - j
  {
    if j == |hops| {
    } else {
      assert !Open(hops, fallback, j + 1);
      NothingBehind(hops, fallback, j + 1);
    }
  }

  lemma {:induction false} NoneOfKind(hops: seq<Hop>, j: nat)
    requires j <= |hops| && (!HasFallback(hops) || SomeMatches(hops, false))
    ensures Collected(hops, true, j) == []
    decreases |hops| - j
  {
    if j == |hops| {
    } else {
      assert hops[j] in hops;
      NoneOfKind(hops, j + 1);
    }
  }

  /** What a fork delivers: first the hops that are no fallback and are reached, in
      order, then the fallback hops that are reached, in order. */
  lemma ForkDelivers(hops: seq<Hop>, propagate: bool)
    ensures Deliveries(Fork(hops, propagate)) == Collected(hops, false, 0) + Collected(hops, true, 0)
  {
    var regular := Try(hops, false);
    var extra := if HasFallback(hops) && !regular.delivered then Try(hops, true) else Tried([], false);
    var end := if propagate && !regular.delivered && !extra.delivered then [Mismatch(0)] else [];
    assert hops[0..] == hops;
    TryMatchesIff(hops, false);
    TryCollects(hops, false, 0);
    if HasFallback(hops) && !regular.delivered {
      TryCollects(hops, true, 0);
    } else {
      NoneOfKind(hops, 0);
    }
    DeliveriesConcat(regular.actions, extra.actions);
    DeliveriesConcat(regular.actions + extra.actions, end);
    assert Deliveries(end) == [] by {
      if end != [] {
        DeliveriesCons(Mismatch(0), []);
        assert end == [Mismatch(0)] + [];
      }
    }
    var all := Deliveries(regular.actions) + Deliveries(extra.actions);
    assert all + [] == all;
  }

  ghost predicate OwnHops(hops: seq<Hop>) { forall j :: 0 <= j < |hops| ==> OwnLevel(hops[j].actions, 0) }

  lemma {:induction false} TryMismatchesNot(hops: seq<Hop>, fallback: bool)
    requires OwnHops(hops)
    ensures Matches(Try(hops, fallback).actions)
  {
    if hops == [] {
    } else {
      LowerOwn(hops[0].actions);
      TryMismatchesNot(hops[1..], fallback);
    }
  }

  /** Branches judge only themselves, so the path around a fork matches unless the fork
      propagates and none of its hops matches. */
  lemma ForkMatchesIff(hops: seq<Hop>, propagate: bool)
    requires OwnHops(hops)
    ensures Matches(Fork(hops, propagate)) <==> !propagate || SomeMatches(hops, false) || SomeMatches(hops, true)
  {
    TryMatchesIff(hops, false);
    TryMatchesIff(hops, true);
    TryMismatchesNot(hops, false);
    TryMismatchesNot(hops, true);
    if SomeMatches(hops, true) {
      var i :| 0 <= i < |hops| && hops[i].fallback && Matches(hops[i].actions);
      assert hops[i] in hops;
    }
    var regular := Try(hops, false);
    var extra := if HasFallback(hops) && !regular.delivered then Try(hops, true) else Tried([], false);
    var all := regular.actions + extra.actions;
    assert Matches(all);
    if propagate && !regular.delivered && !extra.delivered {
      assert (all + [Mismatch(0)])[|all|] == Mismatch(0);
    } else {
      assert all + [] == all;
    }
  }
}
