/** Ordered walks over finite sets of numbers: how a `BTreeMap` is iterated. */
module Orders {

  predicate Increasing(xs: seq<nat>) {
    forall i, j :: 0 <= i < j < |xs| ==> xs[i] < xs[j]
  }

  lemma LeastOf(s: set<nat>) returns (x: nat)
    requires s != {}
    ensures x in s && forall y :: y in s ==> x <= y
  {
    x :| x in s;
    if s != {x} {
      var other := LeastOf(s - {x});
      forall y | y in s ensures (if other < x then other else x) <= y { assert y == x || y in s - {x}; }
      if other < x { x := other; }
    }
  }

  lemma LeastExists(s: set<nat>)
    requires s != {}
    ensures exists x :: x in s && forall y :: y in s ==> x <= y
  {
    var x := LeastOf(s);
  }

  function Least(s: set<nat>): (x: nat)
    requires s != {}
    ensures x in s && forall y :: y in s ==> x <= y
  {
    LeastExists(s);
    var x :| x in s && forall y :: y in s ==> x <= y;
    x
  }

  /** The members of `s`, smallest first. */
  function Ascending(s: set<nat>): (xs: seq<nat>)
    ensures forall x :: x in xs <==> x in s
  {
    if s == {} then [] else
      var x := Least(s);
      [x] + Ascending(s - {x})
  }

  lemma {:induction false} AscendingIncreases(s: set<nat>)
    ensures Increasing(Ascending(s))
  {
    if s != {} {
      var x := Least(s);
      AscendingIncreases(s - {x});
      IncreasesFrom(x, Ascending(s - {x}));
    }
  }

  lemma IncreasesFrom(x: nat, xs: seq<nat>)
    requires Increasing(xs) && forall y :: y in xs ==> x < y
    ensures Increasing([x] + xs)
  {
    var all := [x] + xs;
    forall i, j | 0 <= i < j < |all| ensures all[i] < all[j] {
      assert all[j] == xs[j - 1] && xs[j - 1] in xs;
    }
  }
}
