/** How much labelled pairs disagree under a weight (eval/label.py).

    Observed disagreement sets each score against its own counterpart, expected disagreement against
    every one. What the two weights in use have in common, and what one constant rater makes of
    either sum. */
module Weights {
  import opened RealAlgebra

  type Pair = (int, int)

  /** How much two categories disagree. */
  type Weight = (int, int) -> real

  function Plain(): Weight { (a: int, b: int) => if a == b then 0.0 else 1.0 }

  /** The squared distance, as a share of the range of the categories. */
  function Quadratic(lo: int, hi: int): Weight
    requires lo < hi
  {
    (a: int, b: int) => Square((a - b) as real / (hi - lo) as real)
  }

  /** Nothing negative, and nothing exactly for the same category. */
  ghost predicate Proper(w: Weight) {
    forall a, b :: w(a, b) >= 0.0 && (w(a, b) == 0.0 <==> a == b)
  }

  lemma WeightsAreProper(lo: int, hi: int)
    requires lo < hi
    ensures Proper(Plain()) && Proper(Quadratic(lo, hi))
  {
    forall a, b
      ensures var x := Quadratic(lo, hi)(a, b); x >= 0.0 && (x == 0.0 <==> a == b)
    {
      QuadraticFacts((a - b) as real, (hi - lo) as real);
    }
  }

  lemma ProperAt(w: Weight, a: int, b: int)
    requires Proper(w)
    ensures w(a, b) >= 0.0 && (w(a, b) == 0.0 <==> a == b)
  {
    assert w(a, b) >= 0.0 && (w(a, b) == 0.0 <==> a == b);
  }

  lemma QuadraticFacts(d: real, range: real)
    requires range > 0.0
    ensures Square(d / range) >= 0.0 && (Square(d / range) == 0.0 <==> d == 0.0)
  {
    var r := d / range;
    assert r * range == d;
  }

  // ----- the reference definition -----

  function Observed(w: Weight, pairs: seq<Pair>): real
  {
    if pairs == [] then 0.0
    else Observed(w, pairs[..|pairs| - 1]) + w(pairs[|pairs| - 1].0, pairs[|pairs| - 1].1)
  }

  /** The disagreement of judge score `a` with every human score. */
  function Against(w: Weight, a: int, pairs: seq<Pair>): real
  {
    if pairs == [] then 0.0
    else Against(w, a, pairs[..|pairs| - 1]) + w(a, pairs[|pairs| - 1].1)
  }

  /** The disagreement of every judge score in `pairs` with every human score in `all`. */
  function Expected(w: Weight, pairs: seq<Pair>, all: seq<Pair>): real
  {
    if pairs == [] then 0.0
    else Expected(w, pairs[..|pairs| - 1], all) + Against(w, pairs[|pairs| - 1].0, all)
  }

  function Used(pairs: seq<Pair>): set<int> {
    (set i | 0 <= i < |pairs| :: pairs[i].0) + (set i | 0 <= i < |pairs| :: pairs[i].1)
  }

  /** Some two categories are used. */
  ghost predicate Varied(pairs: seq<Pair>) {
    exists x, y :: x in Used(pairs) && y in Used(pairs) && x != y
  }

  lemma {:induction false} ObservedFacts(w: Weight, pairs: seq<Pair>)
    requires Proper(w)
    ensures Observed(w, pairs) >= 0.0
    ensures Observed(w, pairs) == 0.0 <==> forall i :: 0 <= i < |pairs| ==> pairs[i].0 == pairs[i].1
  {
    if pairs != [] {
      var n := |pairs| - 1;
      ObservedFacts(w, pairs[..n]);
      ProperAt(w, pairs[n].0, pairs[n].1);
      assert forall i :: 0 <= i < n ==> pairs[..n][i] == pairs[i];
    }
  }

  lemma {:induction false} AgainstFacts(w: Weight, a: int, pairs: seq<Pair>)
    requires Proper(w)
    ensures Against(w, a, pairs) >= 0.0
    ensures forall i :: 0 <= i < |pairs| && pairs[i].1 != a ==> Against(w, a, pairs) > 0.0
  {
    if pairs != [] {
      var n := |pairs| - 1;
      AgainstFacts(w, a, pairs[..n]);
      ProperAt(w, a, pairs[n].1);
      assert forall i :: 0 <= i < n ==> pairs[..n][i] == pairs[i];
    }
  }

  lemma {:induction false} ExpectedPositive(w: Weight, pairs: seq<Pair>, all: seq<Pair>)
    requires Proper(w)
    ensures Expected(w, pairs, all) >= 0.0
    ensures forall i, j :: 0 <= i < |pairs| && 0 <= j < |all| && pairs[i].0 != all[j].1 ==>
            Expected(w, pairs, all) > 0.0
  {
    if pairs != [] {
      var n := |pairs| - 1;
      ExpectedPositive(w, pairs[..n], all);
      AgainstFacts(w, pairs[n].0, all);
      assert forall i :: 0 <= i < n ==> pairs[..n][i] == pairs[i];
    }
  }

  // ----- constant raters -----

  lemma {:induction false} JudgeConstant(w: Weight, pairs: seq<Pair>, all: seq<Pair>, a: int)
    requires forall i :: 0 <= i < |pairs| ==> pairs[i].0 == a
    ensures Observed(w, pairs) == Against(w, a, pairs)
    ensures Expected(w, pairs, all) == |pairs| as real * Against(w, a, all)
  {
    if pairs != [] {
      JudgeConstant(w, pairs[..|pairs| - 1], all, a);
    }
  }

  lemma {:induction false} AgainstConstant(w: Weight, a: int, all: seq<Pair>, b: int)
    requires forall i :: 0 <= i < |all| ==> all[i].1 == b
    ensures Against(w, a, all) == |all| as real * w(a, b)
  {
    if all != [] {
      AgainstConstant(w, a, all[..|all| - 1], b);
    }
  }

  lemma {:induction false} HumanConstant(w: Weight, pairs: seq<Pair>, all: seq<Pair>, b: int)
    requires (forall i :: 0 <= i < |pairs| ==> pairs[i].1 == b) && (forall i :: 0 <= i < |all| ==> all[i].1 == b)
    ensures Expected(w, pairs, all) == |all| as real * Observed(w, pairs)
  {
    if pairs != [] {
      var n := |pairs| - 1;
      HumanConstant(w, pairs[..n], all, b);
      AgainstConstant(w, pairs[n].0, all, b);
      Distribute(|all| as real, Observed(w, pairs[..n]), w(pairs[n].0, b));
    }
  }
}
