/** eval/label.py: what Cohen's kappa is, defined over the labelled pairs themselves. */
module Disagreement {
  import opened Wrappers
  import opened RealAlgebra
  import opened Weights

  /** With two categories in use, expected disagreement is strictly positive, whatever the scale:
      the program's last test for zero can never succeed. */
  lemma ExpectedDisagreementIsPositive(w: Weight, pairs: seq<Pair>)
    requires Proper(w) && Varied(pairs)
    ensures Expected(w, pairs, pairs) > 0.0
  {
    ExpectedPositive(w, pairs, pairs);
    var x, y :| x in Used(pairs) && y in Used(pairs) && x != y;
    if forall i, j :: 0 <= i < |pairs| && 0 <= j < |pairs| ==> pairs[i].0 == pairs[j].1 {
      assert forall i :: 0 <= i < |pairs| ==> pairs[i].0 == pairs[0].0 && pairs[i].1 == pairs[0].0;
    }
  }

  // ----- the statistic -----

  function Min(a: int, b: int): int { if a < b then a else b }

  function Max(a: int, b: int): int { if a < b then b else a }

  function Lowest(pairs: seq<Pair>): int
    requires pairs != []
  {
    var p := pairs[|pairs| - 1];
    var here := Min(p.0, p.1);
    if |pairs| == 1 then here else Min(Lowest(pairs[..|pairs| - 1]), here)
  }

  function Highest(pairs: seq<Pair>): int
    requires pairs != []
  {
    var p := pairs[|pairs| - 1];
    var here := Max(p.0, p.1);
    if |pairs| == 1 then here else Max(Highest(pairs[..|pairs| - 1]), here)
  }

  lemma {:induction false} Extremes(pairs: seq<Pair>)
    requires pairs != []
    ensures Lowest(pairs) in Used(pairs) && Highest(pairs) in Used(pairs)
    ensures forall c :: c in Used(pairs) ==> Lowest(pairs) <= c <= Highest(pairs)
  {
    var n := |pairs| - 1;
    if n > 0 {
      Extremes(pairs[..n]);
      UsedGrows(pairs);
    }
  }

  lemma UsedGrows(pairs: seq<Pair>)
    requires pairs != []
    ensures Used(pairs) == Used(pairs[..|pairs| - 1]) + {pairs[|pairs| - 1].0, pairs[|pairs| - 1].1}
  {
    var n := |pairs| - 1;
    assert forall i :: 0 <= i < n ==> pairs[..n][i] == pairs[i];
    forall c | c in Used(pairs)
      ensures c in Used(pairs[..n]) + {pairs[n].0, pairs[n].1}
    {
      var i :| 0 <= i < |pairs| && (pairs[i].0 == c || pairs[i].1 == c);
      if i < n {
        assert pairs[..n][i] == pairs[i];
      }
    }
  }

  function WeightOf(pairs: seq<Pair>, weighted: bool): Weight
    requires pairs != [] && Lowest(pairs) < Highest(pairs)
  {
    if weighted then Quadratic(Lowest(pairs), Highest(pairs)) else Plain()
  }

  function FromSums(po: real, pe: real): Option<real> {
    if pe == 0.0 then None else Some(1.0 - po / pe)
  }

  /** Observed over expected disagreement, each as a share of the comparisons made. */
  function FromTotals(observed: real, expected: real, n: real, n2: real): Option<real>
    requires n != 0.0 && n2 != 0.0
  {
    FromSums(observed / n, expected / n2)
  }

  lemma Counted(pairs: seq<Pair>)
    requires pairs != []
    ensures |pairs| as real > 0.0 && |pairs| as real * |pairs| as real > 0.0
  {
  }

  /** Kappa from the pairs themselves. */
  ghost function Kappa(pairs: seq<Pair>, weighted: bool): Option<real> {
    if |pairs| < 2 || !Varied(pairs) then None
    else
      WeightIsProper(pairs, weighted);
      Counted(pairs);
      var w := WeightOf(pairs, weighted);
      var n := |pairs| as real;
      FromTotals(Observed(w, pairs), Expected(w, pairs, pairs), n, n * n)
  }

  lemma WeightIsProper(pairs: seq<Pair>, weighted: bool)
    requires pairs != [] && Varied(pairs)
    ensures Lowest(pairs) < Highest(pairs) && Proper(WeightOf(pairs, weighted))
    ensures Expected(WeightOf(pairs, weighted), pairs, pairs) > 0.0
    ensures Expected(WeightOf(pairs, weighted), pairs, pairs) / (|pairs| as real * |pairs| as real) > 0.0
  {
    Extremes(pairs);
    WeightsAreProper(Lowest(pairs), Highest(pairs));
    ExpectedDisagreementIsPositive(WeightOf(pairs, weighted), pairs);
    PositiveQuotient(Expected(WeightOf(pairs, weighted), pairs, pairs), |pairs| as real);
  }
}
