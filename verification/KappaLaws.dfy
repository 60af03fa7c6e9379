/** What Cohen's kappa is for: when it is defined, where it lies, and when it is 1 or 0. */
module KappaLaws {
  import opened Wrappers
  import opened RealAlgebra
  import opened Weights
  import opened Disagreement

  /** Every score, by either rater, is `c`. */
  ghost predicate OneCategory(pairs: seq<Pair>, c: int) {
    forall i :: 0 <= i < |pairs| ==> pairs[i] == (c, c)
  }

  lemma VariedIffNotOneCategory(pairs: seq<Pair>)
    requires pairs != []
    ensures Varied(pairs) <==> !OneCategory(pairs, pairs[0].0)
  {
    var c := pairs[0].0;
    assert c in Used(pairs);
    if OneCategory(pairs, c) {
      assert forall x :: x in Used(pairs) ==> x == c;
    } else {
      var i :| 0 <= i < |pairs| && pairs[i] != (c, c);
      assert pairs[i].0 in Used(pairs) && pairs[i].1 in Used(pairs);
      assert pairs[i].0 != c || pairs[i].1 != c;
    }
  }

  lemma KappaOfTotals(d: real, e: real, n: real, n2: real, k: real)
    requires n > 0.0 && n2 == n * n && n2 > 0.0 && e > 0.0 && FromTotals(d, e, n, n2) == Some(k)
    ensures k * e == e - d * n
  {
    var po, pe := d / n, e / n2;
    assert po * n == d && pe * n2 == e;
    var q := po / pe;
    assert q * pe == po;
    assert k == 1.0 - q;
    CrossMultiply(q, pe, po, n, n2, d, e);
    Distribute(e, 1.0, -q);
  }

  /** Kappa is the solution of `k * expected == expected - n * observed`. */
  lemma KappaEquation(pairs: seq<Pair>, weighted: bool) returns (k: real)
    requires |pairs| >= 2 && Varied(pairs)
    ensures Lowest(pairs) < Highest(pairs)
    ensures var w := WeightOf(pairs, weighted);
            && Proper(w) && Expected(w, pairs, pairs) > 0.0
            && Kappa(pairs, weighted) == Some(k)
            && k * Expected(w, pairs, pairs) == Expected(w, pairs, pairs) - Observed(w, pairs) * |pairs| as real
  {
    hide *;
    WeightIsProper(pairs, weighted);
    Counted(pairs);
    var w := WeightOf(pairs, weighted);
    var n := |pairs| as real;
    var n2 := n * n;
    KappaIsTotals(pairs, weighted, w, n, n2);
    TotalsAreDefined(Observed(w, pairs), Expected(w, pairs, pairs), n, n2);
    k := Kappa(pairs, weighted).value;
    KappaOfTotals(Observed(w, pairs), Expected(w, pairs, pairs), n, n2, k);
  }

  lemma KappaIsTotals(pairs: seq<Pair>, weighted: bool, w: Weight, n: real, n2: real)
    requires |pairs| >= 2 && Varied(pairs) && n == |pairs| as real && n2 == n * n && n != 0.0 && n2 != 0.0
    requires Lowest(pairs) < Highest(pairs) && w == WeightOf(pairs, weighted)
    ensures Kappa(pairs, weighted) == FromTotals(Observed(w, pairs), Expected(w, pairs, pairs), n, n2)
  {
    hide Lowest, Highest, Varied, Expected, Observed, WeightOf, FromTotals;
  }

  lemma TotalsAreDefined(d: real, e: real, n: real, n2: real)
    requires n > 0.0 && n2 > 0.0 && e > 0.0
    ensures FromTotals(d, e, n, n2).Some?
  {
    var pe := e / n2;
    assert pe * n2 == e;
  }

  /** Undefined exactly for fewer than two pairs, or when both raters only ever use the same one
      category. The last branch of the program is never taken. */
  lemma KappaIsUndefinedIff(pairs: seq<Pair>, weighted: bool)
    ensures Kappa(pairs, weighted).None? <==> |pairs| < 2 || OneCategory(pairs, pairs[0].0)
  {
    if |pairs| >= 2 {
      VariedIffNotOneCategory(pairs);
      if Varied(pairs) {
        var k := KappaEquation(pairs, weighted);
      }
    }
  }

  ghost predicate FullAgreement(pairs: seq<Pair>) {
    forall i :: 0 <= i < |pairs| ==> pairs[i].0 == pairs[i].1
  }

  /** Kappa is 1 exactly on full agreement, and never more. */
  lemma KappaIsOneIffAgreed(pairs: seq<Pair>, weighted: bool)
    requires |pairs| >= 2 && Varied(pairs)
    ensures Kappa(pairs, weighted).Some? && Kappa(pairs, weighted).value <= 1.0
    ensures Kappa(pairs, weighted) == Some(1.0) <==> FullAgreement(pairs)
  {
    hide Varied, Expected, Observed, WeightOf, Used, Lowest, Highest, Kappa, Proper;
    var k := KappaEquation(pairs, weighted);
    var w := WeightOf(pairs, weighted);
    ObservedFacts(w, pairs);
    FactorOfOne(k, Expected(w, pairs, pairs), Observed(w, pairs), |pairs| as real);
  }

  ghost predicate ConstantJudge(pairs: seq<Pair>) {
    forall i, j :: 0 <= i < |pairs| && 0 <= j < |pairs| ==> pairs[i].0 == pairs[j].0
  }

  ghost predicate ConstantHuman(pairs: seq<Pair>) {
    forall i, j :: 0 <= i < |pairs| && 0 <= j < |pairs| ==> pairs[i].1 == pairs[j].1
  }

  /** A rater who always says the same scores 0, not "undefined" as the program's own comment has
      it, unless the other always says that very same. */
  lemma ConstantRaterScoresZero(pairs: seq<Pair>, weighted: bool)
    requires |pairs| >= 2 && Varied(pairs) && (ConstantJudge(pairs) || ConstantHuman(pairs))
    ensures Kappa(pairs, weighted) == Some(0.0)
  {
    hide Varied, Expected, Observed, WeightOf, Used, Lowest, Highest, Kappa;
    var k := KappaEquation(pairs, weighted);
    var w := WeightOf(pairs, weighted);
    if ConstantJudge(pairs) {
      JudgeConstant(w, pairs, pairs, pairs[0].0);
    } else {
      HumanConstant(w, pairs, pairs, pairs[0].1);
    }
    assert Expected(w, pairs, pairs) == |pairs| as real * Observed(w, pairs);
    ZeroFactor(k, Expected(w, pairs, pairs));
  }

  // ----- the classical form -----

  function Agreed(pairs: seq<Pair>): nat {
    if pairs == [] then 0
    else Agreed(pairs[..|pairs| - 1]) + if pairs[|pairs| - 1].0 == pairs[|pairs| - 1].1 then 1 else 0
  }

  /** How many human scores are `a`. */
  function SameAs(a: int, all: seq<Pair>): nat {
    if all == [] then 0 else SameAs(a, all[..|all| - 1]) + if all[|all| - 1].1 == a then 1 else 0
  }

  /** How many times a judge score meets the same human score, each with every one. */
  function Chance(pairs: seq<Pair>, all: seq<Pair>): nat {
    if pairs == [] then 0 else Chance(pairs[..|pairs| - 1], all) + SameAs(pairs[|pairs| - 1].0, all)
  }

  lemma {:induction false} PlainObserved(pairs: seq<Pair>)
    ensures Observed(Plain(), pairs) == |pairs| as real - Agreed(pairs) as real
  {
    if pairs != [] {
      PlainObserved(pairs[..|pairs| - 1]);
    }
  }

  lemma {:induction false} PlainAgainst(a: int, all: seq<Pair>)
    ensures Against(Plain(), a, all) == |all| as real - SameAs(a, all) as real
  {
    if all != [] {
      PlainAgainst(a, all[..|all| - 1]);
    }
  }

  lemma {:induction false} PlainExpected(pairs: seq<Pair>, all: seq<Pair>)
    ensures Expected(Plain(), pairs, all) == |pairs| as real * |all| as real - Chance(pairs, all) as real
  {
    if pairs != [] {
      var n := |pairs| - 1;
      hide Plain, SameAs;
      PlainExpected(pairs[..n], all);
      PlainAgainst(pairs[n].0, all);
      assert (n + 1) as real * |all| as real == n as real * |all| as real + |all| as real;
    }
  }

  /** Plain kappa in its usual form: with `po` the share of pairs that agree and `pe` the share that
      would by chance, `k * (1 - pe) == po - pe`, here times the square of the number of pairs. */
  lemma PlainKappaIsCohens(pairs: seq<Pair>)
    requires |pairs| >= 2 && Varied(pairs)
    ensures Kappa(pairs, false).Some?
    ensures var k, n := Kappa(pairs, false).value, |pairs| as real;
            k * (n * n - Chance(pairs, pairs) as real) == n * Agreed(pairs) as real - Chance(pairs, pairs) as real
  {
    hide Varied, Expected, Observed, Used, Lowest, Highest, Kappa, Proper, Agreed, Chance, Plain;
    var k := KappaEquation(pairs, false);
    PlainObserved(pairs);
    PlainExpected(pairs, pairs);
    CohensEquation(k, |pairs| as real, Agreed(pairs) as real, Chance(pairs, pairs) as real);
  }

  lemma CohensEquation(k: real, n: real, agreed: real, chance: real)
    requires var e := n * n - chance; k * e == e - (n - agreed) * n
    ensures k * (n * n - chance) == n * agreed - chance
  {
    assert (n - agreed) * n == n * n - n * agreed;
  }
}
