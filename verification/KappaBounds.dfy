/** Both kappas lie between -1 and 1, and quadratic kappa has a closed form in variances and the covariance. */
module KappaBounds {
  import opened Wrappers
  import opened Aggregates
  import opened RealAlgebra
  import opened Weights
  import opened Disagreement
  import opened Distances
  import opened CategorySums
  import opened Agreement
  import opened KappaLaws
  import M = Moments

  // Both weights are squared distances along coordinates: the quadratic one along the score itself,
  // the plain one along one indicator per category.

  // ----- the plain weight -----

  function Indicator(c: int): Coordinate { (a: int) => if a == c then 1.0 else 0.0 }

  function Spread(cats: seq<int>): Weight { (a: int, b: int) => SpreadAt(cats, a, b) }

  function SpreadAt(cats: seq<int>, a: int, b: int): real {
    if cats == [] then 0.0
    else SpreadAt(cats[..|cats| - 1], a, b) + Along(Indicator(cats[|cats| - 1]))(a, b)
  }

  lemma {:induction false} SpreadCounts(cats: seq<int>, a: int, b: int)
    requires Increasing(cats)
    ensures SpreadAt(cats, a, b) == if a == b then 0.0
            else (if a in cats then 1.0 else 0.0) + (if b in cats then 1.0 else 0.0)
  {
    if cats != [] {
      var m := |cats| - 1;
      SpreadCounts(cats[..m], a, b);
      assert cats == cats[..m] + [cats[m]];
      assert Square(1.0) == 1.0 && Square(-1.0) == 1.0 && Square(0.0) == 0.0;
    }
  }

  lemma {:induction false} BoundedSpread(cats: seq<int>, pairs: seq<Pair>)
    requires pairs != []
    ensures |pairs| as real * Observed(Spread(cats), pairs) <= 2.0 * Expected(Spread(cats), pairs, pairs)
  {
    hide Observed, Expected, Along;
    if cats == [] {
      NoSpread(pairs, pairs);
    } else {
      var m := |cats| - 1;
      var u, v := Spread(cats[..m]), Along(Indicator(cats[m]));
      BoundedSpread(cats[..m], pairs);
      BoundedAlong(Indicator(cats[m]), pairs);
      DisagreementAdds(Spread(cats), u, v, pairs, pairs);
      Distribute(|pairs| as real, Observed(u, pairs), Observed(v, pairs));
    }
  }

  lemma {:induction false} NoSpread(pairs: seq<Pair>, all: seq<Pair>)
    ensures Observed(Spread([]), pairs) == 0.0 && Expected(Spread([]), pairs, all) == 0.0
  {
    if pairs != [] {
      NoSpread(pairs[..|pairs| - 1], all);
      NoSpreadAgainst(pairs[|pairs| - 1].0, all);
    }
  }

  lemma {:induction false} NoSpreadAgainst(a: int, all: seq<Pair>)
    ensures Against(Spread([]), a, all) == 0.0
  {
    if all != [] {
      NoSpreadAgainst(a, all[..|all| - 1]);
    }
  }

  lemma PlainIsSpread(pairs: seq<Pair>, cats: seq<int>)
    requires Categories(cats, pairs)
    ensures Multiple(Spread(cats), Plain(), 2.0, pairs)
  {
    PairsAreCategorised(pairs, cats);
    forall a, b | a in cats && b in cats
      ensures Spread(cats)(a, b) == 2.0 * Plain()(a, b)
    {
      SpreadCounts(cats, a, b);
    }
  }

  // ----- the quadratic weight -----

  function Score(): Coordinate { (a: int) => a as real }

  lemma QuadraticIsAlong(pairs: seq<Pair>, lo: int, hi: int)
    requires lo < hi
    ensures Multiple(Along(Score()), Quadratic(lo, hi), Square((hi - lo) as real), pairs)
  {
    forall a: int, b: int
      ensures Along(Score())(a, b) == Square((hi - lo) as real) * Quadratic(lo, hi)(a, b)
    {
      QuadraticScales(a as real, b as real, (hi - lo) as real);
    }
  }

  /** Observed disagreement is at most twice what chance would give, under either weight. */
  lemma ObservedIsAtMostTwiceExpected(pairs: seq<Pair>, weighted: bool)
    requires |pairs| >= 2 && Varied(pairs) && Lowest(pairs) < Highest(pairs)
    ensures var w := WeightOf(pairs, weighted);
            |pairs| as real * Observed(w, pairs) <= 2.0 * Expected(w, pairs, pairs)
  {
    hide *;
    var u, r := AsDistance(pairs, weighted);
    BoundFromDistance(pairs, WeightOf(pairs, weighted), u, r);
  }

  lemma BoundFromDistance(pairs: seq<Pair>, w: Weight, u: Weight, r: real)
    requires r > 0.0 && Multiple(u, w, r, pairs)
    requires |pairs| as real * Observed(u, pairs) <= 2.0 * Expected(u, pairs, pairs)
    ensures |pairs| as real * Observed(w, pairs) <= 2.0 * Expected(w, pairs, pairs)
  {
    hide *;
    DisagreementMultiple(u, w, r, pairs);
    ScaledBound(|pairs| as real, r, Observed(w, pairs), Expected(w, pairs, pairs));
  }

  lemma AsDistance(pairs: seq<Pair>, weighted: bool) returns (u: Weight, r: real)
    requires |pairs| >= 2 && Varied(pairs) && Lowest(pairs) < Highest(pairs)
    ensures r > 0.0 && Multiple(u, WeightOf(pairs, weighted), r, pairs)
    ensures |pairs| as real * Observed(u, pairs) <= 2.0 * Expected(u, pairs, pairs)
  {
    hide Observed, Expected, Multiple, Along, Spread, Quadratic, Plain, Varied, Lowest, Highest;
    if weighted {
      var range := (Highest(pairs) - Lowest(pairs)) as real;
      u, r := Along(Score()), Square(range);
      SquareNonNegative(range);
      QuadraticIsAlong(pairs, Lowest(pairs), Highest(pairs));
      BoundedAlong(Score(), pairs);
    } else {
      u, r := Spread(SortedCategories(pairs)), 2.0;
      PlainIsSpread(pairs, SortedCategories(pairs));
      BoundedSpread(SortedCategories(pairs), pairs);
    }
  }

  /** Both kappas, wherever they are defined, lie between -1 and 1. */
  lemma KappaIsBounded(pairs: seq<Pair>, weighted: bool)
    requires Kappa(pairs, weighted).Some?
    ensures -1.0 <= Kappa(pairs, weighted).value <= 1.0
  {
    hide Observed, Expected, Varied, Lowest, Highest, WeightOf, Used;
    DefinedMeansVaried(pairs, weighted);
    var k := KappaEquation(pairs, weighted);
    KappaIsOneIffAgreed(pairs, weighted);
    ObservedIsAtMostTwiceExpected(pairs, weighted);
    var w := WeightOf(pairs, weighted);
    AtLeastMinusOne(k, Expected(w, pairs, pairs), Observed(w, pairs), |pairs| as real);
  }

  // ----- the closed form -----

  /** Population variance and covariance. */
  function Covariance(xs: seq<real>, ys: seq<real>): real
    requires |xs| == |ys| && xs != []
  {
    M.Dot(M.Deviations(xs), M.Deviations(ys)) / |xs| as real
  }

  function Judged(pairs: seq<Pair>): seq<real> { JudgeSeries(Score(), pairs) }

  function Labelled(pairs: seq<Pair>): seq<real> { HumanSeries(Score(), pairs) }

  /** Quadratic kappa is twice the covariance of the two raters over the sum of their variances and
      the squared difference of their means, population moments throughout. */
  lemma QuadraticKappaClosedForm(pairs: seq<Pair>)
    requires Kappa(pairs, true).Some?
    ensures var xs, ys := Judged(pairs), Labelled(pairs);
            var scale := Covariance(xs, xs) + Covariance(ys, ys) + Square(M.Mean(xs) - M.Mean(ys));
            scale > 0.0 && Kappa(pairs, true).value * scale == 2.0 * Covariance(xs, ys)
  {
    hide *;
    DefinedMeansVaried(pairs, true);
    var k := KappaEquation(pairs, true);
    var w := WeightOf(pairs, true);
    var r := QuadraticDistance(pairs, w);
    ScaledEquation(k, Expected(w, pairs, pairs), Observed(w, pairs), |pairs| as real, r);
    PositiveProduct(r, Expected(w, pairs, pairs), r * Expected(w, pairs, pairs));
    ClosedFormOfTotals(pairs, k, r * Observed(w, pairs), r * Expected(w, pairs, pairs));
  }

  lemma DefinedMeansVaried(pairs: seq<Pair>, weighted: bool)
    requires Kappa(pairs, weighted).Some?
    ensures |pairs| >= 2 && Varied(pairs)
  {
    hide Observed, Expected, Varied, Lowest, Highest, Used;
  }

  lemma QuadraticDistance(pairs: seq<Pair>, w: Weight) returns (r: real)
    requires |pairs| >= 2 && Lowest(pairs) < Highest(pairs) && w == WeightOf(pairs, true)
    ensures r > 0.0 && Observed(Along(Score()), pairs) == r * Observed(w, pairs)
    ensures Expected(Along(Score()), pairs, pairs) == r * Expected(w, pairs, pairs)
  {
    hide Observed, Expected, Lowest, Highest, Along, Multiple, Quadratic;
    var lo, hi := Lowest(pairs), Highest(pairs);
    r := Square((hi - lo) as real);
    SquareNonNegative((hi - lo) as real);
    QuadraticIsAlong(pairs, lo, hi);
    DisagreementMultiple(Along(Score()), w, r, pairs);
  }

  lemma ClosedFormOfTotals(pairs: seq<Pair>, k: real, d: real, e: real)
    requires pairs != [] && e > 0.0 && k * e == e - |pairs| as real * d
    requires Observed(Along(Score()), pairs) == d && Expected(Along(Score()), pairs, pairs) == e
    ensures var xs, ys := Judged(pairs), Labelled(pairs);
            var scale := Covariance(xs, xs) + Covariance(ys, ys) + Square(M.Mean(xs) - M.Mean(ys));
            scale > 0.0 && k * scale == 2.0 * Covariance(xs, ys)
  {
    hide *;
    var xs, ys, n := Judged(pairs), Labelled(pairs), |pairs| as real;
    SeriesOfScores(pairs);
    AlongByDeviations(Score(), pairs, xs, ys, n);
    DividedByPairs(xs, ys, n);
    var dx, dy := M.Deviations(xs), M.Deviations(ys);
    var xx, yy, xy := M.Dot(dx, dx), M.Dot(dy, dy), M.Dot(dx, dy);
    ProductsOfFour(n, xx, yy, xy, d);
    ClosedForm(k, e, d, n, xx, yy, xy, Sum(xs), Sum(ys));
    ScaleIsPositive(n, xx, yy, Sum(xs), Sum(ys), e);
  }

  lemma ProductsOfFour(n: real, a: real, b: real, c: real, d: real)
    ensures Product(n, a) == n * a && Product(n, b) == n * b && Product(n, c) == n * c && Product(n, d) == n * d
  {
  }

  lemma SeriesOfScores(pairs: seq<Pair>)
    ensures Judged(pairs) == JudgeSeries(Score(), pairs) && Labelled(pairs) == HumanSeries(Score(), pairs)
  {
  }

  lemma DividedByPairs(xs: seq<real>, ys: seq<real>, n: real)
    requires |xs| == |ys| && xs != [] && n == |xs| as real
    ensures var dx, dy := M.Deviations(xs), M.Deviations(ys);
            && Covariance(xs, xs) == M.Dot(dx, dx) / n && Covariance(ys, ys) == M.Dot(dy, dy) / n
            && Covariance(xs, ys) == M.Dot(dx, dy) / n
            && M.Mean(xs) == Sum(xs) / n && M.Mean(ys) == Sum(ys) / n
  {
    hide M.Dot, M.Deviations, Sum;
  }
}
