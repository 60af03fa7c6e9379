/** Disagreement as a squared distance.

    A weight that is a squared distance along a coordinate turns disagreement into sums of products
    of two series, so that observed disagreement is at most twice expected; and sums and multiples
    of such weights inherit that. */
module Distances {
  import opened Aggregates
  import opened RealAlgebra
  import opened Weights
  import M = Moments

  type Coordinate = int -> real

  function Along(phi: Coordinate): Weight { (a: int, b: int) => Square(phi(a) - phi(b)) }

  function JudgeSeries(phi: Coordinate, pairs: seq<Pair>): (xs: seq<real>)
    ensures |xs| == |pairs|
  {
    if pairs == [] then [] else JudgeSeries(phi, pairs[..|pairs| - 1]) + [phi(pairs[|pairs| - 1].0)]
  }

  function HumanSeries(phi: Coordinate, pairs: seq<Pair>): (ys: seq<real>)
    ensures |ys| == |pairs|
  {
    if pairs == [] then [] else HumanSeries(phi, pairs[..|pairs| - 1]) + [phi(pairs[|pairs| - 1].1)]
  }

  lemma {:induction false} DotBack(xs: seq<real>, ys: seq<real>, x: real, y: real)
    requires |xs| == |ys|
    ensures M.Dot(xs + [x], ys + [y]) == M.Dot(xs, ys) + x * y
  {
    if xs != [] {
      DotBack(xs[1..], ys[1..], x, y);
      assert (xs + [x])[1..] == xs[1..] + [x] && (ys + [y])[1..] == ys[1..] + [y];
    }
  }

  lemma SumBack(xs: seq<real>, x: real)
    ensures Sum(xs + [x]) == Sum(xs) + x
  {
    SumConcat(xs, [x]);
    assert Sum([x]) == x;
  }

  lemma {:induction false} ObservedAlong(phi: Coordinate, pairs: seq<Pair>)
    ensures var xs, ys := JudgeSeries(phi, pairs), HumanSeries(phi, pairs);
            Observed(Along(phi), pairs) == M.Dot(xs, xs) - 2.0 * M.Dot(xs, ys) + M.Dot(ys, ys)
  {
    if pairs != [] {
      var n := |pairs| - 1;
      ObservedAlong(phi, pairs[..n]);
      var xs, ys := JudgeSeries(phi, pairs[..n]), HumanSeries(phi, pairs[..n]);
      var x, y := phi(pairs[n].0), phi(pairs[n].1);
      DotBack(xs, xs, x, x);
      DotBack(xs, ys, x, y);
      DotBack(ys, ys, y, y);
      SquareOfDifference(x, y);
    }
  }

  lemma {:induction false} AgainstAlong(phi: Coordinate, a: int, all: seq<Pair>)
    ensures var ys := HumanSeries(phi, all);
            Against(Along(phi), a, all) == |all| as real * (phi(a) * phi(a)) - 2.0 * (phi(a) * Sum(ys)) + M.Dot(ys, ys)
  {
    hide *;
    if all == [] {
      AgainstNothing(phi, a);
    } else {
      var n := |all| - 1;
      AgainstAlong(phi, a, all[..n]);
      var ys := HumanSeries(phi, all[..n]);
      var p, y := phi(a), phi(all[n].1);
      AgainstUnfolds(phi, a, all);
      DotBack(ys, ys, y, y);
      SumBack(ys, y);
      SquareOfDifference(p, y);
      AgainstStep(n as real, p, p * p, Sum(ys), M.Dot(ys, ys), y, y * y, p * y);
    }
  }

  lemma AgainstNothing(phi: Coordinate, a: int)
    ensures var ys := HumanSeries(phi, []); Against(Along(phi), a, []) == 0.0 && Sum(ys) == 0.0 && M.Dot(ys, ys) == 0.0
  {
  }

  lemma AgainstUnfolds(phi: Coordinate, a: int, all: seq<Pair>)
    requires all != []
    ensures var n := |all| - 1;
            && Against(Along(phi), a, all) == Against(Along(phi), a, all[..n]) + Square(phi(a) - phi(all[n].1))
            && HumanSeries(phi, all) == HumanSeries(phi, all[..n]) + [phi(all[n].1)]
  {
    hide Square;
  }

  lemma {:induction false} ExpectedAlong(phi: Coordinate, pairs: seq<Pair>, all: seq<Pair>)
    ensures var xs, ys := JudgeSeries(phi, pairs), HumanSeries(phi, all);
            Expected(Along(phi), pairs, all)
            == |all| as real * M.Dot(xs, xs) - 2.0 * (Sum(xs) * Sum(ys)) + |pairs| as real * M.Dot(ys, ys)
  {
    hide *;
    var ys := HumanSeries(phi, all);
    if pairs == [] {
      NothingExpected(Along(phi), phi, all);
    } else {
      var n := |pairs| - 1;
      ExpectedAlong(phi, pairs[..n], all);
      var xs := JudgeSeries(phi, pairs[..n]);
      var p := phi(pairs[n].0);
      ExpectedUnfolds(Along(phi), phi, pairs, all);
      DotBack(xs, xs, p, p);
      SumBack(xs, p);
      AgainstAlong(phi, pairs[n].0, all);
      ExpectedStep(|all| as real, M.Dot(xs, xs), Sum(xs), Sum(ys), n as real, M.Dot(ys, ys), p, p * p);
    }
  }

  lemma NothingExpected(w: Weight, phi: Coordinate, all: seq<Pair>)
    ensures Expected(w, [], all) == 0.0 && M.Dot(JudgeSeries(phi, []), JudgeSeries(phi, [])) == 0.0
            && Sum(JudgeSeries(phi, [])) == 0.0
  {
  }

  lemma ExpectedUnfolds(w: Weight, phi: Coordinate, pairs: seq<Pair>, all: seq<Pair>)
    requires pairs != []
    ensures var n := |pairs| - 1;
            && Expected(w, pairs, all) == Expected(w, pairs[..n], all) + Against(w, pairs[n].0, all)
            && JudgeSeries(phi, pairs) == JudgeSeries(phi, pairs[..n]) + [phi(pairs[n].0)]
  {
  }

  lemma ExpectedInProducts(phi: Coordinate, pairs: seq<Pair>, xs: seq<real>, ys: seq<real>, n: real)
    requires xs == JudgeSeries(phi, pairs) && ys == HumanSeries(phi, pairs) && n == |pairs| as real
    ensures Expected(Along(phi), pairs, pairs)
         == Product(n, M.Dot(xs, xs)) - 2.0 * Product(Sum(xs), Sum(ys)) + Product(n, M.Dot(ys, ys))
  {
    hide Expected, Along, JudgeSeries, HumanSeries, M.Dot, Sum;
    ExpectedAlong(phi, pairs, pairs);
  }

  lemma DeviationsInProducts(xs: seq<real>, ys: seq<real>, n: real)
    requires |xs| == |ys| && xs != [] && n == |xs| as real
    ensures Product(n, M.Dot(M.Deviations(xs), M.Deviations(ys)))
            == Product(n, M.Dot(xs, ys)) - Product(Sum(xs), Sum(ys))
  {
    hide M.Dot, M.Deviations, Sum;
    M.DeviationsFromMoments(xs, ys);
  }

  /** Expected and observed disagreement along one coordinate, by deviations from the mean. */
  lemma AlongByDeviations(phi: Coordinate, pairs: seq<Pair>, xs: seq<real>, ys: seq<real>, n: real)
    requires pairs != [] && xs == JudgeSeries(phi, pairs) && ys == HumanSeries(phi, pairs) && n == |pairs| as real
    ensures var dx, dy := M.Deviations(xs), M.Deviations(ys);
            && Expected(Along(phi), pairs, pairs)
               == Product(n, M.Dot(dx, dx)) + Product(n, M.Dot(dy, dy)) + Square(Sum(xs) - Sum(ys))
            && Expected(Along(phi), pairs, pairs) - Product(n, Observed(Along(phi), pairs))
               == 2.0 * Product(n, M.Dot(dx, dy))
  {
    hide *;
    ObservedAlong(phi, pairs);
    ExpectedInProducts(phi, pairs, xs, ys, n);
    DeviationsInProducts(xs, xs, n);
    DeviationsInProducts(ys, ys, n);
    DeviationsInProducts(xs, ys, n);
    SquareInProducts(Sum(xs), Sum(ys));
    ProductOfThree(n, M.Dot(xs, xs), M.Dot(xs, ys), M.Dot(ys, ys));
  }

  /** For any real-valued reading of the scores: observed disagreement is at most twice expected. */
  lemma BoundedAlong(phi: Coordinate, pairs: seq<Pair>)
    requires pairs != []
    ensures |pairs| as real * Observed(Along(phi), pairs) <= 2.0 * Expected(Along(phi), pairs, pairs)
  {
    hide Observed, Expected, Along, JudgeSeries, HumanSeries, M.Dot, M.Deviations, Form, Square, Sum;
    var xs, ys, n := JudgeSeries(phi, pairs), HumanSeries(phi, pairs), |pairs| as real;
    AlongByDeviations(phi, pairs, xs, ys, n);
    var dx, dy := M.Deviations(xs), M.Deviations(ys);
    var xx, xy, yy := M.Dot(dx, dx), M.Dot(dx, dy), M.Dot(dy, dy);
    M.FormNonNegative(1.0, -1.0, dx, dy);
    UnitForm(xx, xy, yy);
    SquareNonNegative(Sum(xs) - Sum(ys));
    NonNegativeProduct(n, xx + 2.0 * xy + yy);
    DistributeThree(n, xx, -xy, yy);
  }

  // ----- sums and multiples of weights -----

  lemma {:induction false} AgainstAdds(w: Weight, u: Weight, v: Weight, a: int, all: seq<Pair>)
    requires forall x, y :: w(x, y) == u(x, y) + v(x, y)
    ensures Against(w, a, all) == Against(u, a, all) + Against(v, a, all)
  {
    if all != [] {
      AgainstAdds(w, u, v, a, all[..|all| - 1]);
    }
  }

  lemma {:induction false} DisagreementAdds(w: Weight, u: Weight, v: Weight, pairs: seq<Pair>, all: seq<Pair>)
    requires forall x, y :: w(x, y) == u(x, y) + v(x, y)
    ensures Observed(w, pairs) == Observed(u, pairs) + Observed(v, pairs)
    ensures Expected(w, pairs, all) == Expected(u, pairs, all) + Expected(v, pairs, all)
  {
    if pairs != [] {
      DisagreementAdds(w, u, v, pairs[..|pairs| - 1], all);
      AgainstAdds(w, u, v, pairs[|pairs| - 1].0, all);
    }
  }

  /** On the scores that occur, `w` is `r` times `u`. */
  ghost predicate Multiple(w: Weight, u: Weight, r: real, pairs: seq<Pair>) {
    forall i, j :: 0 <= i < |pairs| && 0 <= j < |pairs| ==> w(pairs[i].0, pairs[j].1) == r * u(pairs[i].0, pairs[j].1)
  }

  lemma {:induction false} AgainstMultiple(w: Weight, u: Weight, r: real, a: int, all: seq<Pair>)
    requires forall j :: 0 <= j < |all| ==> w(a, all[j].1) == r * u(a, all[j].1)
    ensures Against(w, a, all) == r * Against(u, a, all)
  {
    if all != [] {
      var n := |all| - 1;
      AgainstMultiple(w, u, r, a, all[..n]);
      Distribute(r, Against(u, a, all[..n]), u(a, all[n].1));
    }
  }

  lemma {:induction false} ObservedMultiple(w: Weight, u: Weight, r: real, pairs: seq<Pair>)
    requires forall i :: 0 <= i < |pairs| ==> w(pairs[i].0, pairs[i].1) == r * u(pairs[i].0, pairs[i].1)
    ensures Observed(w, pairs) == r * Observed(u, pairs)
  {
    if pairs != [] {
      var n := |pairs| - 1;
      ObservedMultiple(w, u, r, pairs[..n]);
      Distribute(r, Observed(u, pairs[..n]), u(pairs[n].0, pairs[n].1));
    }
  }

  lemma {:induction false} ExpectedMultiple(w: Weight, u: Weight, r: real, pairs: seq<Pair>, all: seq<Pair>)
    requires forall i, j :: 0 <= i < |pairs| && 0 <= j < |all| ==>
             w(pairs[i].0, all[j].1) == r * u(pairs[i].0, all[j].1)
    ensures Expected(w, pairs, all) == r * Expected(u, pairs, all)
  {
    if pairs != [] {
      var n := |pairs| - 1;
      ExpectedMultiple(w, u, r, pairs[..n], all);
      AgainstMultiple(w, u, r, pairs[n].0, all);
      Distribute(r, Expected(u, pairs[..n], all), Against(u, pairs[n].0, all));
    }
  }

  lemma DisagreementMultiple(w: Weight, u: Weight, r: real, pairs: seq<Pair>)
    requires Multiple(w, u, r, pairs)
    ensures Observed(w, pairs) == r * Observed(u, pairs)
    ensures Expected(w, pairs, pairs) == r * Expected(u, pairs, pairs)
  {
    ObservedMultiple(w, u, r, pairs);
    ExpectedMultiple(w, u, r, pairs, pairs);
  }
}
