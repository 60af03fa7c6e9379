/** Sums of products over paired samples: the algebra under Pearson's r and the quadratic kappa.

    Deviations from the mean, their sums in terms of raw sums, and the inequality of Cauchy and
    Schwarz. */
module Moments {
  import opened Aggregates
  import opened RealAlgebra

  /** The sum of the products of corresponding elements. */
  function Dot(xs: seq<real>, ys: seq<real>): real
    requires |xs| == |ys|
  {
    if xs == [] then 0.0 else xs[0] * ys[0] + Dot(xs[1..], ys[1..])
  }

  function Mean(xs: seq<real>): real
    requires xs != []
  {
    Sum(xs) / |xs| as real
  }

  function Shifted(xs: seq<real>, m: real): (ys: seq<real>)
    ensures |ys| == |xs| && forall i :: 0 <= i < |xs| ==> ys[i] == xs[i] - m
  {
    seq(|xs|, i requires 0 <= i < |xs| => xs[i] - m)
  }

  /** The deviations from the mean. */
  function Deviations(xs: seq<real>): (ys: seq<real>)
    requires xs != []
    ensures |ys| == |xs|
  {
    Shifted(xs, Mean(xs))
  }

  lemma {:induction false} DotSelf(xs: seq<real>)
    ensures Dot(xs, xs) >= 0.0
    ensures Dot(xs, xs) == 0.0 <==> forall i :: 0 <= i < |xs| ==> xs[i] == 0.0
  {
    if xs != [] {
      DotSelf(xs[1..]);
      SquareNonNegative(xs[0]);
      assert forall i :: 1 <= i < |xs| ==> xs[1..][i - 1] == xs[i];
    }
  }

  lemma {:induction false} DotZero(xs: seq<real>, ys: seq<real>)
    requires |xs| == |ys| && forall i :: 0 <= i < |xs| ==> xs[i] == 0.0
    ensures Dot(xs, ys) == 0.0
  {
    if xs != [] {
      DotZero(xs[1..], ys[1..]);
    }
  }

  lemma {:induction false} FormNonNegative(p: real, q: real, xs: seq<real>, ys: seq<real>)
    requires |xs| == |ys|
    ensures Form(p, q, Dot(xs, xs), Dot(xs, ys), Dot(ys, ys)) >= 0.0
  {
    if xs != [] {
      FormNonNegative(p, q, xs[1..], ys[1..]);
      FormStep(p, q, xs[0], ys[0], Dot(xs[1..], xs[1..]), Dot(xs[1..], ys[1..]), Dot(ys[1..], ys[1..]));
    }
  }

  lemma CauchySchwarz(xs: seq<real>, ys: seq<real>)
    requires |xs| == |ys|
    ensures Square(Dot(xs, ys)) <= Dot(xs, xs) * Dot(ys, ys)
  {
    DotSelf(xs);
    DotSelf(ys);
    if Dot(xs, xs) == 0.0 {
      DotZero(xs, ys);
    } else {
      FormNonNegative(Dot(xs, xs), Dot(xs, ys), xs, ys);
      Discriminant(Dot(xs, xs), Dot(xs, ys), Dot(ys, ys));
    }
  }

  lemma DotStep(xs: seq<real>, ys: seq<real>)
    requires |xs| == |ys| && xs != []
    ensures Dot(xs, ys) == xs[0] * ys[0] + Dot(xs[1..], ys[1..])
  {
  }

  lemma SumStep(xs: seq<real>)
    requires xs != []
    ensures Sum(xs) == xs[0] + Sum(xs[1..])
  {
  }

  lemma ShiftedStep(xs: seq<real>, a: real)
    requires xs != []
    ensures Shifted(xs, a)[0] == xs[0] - a && Shifted(xs, a)[1..] == Shifted(xs[1..], a)
  {
  }

  lemma EmptyDot(xs: seq<real>, ys: seq<real>)
    requires xs == [] && ys == []
    ensures Dot(xs, ys) == 0.0 && Sum(xs) == 0.0 && Sum(ys) == 0.0
  {
  }

  lemma {:induction false} DotShifted(xs: seq<real>, ys: seq<real>, a: real, b: real)
    requires |xs| == |ys|
    ensures Dot(Shifted(xs, a), Shifted(ys, b)) == Dot(xs, ys) - a * Sum(ys) - b * Sum(xs) + |xs| as real * (a * b)
  {
    hide *;
    if xs == [] {
      EmptyDot(xs, ys);
      EmptyDot(Shifted(xs, a), Shifted(ys, b));
    } else {
      DotShifted(xs[1..], ys[1..], a, b);
      DotStep(xs, ys);
      SumStep(xs);
      SumStep(ys);
      ShiftedStep(xs, a);
      ShiftedStep(ys, b);
      DotStep(Shifted(xs, a), Shifted(ys, b));
      Collect(Dot(xs[1..], ys[1..]), xs[0], ys[0], a, b, Sum(xs[1..]), Sum(ys[1..]), |xs[1..]| as real,
              Dot(Shifted(xs[1..], a), Shifted(ys[1..], b)), Sum(xs), Sum(ys), |xs| as real);
    }
  }

  lemma ShiftedByMeans(xs: seq<real>, ys: seq<real>, a: real, b: real, n: real)
    requires |xs| == |ys| && n == |xs| as real && n * a == Sum(xs) && n * b == Sum(ys)
    ensures n * Dot(Shifted(xs, a), Shifted(ys, b)) == n * Dot(xs, ys) - Sum(xs) * Sum(ys)
  {
    hide *;
    DotShifted(xs, ys, a, b);
    MeansCancel(n, a, b, Sum(xs), Sum(ys), Dot(xs, ys), Dot(Shifted(xs, a), Shifted(ys, b)));
  }

  /** The sum of products of deviations, times the number of samples, from raw moments. */
  lemma DeviationsFromMoments(xs: seq<real>, ys: seq<real>)
    requires |xs| == |ys| && xs != []
    ensures |xs| as real * Dot(Deviations(xs), Deviations(ys)) == |xs| as real * Dot(xs, ys) - Sum(xs) * Sum(ys)
  {
    hide *;
    MeanScales(xs);
    MeanScales(ys);
    DeviationsAre(xs);
    DeviationsAre(ys);
    ShiftedByMeans(xs, ys, Mean(xs), Mean(ys), |xs| as real);
  }

  lemma DeviationsAre(xs: seq<real>)
    requires xs != []
    ensures Deviations(xs) == Shifted(xs, Mean(xs))
  {
  }

  lemma MeanScales(xs: seq<real>)
    requires xs != []
    ensures |xs| as real * Mean(xs) == Sum(xs)
  {
  }

  ghost predicate Constant(xs: seq<real>) {
    forall i, j :: 0 <= i < |xs| && 0 <= j < |xs| ==> xs[i] == xs[j]
  }

  lemma {:induction false} SumConstant(xs: seq<real>, x: real)
    requires forall i :: 0 <= i < |xs| ==> xs[i] == x
    ensures Sum(xs) == |xs| as real * x
  {
    if xs != [] {
      SumConstant(xs[1..], x);
    }
  }

  /** A series has no spread exactly when it is constant. */
  lemma NoSpreadIffConstant(xs: seq<real>)
    requires xs != []
    ensures Dot(Deviations(xs), Deviations(xs)) == 0.0 <==> Constant(xs)
    ensures Dot(Deviations(xs), Deviations(xs)) >= 0.0
  {
    var ds := Deviations(xs);
    DotSelf(ds);
    if Constant(xs) {
      SumConstant(xs, xs[0]);
      assert Mean(xs) == xs[0];
    }
    if Dot(ds, ds) == 0.0 {
      assert forall i :: 0 <= i < |xs| ==> ds[i] == 0.0;
    }
  }
}
