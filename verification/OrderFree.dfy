/** Every aggregate of eval/metrics.py and eval/harness.py forgets the order of its input.

    Means, rates, percentiles and correlations of permuted inputs are equal: the reason why a stored
    run may be read back in any order. */
module OrderFree {
  import opened Wrappers
  import opened Aggregates
  import opened Metrics
  import opened Sorting
  import M = Moments

  /** Sequences without repetitions and with the same elements are permutations. */
  lemma SameElements<A>(xs: seq<A>, ys: seq<A>)
    requires Distinct(xs) && Distinct(ys) && forall x :: x in xs <==> x in ys
    ensures multiset(xs) == multiset(ys)
  {
    forall x
      ensures multiset(xs)[x] == multiset(ys)[x]
    {
      DistinctCount(xs, x);
      DistinctCount(ys, x);
    }
  }

  lemma {:induction false} PresentCount<A>(xs: seq<Option<A>>, x: A)
    ensures multiset(Present(xs))[x] == multiset(xs)[Some(x)]
  {
    if xs != [] {
      assert xs == [xs[0]] + xs[1..];
      PresentCount(xs[1..], x);
    }
  }

  lemma PresentPermuted<A>(xs: seq<Option<A>>, ys: seq<Option<A>>)
    requires multiset(xs) == multiset(ys)
    ensures multiset(Present(xs)) == multiset(Present(ys)) && |Present(xs)| == |Present(ys)|
  {
    forall x
      ensures multiset(Present(xs))[x] == multiset(Present(ys))[x]
    {
      PresentCount(xs, x);
      PresentCount(ys, x);
    }
    SameSize(Present(xs), Present(ys));
  }

  lemma SameSize<A>(xs: seq<A>, ys: seq<A>)
    requires forall x :: multiset(xs)[x] == multiset(ys)[x]
    ensures multiset(xs) == multiset(ys) && |xs| == |ys|
  {
    assert multiset(xs) == multiset(ys);
    assert |multiset(xs)| == |multiset(ys)|;
  }

  lemma {:induction false} TruesAreCounted(values: seq<bool>)
    ensures Trues(values) == multiset(values)[true]
  {
    if values != [] {
      assert values == [values[0]] + values[1..];
      TruesAreCounted(values[1..]);
    }
  }

  lemma MeanPermuted(xs: seq<Option<real>>, ys: seq<Option<real>>)
    requires multiset(xs) == multiset(ys)
    ensures Mean(xs) == Mean(ys)
  {
    PresentPermuted(xs, ys);
    SumPermuted(Present(xs), Present(ys));
  }

  lemma RatePermuted(xs: seq<Option<bool>>, ys: seq<Option<bool>>, policy: NonePolicy)
    requires multiset(xs) == multiset(ys)
    ensures Rate(xs, policy) == Rate(ys, policy)
  {
    var us, vs := Considered(xs, policy), Considered(ys, policy);
    if policy.Excluded? {
      PresentPermuted(xs, ys);
    } else {
      MappedPermuted(Filled(policy.value), xs, ys);
      BagSize(us, vs);
    }
    TruesAreCounted(us);
    TruesAreCounted(vs);
  }

  lemma BagSize<A>(xs: seq<A>, ys: seq<A>)
    requires multiset(xs) == multiset(ys)
    ensures |xs| == |ys|
  {
    assert |multiset(xs)| == |multiset(ys)|;
  }

  lemma PercentilePermuted(xs: seq<real>, ys: seq<real>, q: real)
    requires multiset(xs) == multiset(ys) && q >= 0.0
    ensures Percentile(xs, q) == Percentile(ys, q)
  {
    BagSize(xs, ys);
    SortForgetsOrder(xs, ys);
  }

  function Centred(f: Sample -> real, g: Sample -> real, a: real, b: real): Sample -> real {
    (s: Sample) => (f(s) - a) * (g(s) - b)
  }

  lemma CentredAt(f: Sample -> real, g: Sample -> real, a: real, b: real, s: Sample)
    ensures Centred(f, g, a, b)(s) == (f(s) - a) * (g(s) - b)
  {
  }

  lemma MappedStep<A, B>(f: A -> B, xs: seq<A>)
    requires xs != []
    ensures Mapped(f, xs)[0] == f(xs[0]) && Mapped(f, xs)[1..] == Mapped(f, xs[1..])
  {
  }

  lemma ShiftedMappedStep(f: Sample -> real, a: real, samples: seq<Sample>)
    requires samples != []
    ensures var xs := M.Shifted(Mapped(f, samples), a);
            xs[0] == f(samples[0]) - a && xs[1..] == M.Shifted(Mapped(f, samples[1..]), a)
  {
    hide *;
    MappedStep(f, samples);
  }

  lemma {:induction false} DotIsSum(f: Sample -> real, g: Sample -> real, a: real, b: real, samples: seq<Sample>)
    ensures M.Dot(M.Shifted(Mapped(f, samples), a), M.Shifted(Mapped(g, samples), b))
            == Sum(Mapped(Centred(f, g, a, b), samples))
  {
    if samples != [] {
      hide *;
      DotIsSum(f, g, a, b, samples[1..]);
      ShiftedMappedStep(f, a, samples);
      ShiftedMappedStep(g, b, samples);
      M.DotStep(M.Shifted(Mapped(f, samples), a), M.Shifted(Mapped(g, samples), b));
      MappedStep(Centred(f, g, a, b), samples);
      M.SumStep(Mapped(Centred(f, g, a, b), samples));
      CentredAt(f, g, a, b, samples[0]);
    }
  }

  lemma DotPermuted(f: Sample -> real, g: Sample -> real, ps: seq<Sample>, qs: seq<Sample>)
    requires multiset(ps) == multiset(qs) && ps != [] && qs != []
    ensures M.Dot(M.Deviations(Mapped(f, ps)), M.Deviations(Mapped(g, ps)))
            == M.Dot(M.Deviations(Mapped(f, qs)), M.Deviations(Mapped(g, qs)))
  {
    MeanOfMapped(f, ps, qs);
    MeanOfMapped(g, ps, qs);
    var a, b := M.Mean(Mapped(f, ps)), M.Mean(Mapped(g, ps));
    DotIsSum(f, g, a, b, ps);
    DotIsSum(f, g, a, b, qs);
    MappedPermuted(Centred(f, g, a, b), ps, qs);
    SumPermuted(Mapped(Centred(f, g, a, b), ps), Mapped(Centred(f, g, a, b), qs));
  }

  lemma MeanOfMapped(f: Sample -> real, ps: seq<Sample>, qs: seq<Sample>)
    requires multiset(ps) == multiset(qs) && ps != [] && qs != []
    ensures M.Mean(Mapped(f, ps)) == M.Mean(Mapped(f, qs))
  {
    BagSize(ps, qs);
    MappedPermuted(f, ps, qs);
    SumPermuted(Mapped(f, ps), Mapped(f, qs));
  }

  lemma LengthRPermuted(xs: seq<Sample>, ys: seq<Sample>)
    requires multiset(xs) == multiset(ys)
    ensures LengthR(xs) == LengthR(ys)
  {
    hide M.Dot, M.Deviations, Mapped, Kept;
    var ps, qs := Kept(MeasuredOnly(), xs), Kept(MeasuredOnly(), ys);
    KeptPermuted(MeasuredOnly(), xs, ys);
    BagSize(ps, qs);
    if |ps| >= 2 {
      DotPermuted(Length(), Length(), ps, qs);
      DotPermuted(Length(), Score(), ps, qs);
      DotPermuted(Score(), Score(), ps, qs);
    }
  }
}
