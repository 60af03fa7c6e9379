/** The metrics of a run, told from its outcomes one by one (eval/harness.py, eval/metrics.py). */
module MetricFacts {
  import opened Wrappers
  import opened Aggregates
  import opened RealAlgebra
  import opened Rounding
  import opened Sorting
  import opened Metrics
  import M = Moments

  // ----- averages -----

  /** What an outcome adds to a metric; None where it does not count. */
  type Pick = Outcome -> Option<real>

  function Added(outcomes: seq<Outcome>, pick: Pick): real {
    if outcomes == [] then 0.0
    else
      var x := pick(outcomes[0]);
      (if x.Some? then x.value else 0.0) + Added(outcomes[1..], pick)
  }

  function Counting(outcomes: seq<Outcome>, pick: Pick): nat {
    if outcomes == [] then 0 else (if pick(outcomes[0]).Some? then 1 else 0) + Counting(outcomes[1..], pick)
  }

  /** The average over the outcomes that count; None if none does. */
  ghost predicate IsAverage(metric: Option<real>, outcomes: seq<Outcome>, pick: Pick) {
    && (metric.None? <==> Counting(outcomes, pick) == 0)
    && (metric.Some? ==> metric.value == Added(outcomes, pick) / Counting(outcomes, pick) as real)
  }

  function OneIf(b: bool): real { if b then 1.0 else 0.0 }

  function Faithfulness(): Pick {
    (o: Outcome) => if o.error.None? && o.faithfulness.Some? then Some(o.faithfulness.value as real) else None
  }

  function Quality(): Pick {
    (o: Outcome) => if o.error.None? && o.quality.Some? then Some(o.quality.value as real) else None
  }

  function Hits(): Pick {
    (o: Outcome) => if o.error.None? && o.hitSource != "n/a" then Some(OneIf(o.hit == Some(true))) else None
  }

  function HitsGivenSearch(): Pick {
    (o: Outcome) => if o.error.None? && o.hitSource != "n/a" && o.hit.Some? then Some(OneIf(o.hit.value)) else None
  }

  function Searches(): Pick {
    (o: Outcome) => if o.error.None? && o.hitSource != "n/a" then Some(OneIf(o.searched)) else None
  }

  function AnyHits(): Pick {
    (o: Outcome) => if o.error.None? && o.hitSource != "n/a" then Some(OneIf(o.anyCallHit)) else None
  }

  function Citations(): Pick { (o: Outcome) => if o.error.None? then Some(OneIf(o.citation == Some(true))) else None }

  function Truncations(): Pick { (o: Outcome) => if o.error.None? then Some(OneIf(o.truncated)) else None }

  function Spent(): Pick { (o: Outcome) => if o.error.None? then Some(o.cost) else None }

  lemma KeptFirst(p: Outcome -> bool, outcomes: seq<Outcome>)
    requires outcomes != []
    ensures Kept(p, outcomes) == if p(outcomes[0]) then [outcomes[0]] + Kept(p, outcomes[1..])
            else Kept(p, outcomes[1..])
  {
  }

  lemma MappedFirst<B>(f: Outcome -> B, o: Outcome, rest: seq<Outcome>)
    ensures Mapped(f, [o] + rest) == [f(o)] + Mapped(f, rest)
    ensures Mapped(f, [o] + rest)[1..] == Mapped(f, rest)
  {
    MappedConcat(f, [o], rest);
    assert Mapped(f, [o]) == [f(o)];
  }

  /** A mean over the outcomes kept by `p` averages what `f` gives of those. */
  lemma {:induction false} MeanSums(outcomes: seq<Outcome>, p: Outcome -> bool, f: Outcome -> Option<real>, pick: Pick)
    requires forall o :: pick(o) == if p(o) then f(o) else None
    ensures var present := Present(Mapped(f, Kept(p, outcomes)));
            |present| == Counting(outcomes, pick) && Sum(present) == Added(outcomes, pick)
  {
    if outcomes != [] {
      hide Present, Mapped, Kept, Sum;
      MeanSums(outcomes[1..], p, f, pick);
      KeptFirst(p, outcomes);
      if p(outcomes[0]) {
        MappedFirst(f, outcomes[0], Kept(p, outcomes[1..]));
        PresentFirst(Mapped(f, Kept(p, outcomes)));
      }
    } else {
      NoMean(p, f);
    }
  }

  lemma NoMean(p: Outcome -> bool, f: Outcome -> Option<real>)
    ensures Present(Mapped(f, Kept(p, []))) == [] && Sum([]) == 0.0
  {
  }

  lemma PresentFirst(xs: seq<Option<real>>)
    requires xs != []
    ensures |Present(xs)| == |Present(xs[1..])| + if xs[0].Some? then 1 else 0
    ensures Sum(Present(xs)) == Sum(Present(xs[1..])) + if xs[0].Some? then xs[0].value else 0.0
  {
    if xs[0].Some? {
      assert Present(xs)[1..] == Present(xs[1..]);
    } else {
      assert Present(xs) == Present(xs[1..]);
    }
  }

  lemma MeanIsAverage(outcomes: seq<Outcome>, p: Outcome -> bool, f: Outcome -> Option<real>, pick: Pick)
    requires forall o :: pick(o) == if p(o) then f(o) else None
    ensures IsAverage(Mean(Mapped(f, Kept(p, outcomes))), outcomes, pick)
  {
    hide Present, Mapped, Kept, Sum, Added, Counting;
    MeanSums(outcomes, p, f, pick);
  }

  function Considers(policy: NonePolicy, v: Option<bool>): Option<real> {
    if v.Some? then Some(OneIf(v.value)) else if policy.CountsAs? then Some(OneIf(policy.value)) else None
  }

  lemma {:induction false} RateSums(outcomes: seq<Outcome>, p: Outcome -> bool, f: Outcome -> Option<bool>,
      policy: NonePolicy, pick: Pick)
    requires forall o :: pick(o) == if p(o) then Considers(policy, f(o)) else None
    ensures var considered := Considered(Mapped(f, Kept(p, outcomes)), policy);
            |considered| == Counting(outcomes, pick) && Trues(considered) as real == Added(outcomes, pick)
  {
    if outcomes != [] {
      hide Considered, Mapped, Kept, Trues;
      RateSums(outcomes[1..], p, f, policy, pick);
      KeptFirst(p, outcomes);
      if p(outcomes[0]) {
        MappedFirst(f, outcomes[0], Kept(p, outcomes[1..]));
        ConsideredFirst(Mapped(f, Kept(p, outcomes)), policy);
      }
    } else {
      NoRate(p, f, policy);
    }
  }

  lemma NoRate(p: Outcome -> bool, f: Outcome -> Option<bool>, policy: NonePolicy)
    ensures Considered(Mapped(f, Kept(p, [])), policy) == [] && Trues([]) == 0
  {
  }

  lemma ConsideredFirst(xs: seq<Option<bool>>, policy: NonePolicy)
    requires xs != []
    ensures var x, all, rest := Considers(policy, xs[0]), Considered(xs, policy), Considered(xs[1..], policy);
            && |all| == |rest| + (if x.Some? then 1 else 0)
            && Trues(all) as real == Trues(rest) as real + (if x.Some? then x.value else 0.0)
  {
    var all, rest := Considered(xs, policy), Considered(xs[1..], policy);
    if policy.Excluded? && xs[0].None? {
      assert all == rest;
    } else {
      assert all[1..] == rest;
    }
  }

  lemma RateIsAverage(outcomes: seq<Outcome>, p: Outcome -> bool, f: Outcome -> Option<bool>, policy: NonePolicy,
      pick: Pick)
    requires forall o :: pick(o) == if p(o) then Considers(policy, f(o)) else None
    ensures IsAverage(Rate(Mapped(f, Kept(p, outcomes)), policy), outcomes, pick)
  {
    hide Considered, Mapped, Kept, Trues, Added, Counting;
    RateSums(outcomes, p, f, policy, pick);
  }

  function Scored(): Outcome -> bool { (o: Outcome) => o.error.None? && o.hitSource != "n/a" }

  lemma {:induction false} KeptTwice(outcomes: seq<Outcome>)
    ensures Kept(Answerable(), Kept(Scorable(), outcomes)) == Kept(Scored(), outcomes)
  {
    if outcomes != [] {
      hide Kept;
      KeptTwice(outcomes[1..]);
      KeptFirst(Scorable(), outcomes);
      KeptFirst(Scored(), outcomes);
      if outcomes[0].error.None? {
        var rest := Kept(Scorable(), outcomes[1..]);
        KeptFirst(Answerable(), [outcomes[0]] + rest);
        assert ([outcomes[0]] + rest)[1..] == rest;
      }
    } else {
      assert Kept(Scorable(), outcomes) == [];
    }
  }

  /** Every mean and rate of the summary is the average, over the outcomes that count for it, of what
      its name says. */
  lemma MetricsAreAverages(outcomes: seq<Outcome>)
    ensures var m := MetricsOf(outcomes);
            && IsAverage(m.faithfulness, outcomes, Faithfulness()) && IsAverage(m.quality, outcomes, Quality())
            && IsAverage(m.hitAt5, outcomes, Hits()) && IsAverage(m.hitAt5GivenSearch, outcomes, HitsGivenSearch())
            && IsAverage(m.searchRate, outcomes, Searches()) && IsAverage(m.anyCallHitRate, outcomes, AnyHits())
            && IsAverage(m.citationOk, outcomes, Citations()) && IsAverage(m.truncation, outcomes, Truncations())
            && IsAverage(m.meanCost, outcomes, Spent())
  {
    hide Mean, Rate, Mapped, Kept, IsAverage, Percentile, LengthR;
    KeptTwice(outcomes);
    MeanIsAverage(outcomes, Scorable(), FaithfulnessOf(), Faithfulness());
    MeanIsAverage(outcomes, Scorable(), QualityOf(), Quality());
    MeanIsAverage(outcomes, Scorable(), CostOf(), Spent());
    RateIsAverage(outcomes, Scored(), HitOf(), CountsAs(false), Hits());
    RateIsAverage(outcomes, Scored(), HitOf(), Excluded, HitsGivenSearch());
    RateIsAverage(outcomes, Scored(), SearchedOf(), CountsAs(false), Searches());
    RateIsAverage(outcomes, Scored(), AnyCallHitOf(), CountsAs(false), AnyHits());
    RateIsAverage(outcomes, Scorable(), CitationOf(), CountsAs(false), Citations());
    RateIsAverage(outcomes, Scorable(), TruncatedOf(), CountsAs(false), Truncations());
  }

  // ----- latencies and lengths -----

  function Latencies(outcomes: seq<Outcome>): seq<real> {
    if outcomes == [] then []
    else (if outcomes[0].error.None? then [outcomes[0].latency] else []) + Latencies(outcomes[1..])
  }

  /** The answers that have a length and the score: their lengths and their scores. */
  function Lengths(outcomes: seq<Outcome>, score: Outcome -> Option<int>): seq<real> {
    if outcomes == [] then []
    else
      var o := outcomes[0];
      (if o.error.None? && score(o).Some? && o.lenTokens != 0 then [o.lenTokens as real] else [])
      + Lengths(outcomes[1..], score)
  }

  function Scores(outcomes: seq<Outcome>, score: Outcome -> Option<int>): seq<real> {
    if outcomes == [] then []
    else
      var o := outcomes[0];
      (if o.error.None? && score(o).Some? && o.lenTokens != 0 then [score(o).value as real] else [])
      + Scores(outcomes[1..], score)
  }

  lemma {:induction false} LatenciesAreKept(outcomes: seq<Outcome>)
    ensures Mapped(LatencyOf(), Kept(Scorable(), outcomes)) == Latencies(outcomes)
  {
    if outcomes != [] {
      LatenciesAreKept(outcomes[1..]);
      KeptFirst(Scorable(), outcomes);
      if outcomes[0].error.None? {
        MappedFirst(LatencyOf(), outcomes[0], Kept(Scorable(), outcomes[1..]));
      }
    }
  }

  lemma {:induction false} SamplesAreKept(outcomes: seq<Outcome>, score: Outcome -> Option<int>, f: Outcome -> Sample)
    requires forall o :: f(o) == (o.lenTokens, score(o))
    ensures var pairs := Kept(MeasuredOnly(), Mapped(f, Kept(Scorable(), outcomes)));
            Mapped(Length(), pairs) == Lengths(outcomes, score) && Mapped(Score(), pairs) == Scores(outcomes, score)
  {
    if outcomes != [] {
      hide Kept, Mapped;
      SamplesAreKept(outcomes[1..], score, f);
      KeptFirst(Scorable(), outcomes);
      if outcomes[0].error.None? {
        MappedFirst(f, outcomes[0], Kept(Scorable(), outcomes[1..]));
        SampleFirst(f(outcomes[0]), Mapped(f, Kept(Scorable(), outcomes[1..])));
      }
    } else {
      NoSamples(f);
    }
  }

  lemma NoSamples(f: Outcome -> Sample)
    ensures var pairs := Kept(MeasuredOnly(), Mapped(f, Kept(Scorable(), [])));
            Mapped(Length(), pairs) == [] && Mapped(Score(), pairs) == []
  {
  }

  lemma SampleFirst(x: Sample, rest: seq<Sample>)
    ensures var all, later := Kept(MeasuredOnly(), [x] + rest), Kept(MeasuredOnly(), rest);
            && Mapped(Length(), all) == (if Measured(x) then [x.0 as real] else []) + Mapped(Length(), later)
            && Mapped(Score(), all) == (if Measured(x) then [x.1.value as real] else []) + Mapped(Score(), later)
  {
    assert ([x] + rest)[1..] == rest;
  }

  /** The other four metrics read the latencies of the outcomes without error, and the lengths and scores
      of those that have both. */
  lemma OrderMetricsReadTheirColumns(outcomes: seq<Outcome>)
    ensures var m := MetricsOf(outcomes);
            var quality, faithfulness := (o: Outcome) => o.quality, (o: Outcome) => o.faithfulness;
            && m.p50 == Percentile(Latencies(outcomes), 0.50) && m.p95 == Percentile(Latencies(outcomes), 0.95)
            && m.lengthQuality == Pearson(Lengths(outcomes, quality), Scores(outcomes, quality))
            && m.lengthFaithfulness == Pearson(Lengths(outcomes, faithfulness), Scores(outcomes, faithfulness))
  {
    hide Mean, Rate, Percentile, Kept, Mapped, Lengths, Scores;
    LatenciesAreKept(outcomes);
    SamplesAreKept(outcomes, (o: Outcome) => o.quality, QualitySample());
    SamplesAreKept(outcomes, (o: Outcome) => o.faithfulness, FaithfulnessSample());
  }

  // ----- percentiles -----

  function AtMost(v: real): real -> bool { (x: real) => x <= v }

  function AtLeast(v: real): real -> bool { (x: real) => x >= v }

  lemma SmallerIsWeak()
    ensures Weak(Smaller())
  {
  }

  lemma {:induction false} KeptAll(p: real -> bool, xs: seq<real>)
    requires forall i :: 0 <= i < |xs| ==> p(xs[i])
    ensures Kept(p, xs) == xs
  {
    if xs != [] {
      KeptAll(p, xs[1..]);
    }
  }

  lemma SortedCounts(xs: seq<real>, i: nat)
    requires Ordered(Smaller(), xs) && i < |xs|
    ensures |Kept(AtMost(xs[i]), xs)| >= i + 1 && |Kept(AtLeast(xs[i]), xs)| >= |xs| - i
  {
    assert xs == xs[..i + 1] + xs[i + 1..] && xs == xs[..i] + xs[i..];
    KeptConcat(AtMost(xs[i]), xs[..i + 1], xs[i + 1..]);
    KeptConcat(AtLeast(xs[i]), xs[..i], xs[i..]);
    var low, high := xs[..i + 1], xs[i..];
    forall j | 0 <= j < |low|
      ensures low[j] <= xs[i]
    {
      assert j < i ==> !Smaller()(xs[i], xs[j]);
    }
    forall j | 0 <= j < |high|
      ensures high[j] >= xs[i]
    {
      assert j > 0 ==> !Smaller()(xs[i + j], xs[i]);
    }
    KeptAll(AtMost(xs[i]), xs[..i + 1]);
    KeptAll(AtLeast(xs[i]), xs[i..]);
  }

  /** A percentile is one of the values, with `i` others at or below it and the rest at or above, where
      `i` is the whole number nearest to the fraction `q` of the way from the first to the last; halfway
      between two it is the even one. */
  lemma PercentileCounts(values: seq<real>, q: real) returns (i: nat)
    requires values != [] && 0.0 <= q <= 1.0
    ensures var v := Percentile(values, q).value;
            && i < |values| && v in values
            && |Kept(AtMost(v), values)| >= i + 1 && |Kept(AtLeast(v), values)| >= |values| - i
    ensures var exact := Scaled(q, |values| - 1);
            && -0.5 <= i as real - exact <= 0.5
            && (i as real - exact == 0.5 || exact - i as real == 0.5 ==> i % 2 == 0)
  {
    hide Sort, Kept, Ordered;
    var sorted := Sort(Smaller(), values);
    SortPermutes(Smaller(), values);
    SmallerIsWeak();
    SortOrders(Smaller(), values);
    var n := |values|;
    ScaledBound(q, n - 1);
    i := RankIsNearest(n, q);
    SortedCounts(sorted, i);
    var v := sorted[i];
    assert v in multiset(sorted);
    KeptPermuted(AtMost(v), sorted, values);
    KeptPermuted(AtLeast(v), sorted, values);
    SameSize(Kept(AtMost(v), sorted), Kept(AtMost(v), values));
    SameSize(Kept(AtLeast(v), sorted), Kept(AtLeast(v), values));
  }

  lemma SameSize(xs: seq<real>, ys: seq<real>)
    requires multiset(xs) == multiset(ys)
    ensures |xs| == |ys|
  {
    assert |multiset(xs)| == |xs| && |multiset(ys)| == |ys|;
  }

  lemma ScaledBound(q: real, n: nat)
    requires 0.0 <= q <= 1.0
    ensures Scaled(q, n) <= n as real
  {
    assert (1.0 - q) * n as real >= 0.0;
  }

  lemma RankIsNearest(n: nat, q: real) returns (i: nat)
    requires n > 0 && q >= 0.0 && Scaled(q, n - 1) <= (n - 1) as real
    ensures i == Rank(n, q)
    ensures var exact := Scaled(q, n - 1);
            && -0.5 <= i as real - exact <= 0.5
            && (i as real - exact == 0.5 || exact - i as real == 0.5 ==> i % 2 == 0)
  {
    hide Scaled;
    i := Rank(n, q);
    NearestFits(Scaled(q, n - 1), n - 1);
  }

  lemma NearestFits(x: real, n: nat)
    requires 0.0 <= x <= n as real
    ensures Round(x) <= n
    ensures -0.5 <= Round(x) as real - x <= 0.5
    ensures Round(x) as real - x == 0.5 || x - Round(x) as real == 0.5 ==> Round(x) % 2 == 0
  {
  }

  // ----- the correlation -----

  function Line(ys: seq<real>, a: real, b: real): (zs: seq<real>)
    ensures |zs| == |ys|
  {
    seq(|ys|, i requires 0 <= i < |ys| => a * ys[i] + b)
  }

  lemma LineRest(ys: seq<real>, a: real, b: real)
    requires ys != []
    ensures Line(ys, a, b)[1..] == Line(ys[1..], a, b)
  {
    var rest, zs := ys[1..], Line(ys, a, b)[1..];
    forall i | 0 <= i < |rest|
      ensures zs[i] == Line(rest, a, b)[i]
    {
      assert zs[i] == a * ys[i + 1] + b;
    }
  }

  lemma {:induction false} LineSum(ys: seq<real>, a: real, b: real)
    ensures Sum(Line(ys, a, b)) == a * Sum(ys) + |ys| as real * b
  {
    if ys != [] {
      LineSum(ys[1..], a, b);
      LineRest(ys, a, b);
      assert Sum(Line(ys, a, b)) == (a * ys[0] + b) + Sum(Line(ys[1..], a, b));
      LineStep(a, b, ys[0], Sum(ys[1..]), |ys| - 1);
    }
  }

  lemma LineStep(a: real, b: real, y: real, s: real, n: nat)
    ensures a * y + b + (a * s + n as real * b) == a * (y + s) + (n + 1) as real * b
  {
  }

  lemma LineDeviations(ys: seq<real>, a: real, b: real)
    requires ys != []
    ensures M.Deviations(Line(ys, a, b)) == Line(M.Deviations(ys), a, 0.0)
  {
    hide Sum;
    var zs, n := Line(ys, a, b), |ys| as real;
    LineSum(ys, a, b);
    LineMean(a, b, Sum(ys), n);
    assert M.Mean(zs) == a * M.Mean(ys) + b;
    forall i | 0 <= i < |ys|
      ensures M.Deviations(zs)[i] == Line(M.Deviations(ys), a, 0.0)[i]
    {
      LineDeviation(a, b, ys[i], M.Mean(ys));
    }
  }

  lemma LineMean(a: real, b: real, s: real, n: real)
    requires n > 0.0
    ensures (a * s + n * b) / n == a * (s / n) + b
  {
    var m := s / n;
    assert m * n == s;
    assert (a * m + b) * n == a * s + n * b;
  }

  lemma LineDeviation(a: real, b: real, y: real, m: real)
    ensures (a * y + b) - (a * m + b) == a * (y - m) + 0.0
  {
  }

  lemma {:induction false} DotScaled(xs: seq<real>, ys: seq<real>, a: real)
    requires |xs| == |ys|
    ensures M.Dot(xs, Line(ys, a, 0.0)) == a * M.Dot(xs, ys)
  {
    if xs != [] {
      DotScaled(xs[1..], ys[1..], a);
      LineRest(ys, a, 0.0);
      DotStepScaled(a, xs[0], ys[0], M.Dot(xs[1..], ys[1..]));
    }
  }

  lemma DotStepScaled(a: real, x: real, y: real, d: real)
    ensures x * (a * y + 0.0) + a * d == a * (x * y + d)
  {
  }

  lemma {:induction false} DotScaledLeft(xs: seq<real>, ys: seq<real>, a: real)
    requires |xs| == |ys|
    ensures M.Dot(Line(xs, a, 0.0), ys) == a * M.Dot(xs, ys)
  {
    if xs != [] {
      DotScaledLeft(xs[1..], ys[1..], a);
      LineRest(xs, a, 0.0);
      DotStepScaled(a, ys[0], xs[0], M.Dot(xs[1..], ys[1..]));
    }
  }

  /** The correlation does not see scale or origin, and sees direction: an increasing line of a series
      leaves r as it is, a decreasing one turns its sign. */
  lemma LinesKeepR(xs: seq<real>, ys: seq<real>, a: real, b: real, x: real, y: real, r: real)
    requires Pearson(xs, ys).Some? && a != 0.0 && IsValue(Pearson(xs, ys).value, x, y, r)
    ensures Pearson(xs, Line(ys, a, b)).Some?
    ensures IsValue(Pearson(xs, Line(ys, a, b)).value, x, (if a > 0.0 then a else -a) * y, if a > 0.0 then r else -r)
  {
    hide M.Dot, M.Deviations;
    var dx, dy := M.Deviations(xs), M.Deviations(ys);
    LineDeviations(ys, a, b);
    DotScaled(dx, dy, a);
    DotScaled(Line(dy, a, 0.0), dy, a);
    DotScaledLeft(dy, dy, a);
    LineValue(M.Dot(dx, dx), M.Dot(dy, dy), M.Dot(dx, dy), a, x, y, r);
  }

  lemma LineValue(sx: real, sy: real, c: real, a: real, x: real, y: real, r: real)
    requires a != 0.0 && x > 0.0 && y > 0.0 && x * x == sx && y * y == sy && r * (x * y) == c
    ensures a * (a * sy) != 0.0
    ensures var y', r' := (if a > 0.0 then a else -a) * y, if a > 0.0 then r else -r;
            y' > 0.0 && y' * y' == a * (a * sy) && r' * (x * y') == a * c
  {
    var k := if a > 0.0 then a else -a;
    assert k * k == a * a;
    assert (k * y) * (k * y) == (k * k) * (y * y);
    assert (k * k) * (y * y) > 0.0;
    var xy := x * y;
    assert x * (k * y) == k * xy;
    assert r * (k * xy) == k * c;
  }

  /** A series correlates with itself fully; with lines of itself, so does every increasing one. */
  lemma RIsOneWithItself(xs: seq<real>, x: real, y: real, r: real)
    requires Pearson(xs, xs).Some? && IsValue(Pearson(xs, xs).value, x, y, r)
    ensures r == 1.0
  {
    hide M.Dot, M.Deviations;
    var s := M.Dot(M.Deviations(xs), M.Deviations(xs));
    SameRoot(x, y, s);
    assert (r - 1.0) * s == 0.0;
  }

  lemma SameRoot(x: real, y: real, s: real)
    requires x > 0.0 && y > 0.0 && x * x == s && y * y == s
    ensures x == y && x * y == s && s > 0.0
  {
    assert (x - y) * (x + y) == 0.0;
  }

  // ----- hits by any call -----

  /** There is a hit by any call exactly if some search brought back a chunk from an expected source. */
  lemma AnyHitIsOfSomeCall(expected: seq<string>, rs: seq<Retrieved>)
    ensures AnyCallHit(expected, rs) <==> exists index: nat :: FoundByCall(expected, rs, index, |rs|)
  {
    if AnyCallHit(expected, rs) {
      var i, j :| 0 <= i < |rs| && 0 <= j < |expected| && expected[j] <= rs[i].sourcePath;
      assert AmongFirst(rs, i, |rs|);
      assert FoundByCall(expected, rs, rs[i].callIndex, |rs|);
    }
  }
}
