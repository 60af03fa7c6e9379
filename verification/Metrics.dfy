/** eval/metrics.py, and the summary RunSummary.metrics makes with it (eval/harness.py). */
module Metrics {
  import opened Wrappers
  import opened Aggregates
  import opened RealAlgebra
  import opened Rounding
  import opened Sorting
  import M = Moments

  // ----- retrieval hits -----

  datatype Retrieved = Retrieved(sourcePath: string, callIndex: nat)

  function LowestCall(rs: seq<Retrieved>): (low: nat)
    requires rs != []
    ensures forall i :: 0 <= i < |rs| ==> low <= rs[i].callIndex
    ensures exists i :: 0 <= i < |rs| && rs[i].callIndex == low
  {
    if |rs| == 1 then rs[0].callIndex
    else
      var rest := LowestCall(rs[1..]);
      assert forall i :: 1 <= i < |rs| ==> rs[1..][i - 1] == rs[i];
      if rs[0].callIndex < rest then rs[0].callIndex else rest
  }

  function OfCall(index: nat): Retrieved -> bool { (r: Retrieved) => r.callIndex == index }

  function FirstCall(rs: seq<Retrieved>): seq<Retrieved> {
    if rs == [] then [] else Kept(OfCall(LowestCall(rs)), rs)
  }

  predicate Matches(prefixes: seq<string>, rs: seq<Retrieved>) {
    exists i, j :: 0 <= i < |rs| && 0 <= j < |prefixes| && prefixes[j] <= rs[i].sourcePath
  }

  function HitAtK(expected: seq<string>, rs: seq<Retrieved>, k: nat, searched: bool): Option<bool> {
    var first := Take(FirstCall(rs), k);
    if first == [] && !searched then None else Some(Matches(expected, first))
  }

  function AnyCallHit(expected: seq<string>, rs: seq<Retrieved>): bool { Matches(expected, rs) }

  /** If nothing is retrieved without searching, a hit is undefined exactly when there was no
      search; and a hit among the first is a hit among all. */
  lemma HitIsUndefinedIffUnsearched(expected: seq<string>, rs: seq<Retrieved>, k: nat, searched: bool)
    requires rs != [] ==> searched
    ensures HitAtK(expected, rs, k, searched).None? <==> !searched
    ensures HitAtK(expected, rs, k, searched) == Some(true) ==> AnyCallHit(expected, rs)
  {
    var first := Take(FirstCall(rs), k);
    if Matches(expected, first) {
      var i, j :| 0 <= i < |first| && 0 <= j < |expected| && expected[j] <= first[i].sourcePath;
      assert first[i] in FirstCall(rs);
      KeptElements(OfCall(LowestCall(rs)), rs, first[i]);
    }
  }

  /** Chunk number `i` is among the first `k` of its own search. */
  predicate AmongFirst(rs: seq<Retrieved>, i: nat, k: nat)
    requires i < |rs|
  {
    |Kept(OfCall(rs[i].callIndex), rs[..i])| < k
  }

  /** Some chunk among the first `k` of search `index` came from an expected source. */
  predicate FoundByCall(expected: seq<string>, rs: seq<Retrieved>, index: nat, k: nat) {
    exists i, j :: 0 <= i < |rs| && 0 <= j < |expected| && rs[i].callIndex == index && AmongFirst(rs, i, k)
      && expected[j] <= rs[i].sourcePath
  }

  lemma KeptPlace(p: Retrieved -> bool, rs: seq<Retrieved>, i: nat)
    requires i < |rs| && p(rs[i])
    ensures |Kept(p, rs[..i])| < |Kept(p, rs)| && Kept(p, rs)[|Kept(p, rs[..i])|] == rs[i]
  {
    assert rs == rs[..i] + rs[i..];
    KeptConcat(p, rs[..i], rs[i..]);
  }

  lemma {:induction false} KeptSource(p: Retrieved -> bool, rs: seq<Retrieved>, place: nat) returns (i: nat)
    requires place < |Kept(p, rs)|
    ensures i < |rs| && p(rs[i]) && |Kept(p, rs[..i])| == place && Kept(p, rs)[place] == rs[i]
  {
    if p(rs[0]) && place == 0 {
      i := 0;
      assert rs[..0] == [];
    } else {
      var rest := KeptSource(p, rs[1..], if p(rs[0]) then place - 1 else place);
      i := rest + 1;
      assert rs[..i][1..] == rs[1..][..rest];
    }
  }

  lemma MatchesOfCall(expected: seq<string>, rs: seq<Retrieved>, index: nat, k: nat)
    ensures Matches(expected, Take(Kept(OfCall(index), rs), k)) <==> FoundByCall(expected, rs, index, k)
  {
    var own := Kept(OfCall(index), rs);
    if Matches(expected, Take(own, k)) {
      var n, j :| 0 <= n < |Take(own, k)| && 0 <= j < |expected| && expected[j] <= Take(own, k)[n].sourcePath;
      var i := KeptSource(OfCall(index), rs, n);
      assert AmongFirst(rs, i, k);
    }
    if FoundByCall(expected, rs, index, k) {
      var i, j :| 0 <= i < |rs| && 0 <= j < |expected| && rs[i].callIndex == index && AmongFirst(rs, i, k)
        && expected[j] <= rs[i].sourcePath;
      KeptPlace(OfCall(index), rs, i);
      assert Take(own, k)[|Kept(OfCall(index), rs[..i])|] == rs[i];
    }
  }

  /** A first search that brought something back is never undefined: it is a hit exactly when some
      chunk among its first `k` came from an expected source, whatever later searches found. */
  lemma HitScoresTheFirstSearch(expected: seq<string>, rs: seq<Retrieved>, k: nat, searched: bool)
    requires rs != [] && (k >= 1 || searched)
    ensures HitAtK(expected, rs, k, searched) == Some(FoundByCall(expected, rs, LowestCall(rs), k))
  {
    hide Matches, FoundByCall;
    var low := LowestCall(rs);
    var w :| 0 <= w < |rs| && rs[w].callIndex == low;
    KeptElements(OfCall(low), rs, rs[w]);
    MatchesOfCall(expected, rs, low, k);
  }

  // ----- aggregation -----

  function Present<A>(values: seq<Option<A>>): seq<A> {
    if values == [] then []
    else (if values[0].Some? then [values[0].value] else []) + Present(values[1..])
  }

  function Mean(values: seq<Option<real>>): Option<real> {
    var present := Present(values);
    if present == [] then None else Some(Sum(present) / |present| as real)
  }

  function Trues(values: seq<bool>): nat {
    if values == [] then 0 else (if values[0] then 1 else 0) + Trues(values[1..])
  }

  function Filled(value: bool): Option<bool> -> bool { (v: Option<bool>) => if v.None? then value else v.value }

  /** What an undefined value counts as. */
  datatype NonePolicy = Excluded | CountsAs(value: bool)

  function Considered(values: seq<Option<bool>>, policy: NonePolicy): seq<bool> {
    match policy
    case Excluded => Present(values)
    case CountsAs(value) => Mapped(Filled(value), values)
  }

  function Rate(values: seq<Option<bool>>, policy: NonePolicy): Option<real> {
    var considered := Considered(values, policy);
    if considered == [] then None else Some(Trues(considered) as real / |considered| as real)
  }

  // ----- the correlation -----

  /** The exact value `covariance / (sqrt(spreadX) * sqrt(spreadY))`, its roots not taken. */
  datatype Correlation = Correlation(covariance: real, spreadX: real, spreadY: real)

  /** `r` is the number that `c` stands for, `x` and `y` being the two roots. */
  ghost predicate IsValue(c: Correlation, x: real, y: real, r: real) {
    x > 0.0 && y > 0.0 && x * x == c.spreadX && y * y == c.spreadY && r * (x * y) == c.covariance
  }

  /** The product of two square roots is zero exactly when one of the radicands is. */
  function Pearson(xs: seq<real>, ys: seq<real>): Option<Correlation> {
    if |xs| != |ys| || |xs| < 2 then None
    else
      var dx, dy := M.Deviations(xs), M.Deviations(ys);
      var sx, sy := M.Dot(dx, dx), M.Dot(dy, dy);
      if sx == 0.0 || sy == 0.0 then None else Some(Correlation(M.Dot(dx, dy), sx, sy))
  }

  /** Undefined exactly for bad lengths or a constant series. */
  lemma PearsonIsUndefinedIff(xs: seq<real>, ys: seq<real>)
    ensures Pearson(xs, ys).None? <==> |xs| != |ys| || |xs| < 2 || M.Constant(xs) || M.Constant(ys)
  {
    if |xs| == |ys| && |xs| >= 2 {
      M.NoSpreadIffConstant(xs);
      M.NoSpreadIffConstant(ys);
    }
  }

  lemma PearsonObeysCauchySchwarz(xs: seq<real>, ys: seq<real>)
    requires Pearson(xs, ys).Some?
    ensures var c := Pearson(xs, ys).value;
            c.spreadX >= 0.0 && c.spreadY >= 0.0 && Square(c.covariance) <= c.spreadX * c.spreadY
  {
    hide M.Dot, M.Deviations, Square;
    var dx, dy := M.Deviations(xs), M.Deviations(ys);
    M.DotSelf(dx);
    M.DotSelf(dy);
    M.CauchySchwarz(dx, dy);
  }

  /** Whenever Pearson's r is defined, it lies between -1 and 1. */
  lemma PearsonIsBounded(xs: seq<real>, ys: seq<real>, x: real, y: real, r: real)
    requires Pearson(xs, ys).Some? && IsValue(Pearson(xs, ys).value, x, y, r)
    ensures -1.0 <= r <= 1.0
  {
    hide Pearson;
    PearsonObeysCauchySchwarz(xs, ys);
    var c := Pearson(xs, ys).value;
    BoundedRatio(c.spreadX, c.spreadY, c.covariance, c.spreadX * c.spreadY, x, y, r);
  }

  // ----- percentiles -----

  function Min(a: int, b: int): int { if a < b then a else b }

  function Scaled(q: real, n: nat): (x: real)
    requires q >= 0.0
    ensures x >= 0.0
  {
    q * n as real
  }

  function Rank(n: nat, q: real): (i: nat)
    requires n > 0 && q >= 0.0
    ensures i < n
  {
    RoundBounds(Scaled(q, n - 1));
    Min(n - 1, Round(Scaled(q, n - 1)))
  }

  function Percentile(values: seq<real>, q: real): (v: Option<real>)
    requires q >= 0.0
    ensures v.None? <==> values == []
  {
    SortPermutes(Smaller(), values);
    if values == [] then None else Some(Sort(Smaller(), values)[Rank(|values|, q)])
  }

  // ----- the summary -----

  const NOT_APPLICABLE := "n/a"

  const OBSERVED := "observed"

  datatype Outcome = Outcome(
    key: string, hit: Option<bool>, citation: Option<bool>, faithfulness: Option<int>, quality: Option<int>,
    lenTokens: int, latency: real, cost: real, hitSource: string, error: Option<string>,
    judgeParseOk: Option<bool>, searched: bool, anyCallHit: bool, truncated: bool)

  datatype Summary = Summary(
    faithfulness: Option<real>, quality: Option<real>,
    hitAt5: Option<real>, hitAt5GivenSearch: Option<real>, searchRate: Option<real>, anyCallHitRate: Option<real>,
    citationOk: Option<real>, truncation: Option<real>, meanCost: Option<real>,
    p50: Option<real>, p95: Option<real>, lengthQuality: Option<Correlation>, lengthFaithfulness: Option<Correlation>)

  function Number(v: Option<int>): Option<real> { if v.None? then None else Some(v.value as real) }

  type Sample = (int, Option<int>)

  predicate Measured(s: Sample) { s.1.Some? && s.0 != 0 }

  function MeasuredOnly(): Sample -> bool { (s: Sample) => Measured(s) }

  function Length(): Sample -> real { (s: Sample) => s.0 as real }

  function Score(): Sample -> real { (s: Sample) => if s.1.None? then 0.0 else s.1.value as real }

  /** `_length_r`: answer length against score, over the answers that have both. */
  function LengthR(samples: seq<Sample>): Option<Correlation> {
    var pairs := Kept(MeasuredOnly(), samples);
    if |pairs| < 2 then None else Pearson(Mapped(Length(), pairs), Mapped(Score(), pairs))
  }

  function Scorable(): Outcome -> bool { (o: Outcome) => o.error.None? }

  function Answerable(): Outcome -> bool { (o: Outcome) => o.hitSource != NOT_APPLICABLE }

  function FaithfulnessOf(): Outcome -> Option<real> { (o: Outcome) => Number(o.faithfulness) }

  function QualityOf(): Outcome -> Option<real> { (o: Outcome) => Number(o.quality) }

  function HitOf(): Outcome -> Option<bool> { (o: Outcome) => o.hit }

  function SearchedOf(): Outcome -> Option<bool> { (o: Outcome) => Some(o.searched) }

  function AnyCallHitOf(): Outcome -> Option<bool> { (o: Outcome) => Some(o.anyCallHit) }

  function CitationOf(): Outcome -> Option<bool> { (o: Outcome) => o.citation }

  function TruncatedOf(): Outcome -> Option<bool> { (o: Outcome) => Some(o.truncated) }

  function CostOf(): Outcome -> Option<real> { (o: Outcome) => Some(o.cost) }

  function LatencyOf(): Outcome -> real { (o: Outcome) => o.latency }

  function QualitySample(): Outcome -> Sample { (o: Outcome) => (o.lenTokens, o.quality) }

  function FaithfulnessSample(): Outcome -> Sample { (o: Outcome) => (o.lenTokens, o.faithfulness) }

  /** RunSummary.metrics. */
  function MetricsOf(outcomes: seq<Outcome>): Summary {
    var scorable := Kept(Scorable(), outcomes);
    var answerable := Kept(Answerable(), scorable);
    Summary(
      Mean(Mapped(FaithfulnessOf(), scorable)),
      Mean(Mapped(QualityOf(), scorable)),
      Rate(Mapped(HitOf(), answerable), CountsAs(false)),
      Rate(Mapped(HitOf(), answerable), Excluded),
      Rate(Mapped(SearchedOf(), answerable), CountsAs(false)),
      Rate(Mapped(AnyCallHitOf(), answerable), CountsAs(false)),
      Rate(Mapped(CitationOf(), scorable), CountsAs(false)),
      Rate(Mapped(TruncatedOf(), scorable), CountsAs(false)),
      Mean(Mapped(CostOf(), scorable)),
      Percentile(Mapped(LatencyOf(), scorable), 0.50),
      Percentile(Mapped(LatencyOf(), scorable), 0.95),
      LengthR(Mapped(QualitySample(), scorable)),
      LengthR(Mapped(FaithfulnessSample(), scorable)))
  }

  // ----- the hit rate family -----

  /** What a scored answerable example looks like when nothing is retrieved without searching. */
  ghost predicate Honest(o: Outcome) {
    (o.hit.None? <==> !o.searched) && (o.hit == Some(true) ==> o.anyCallHit)
  }

  function HitCount(os: seq<Outcome>): nat {
    if os == [] then 0 else (if os[0].hit == Some(true) then 1 else 0) + HitCount(os[1..])
  }

  function SearchCount(os: seq<Outcome>): nat {
    if os == [] then 0 else (if os[0].searched then 1 else 0) + SearchCount(os[1..])
  }

  function AnyHitCount(os: seq<Outcome>): nat {
    if os == [] then 0 else (if os[0].anyCallHit then 1 else 0) + AnyHitCount(os[1..])
  }

  lemma {:induction false} HitCounts(os: seq<Outcome>)
    ensures Trues(Mapped(Filled(false), Mapped(HitOf(), os))) == HitCount(os)
    ensures Trues(Present(Mapped(HitOf(), os))) == HitCount(os)
  {
    if os != [] {
      HitCounts(os[1..]);
      var hits := Mapped(HitOf(), os);
      assert hits[0] == os[0].hit && hits[1..] == Mapped(HitOf(), os[1..]);
      if hits[0].Some? {
        assert Present(hits)[1..] == Present(hits[1..]);
      } else {
        assert Present(hits) == Present(hits[1..]);
      }
    }
  }

  lemma {:induction false} FlagCounts(os: seq<Outcome>)
    ensures Trues(Mapped(Filled(false), Mapped(SearchedOf(), os))) == SearchCount(os)
    ensures Trues(Mapped(Filled(false), Mapped(AnyCallHitOf(), os))) == AnyHitCount(os)
  {
    if os != [] {
      FlagCounts(os[1..]);
    }
  }

  lemma {:induction false} HonestCounts(os: seq<Outcome>)
    requires forall i :: 0 <= i < |os| ==> Honest(os[i])
    ensures |Present(Mapped(HitOf(), os))| == SearchCount(os)
    ensures HitCount(os) <= AnyHitCount(os) && HitCount(os) <= SearchCount(os)
  {
    if os != [] {
      assert Honest(os[0]);
      assert forall i :: 0 <= i < |os[1..]| ==> os[1..][i] == os[i + 1];
      HonestCounts(os[1..]);
    }
  }

  function Scored(outcomes: seq<Outcome>): seq<Outcome> { Kept(Answerable(), Kept(Scorable(), outcomes)) }

  lemma FamilyOfRates(outcomes: seq<Outcome>)
    ensures var os, m := Scored(outcomes), MetricsOf(outcomes);
            && m.hitAt5 == (if os == [] then None else Some(HitCount(os) as real / |os| as real))
            && m.searchRate == (if os == [] then None else Some(SearchCount(os) as real / |os| as real))
            && m.anyCallHitRate == (if os == [] then None else Some(AnyHitCount(os) as real / |os| as real))
            && m.hitAt5GivenSearch
               == (var asked := |Present(Mapped(HitOf(), os))|; if asked == 0 then None
                 else Some(HitCount(os) as real / asked as real))
  {
    hide HitCount, SearchCount, AnyHitCount, Kept, Trues, Mean, Percentile, LengthR, Mapped, Present;
    HitCounts(Scored(outcomes));
    FlagCounts(Scored(outcomes));
  }

  /** Hit rate is hit rate given a search, times search rate, and 0 when nobody searched; and it is
      never more than the rate of hits by any call. All are undefined together, when nothing was
      answerable. */
  lemma HitRatesFactor(outcomes: seq<Outcome>)
    requires forall i :: 0 <= i < |outcomes| && outcomes[i].error.None? && outcomes[i].hitSource != NOT_APPLICABLE ==>
             Honest(outcomes[i])
    ensures var m := MetricsOf(outcomes);
            && (m.hitAt5.None? <==> m.searchRate.None?) && (m.hitAt5.None? <==> m.anyCallHitRate.None?)
            && (m.hitAt5.Some? ==>
                  && m.hitAt5.value <= m.anyCallHitRate.value
                  && (m.hitAt5GivenSearch.None? <==> m.searchRate.value == 0.0)
                  && m.hitAt5.value == if m.hitAt5GivenSearch.None? then 0.0
                     else m.hitAt5GivenSearch.value * m.searchRate.value)
  {
    hide MetricsOf, Kept, HitCount, SearchCount, AnyHitCount, Honest;
    var os := Scored(outcomes);
    ScoredAreHonest(outcomes);
    HonestCounts(os);
    FamilyOfRates(outcomes);
    if os != [] {
      var n, h, s, a := |os| as real, HitCount(os) as real, SearchCount(os) as real, AnyHitCount(os) as real;
      SmallerShare(h, a, n);
      if s != 0.0 {
        Proportions(h, s, n);
      }
    }
  }

  lemma ScoredAreHonest(outcomes: seq<Outcome>)
    requires forall i :: 0 <= i < |outcomes| && outcomes[i].error.None? && outcomes[i].hitSource != NOT_APPLICABLE ==>
             Honest(outcomes[i])
    ensures forall i :: 0 <= i < |Scored(outcomes)| ==> Honest(Scored(outcomes)[i])
  {
    var os := Scored(outcomes);
    forall i | 0 <= i < |os|
      ensures Honest(os[i])
    {
      KeptElements(Answerable(), Kept(Scorable(), outcomes), os[i]);
      KeptElements(Scorable(), outcomes, os[i]);
      var j :| 0 <= j < |outcomes| && outcomes[j] == os[i];
    }
  }
}
