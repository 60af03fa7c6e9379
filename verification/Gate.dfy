/** eval/gate.py over eval/db.py: gating a stored run reports what the run itself reported. */
module Gate {
  import opened Wrappers
  import opened Aggregates
  import opened Metrics
  import opened OrderFree
  import opened RealAlgebra

  /** The columns of `eval_results` the gate selects. */
  datatype Row = Row(
    hit: Option<bool>, citation: Option<bool>, faithfulness: Option<int>, quality: Option<int>,
    lenTokens: Option<int>, latency: real, cost: Option<real>, hitSource: string, error: Option<string>,
    judgeParseOk: Option<bool>)

  // ----- money: `numeric(12, 6)` -----

  const MICRO := 1000000.0

  /** Rounding to the nearest integer, ties away from zero. */
  function Nearest(x: real): int { if x < 0.0 then -(-x + 0.5).Floor else (x + 0.5).Floor }

  function StoredCost(cost: real): real { Nearest(cost * MICRO) as real / MICRO }

  predicate WholeMicros(cost: real) { (cost * MICRO).Floor as real == cost * MICRO }

  lemma StoredCostFacts(cost: real)
    ensures -0.0000005 <= StoredCost(cost) - cost <= 0.0000005
    ensures StoredCost(cost) == cost <==> WholeMicros(cost)
  {
    hide Nearest;
    NearestFacts(cost * MICRO);
    assert StoredCost(cost) * MICRO == Nearest(cost * MICRO) as real;
  }

  lemma NearestFacts(x: real)
    ensures -0.5 <= Nearest(x) as real - x <= 0.5
    ensures Nearest(x) as real == x <==> x.Floor as real == x
  {
    FloorIsUnique(x, x.Floor);
    if x < 0.0 {
      var k := (-x + 0.5).Floor;
      FloorIsUnique(-x + 0.5, -x.Floor);
      FloorIsUnique(x, -k);
    } else {
      var k := (x + 0.5).Floor;
      FloorIsUnique(x + 0.5, x.Floor);
      FloorIsUnique(x, k);
    }
  }

  lemma FloorIsUnique(x: real, k: int)
    ensures k as real <= x < k as real + 1.0 <==> x.Floor == k
  {
    assert x.Floor as real <= x < x.Floor as real + 1.0;
  }

  function Project(): Outcome -> Row {
    (o: Outcome) =>
      Row(o.hit, o.citation, o.faithfulness, o.quality, Some(o.lenTokens), o.latency, Some(StoredCost(o.cost)),
        o.hitSource,
          o.error, o.judgeParseOk)
  }

  // ----- the table -----

  /** `eval_results`, by run and then by example. */
  type Table = map<nat, map<nat, Row>>

  function RowsOf(table: Table, run: nat): map<nat, Row> { if run in table then table[run] else map[] }

  /** PostgresSink: `golden` maps example keys to row ids; `next` is the serial of `eval_runs`. */
  class PostgresSink {
    const golden: map<string, nat>
    var next: nat
    var rows: Table
    var finished: map<nat, real>

    /** Runs are numbered as they are created, and only created runs have rows. */
    ghost predicate Valid()
      reads this
    {
      forall run :: run in rows || run in finished ==> run < next
    }

    constructor (ids: map<string, nat>)
      ensures Valid() && golden == ids && rows == map[] && finished == map[]
    {
      golden := ids;
      next, rows, finished := 1, map[], map[];
    }

    method CreateRun() returns (run: nat)
      requires Valid()
      modifies this`next
      ensures Valid() && run == old(next) && next == run + 1 && run !in rows && run !in finished
    {
      run := next;
      next := next + 1;
    }

    /** An unknown example raises; otherwise the row is inserted, or replaces the one it conflicts
        with on (run, example). */
    method WriteResult(run: nat, o: Outcome) returns (known: bool)
      requires Valid() && run < next
      modifies this`rows
      ensures Valid() && known == (o.key in golden)
      ensures rows == if known then old(rows)[run := RowsOf(old(rows), run)[golden[o.key] := Project()(o)]]
              else old(rows)
    {
      known := o.key in golden;
      if known {
        rows := rows[run := RowsOf(rows, run)[golden[o.key] := Project()(o)]];
      }
    }

    method FinishRun(run: nat, totalCost: real)
      requires Valid() && run < next
      modifies this`finished
      ensures Valid() && finished == old(finished)[run := totalCost]
    {
      finished := finished[run := totalCost];
    }
  }

  /** The rows of a run after `outcomes` were written to it in turn. */
  function Stored(golden: map<string, nat>, outcomes: seq<Outcome>): map<nat, Row> {
    if outcomes == [] then map[]
    else
      var o := outcomes[|outcomes| - 1];
      var before := Stored(golden, outcomes[..|outcomes| - 1]);
      if o.key in golden then before[golden[o.key] := Project()(o)] else before
  }

  function RowAt(table: map<nat, Row>): nat -> Option<Row> {
    (id: nat) => if id in table then Some(table[id]) else None
  }

  /** `rows` are the rows of `table`, in the order of their ids `ids`. */
  ghost predicate Selected(table: map<nat, Row>, ids: seq<nat>, rows: seq<Row>) {
    && |ids| == |rows|
    && (forall i, j :: 0 <= i < j < |ids| ==> ids[i] < ids[j])
    && (forall id :: id in table <==> id in ids)
    && forall i :: 0 <= i < |ids| ==> ids[i] in table && rows[i] == table[ids[i]]
  }

  ghost predicate Injective(golden: map<string, nat>) {
    forall a, b :: a in golden && b in golden && golden[a] == golden[b] ==> a == b
  }

  ghost predicate Known(golden: map<string, nat>, outcomes: seq<Outcome>) {
    forall i :: 0 <= i < |outcomes| ==> outcomes[i].key in golden
  }

  ghost predicate DistinctKeys(outcomes: seq<Outcome>) {
    forall i, j :: 0 <= i < j < |outcomes| ==> outcomes[i].key != outcomes[j].key
  }

  function IdOf(golden: map<string, nat>): Outcome -> nat {
    (o: Outcome) => if o.key in golden then golden[o.key] else 0
  }

  lemma {:induction false} StoredKeys(golden: map<string, nat>, outcomes: seq<Outcome>, id: nat)
    requires Known(golden, outcomes)
    ensures id in Stored(golden, outcomes) <==> id in Mapped(IdOf(golden), outcomes)
  {
    if outcomes != [] {
      var n := |outcomes| - 1;
      StoredKeys(golden, outcomes[..n], id);
      assert outcomes == outcomes[..n] + [outcomes[n]];
      MappedConcat(IdOf(golden), outcomes[..n], [outcomes[n]]);
    }
  }

  lemma {:induction false} StoredRow(golden: map<string, nat>, outcomes: seq<Outcome>, i: nat)
    requires Known(golden, outcomes) && Injective(golden) && DistinctKeys(outcomes) && i < |outcomes|
    ensures RowAt(Stored(golden, outcomes))(IdOf(golden)(outcomes[i])) == Some(Project()(outcomes[i]))
  {
    var n := |outcomes| - 1;
    if i < n {
      StoredRow(golden, outcomes[..n], i);
      assert golden[outcomes[n].key] != golden[outcomes[i].key];
    }
  }

  lemma DistinctIds(golden: map<string, nat>, outcomes: seq<Outcome>)
    requires Known(golden, outcomes) && Injective(golden) && DistinctKeys(outcomes)
    ensures Distinct(Mapped(IdOf(golden), outcomes))
  {
  }

  function Wrapped(): Row -> Option<Row> { (r: Row) => Some(r) }

  lemma {:induction false} Unwrap(xs: seq<Row>, ys: seq<Row>)
    requires multiset(Mapped(Wrapped(), xs)) == multiset(Mapped(Wrapped(), ys))
    ensures multiset(xs) == multiset(ys)
  {
    forall r
      ensures multiset(xs)[r] == multiset(ys)[r]
    {
      WrappedCount(xs, r);
      WrappedCount(ys, r);
    }
  }

  lemma {:induction false} WrappedCount(xs: seq<Row>, r: Row)
    ensures multiset(Mapped(Wrapped(), xs))[Some(r)] == multiset(xs)[r]
  {
    if xs != [] {
      WrappedCount(xs[1..], r);
      assert xs == [xs[0]] + xs[1..];
      assert Mapped(Wrapped(), xs) == [Some(xs[0])] + Mapped(Wrapped(), xs[1..]);
    }
  }

  function Projected(): Outcome -> Option<Row> { (o: Outcome) => Some(Project()(o)) }

  /** With distinct keys, what is read back is what was written, in some order. */
  lemma RowsAreTheOutcomes(golden: map<string, nat>, outcomes: seq<Outcome>, ids: seq<nat>, rows: seq<Row>)
    requires Known(golden, outcomes) && Injective(golden) && DistinctKeys(outcomes)
    requires Selected(Stored(golden, outcomes), ids, rows)
    ensures multiset(rows) == multiset(Mapped(Project(), outcomes))
  {
    hide Stored, Known, Injective, Mapped;
    var table := Stored(golden, outcomes);
    var written := Mapped(IdOf(golden), outcomes);
    DistinctIds(golden, outcomes);
    forall id
      ensures id in ids <==> id in written
    {
      StoredKeys(golden, outcomes, id);
    }
    SameElements(ids, written);
    MappedPermuted(RowAt(table), ids, written);
    assert Mapped(RowAt(table), ids) == Mapped(Wrapped(), rows);
    forall i | 0 <= i < |outcomes|
      ensures RowAt(table)(IdOf(golden)(outcomes[i])) == Projected()(outcomes[i])
    {
      StoredRow(golden, outcomes, i);
    }
    MappedMapped(RowAt(table), IdOf(golden), Projected(), outcomes);
    MappedMapped(Wrapped(), Project(), Projected(), outcomes);
    Unwrap(rows, Mapped(Project(), outcomes));
  }

  // ----- metrics of stored rows -----

  function RowScorable(): Row -> bool { (r: Row) => r.error.None? }

  function RowAnswerable(): Row -> bool { (r: Row) => r.hitSource != NOT_APPLICABLE }

  function RowFaithfulness(): Row -> Option<real> { (r: Row) => Number(r.faithfulness) }

  function RowQuality(): Row -> Option<real> { (r: Row) => Number(r.quality) }

  function RowHit(): Row -> Option<bool> { (r: Row) => r.hit }

  function RowCitation(): Row -> Option<bool> { (r: Row) => r.citation }

  function RowCost(): Row -> Option<real> { (r: Row) => r.cost }

  function RowLatency(): Row -> real { (r: Row) => r.latency }

  function RowSample(score: Row -> Option<int>): Row -> Sample {
    (r: Row) => (if r.lenTokens.None? then 0 else r.lenTokens.value, score(r))
  }

  function RowQualityScore(): Row -> Option<int> { (r: Row) => r.quality }

  function RowFaithfulnessScore(): Row -> Option<int> { (r: Row) => r.faithfulness }

  /** `metrics_from_rows`: three metrics are absent, because no column holds what they need. */
  function MetricsFromRows(rows: seq<Row>): Summary {
    var scorable := Kept(RowScorable(), rows);
    var answerable := Kept(RowAnswerable(), scorable);
    Summary(
      Mean(Mapped(RowFaithfulness(), scorable)),
      Mean(Mapped(RowQuality(), scorable)),
      Rate(Mapped(RowHit(), answerable), CountsAs(false)),
      Rate(Mapped(RowHit(), answerable), Excluded),
      None,
      None,
      Rate(Mapped(RowCitation(), scorable), CountsAs(false)),
      None,
      Mean(Mapped(RowCost(), scorable)),
      Percentile(Mapped(RowLatency(), scorable), 0.50),
      Percentile(Mapped(RowLatency(), scorable), 0.95),
      LengthR(Mapped(RowSample(RowQualityScore()), scorable)),
      LengthR(Mapped(RowSample(RowFaithfulnessScore()), scorable)))
  }

  lemma MappedRows<B>(f: Row -> B, xs: seq<Row>, ys: seq<Row>)
    requires multiset(xs) == multiset(ys)
    ensures multiset(Mapped(f, xs)) == multiset(Mapped(f, ys))
  {
    MappedPermuted(f, xs, ys);
  }

  /** The order in which the rows come back does not matter, to any metric. */
  lemma RowOrderIsIrrelevant(xs: seq<Row>, ys: seq<Row>)
    requires multiset(xs) == multiset(ys)
    ensures MetricsFromRows(xs) == MetricsFromRows(ys)
  {
    hide Kept, Mapped, Mean, Rate, Percentile, LengthR;
    var sx, sy := Kept(RowScorable(), xs), Kept(RowScorable(), ys);
    KeptPermuted(RowScorable(), xs, ys);
    KeptPermuted(RowAnswerable(), sx, sy);
    MeansAgree(sx, sy);
    RatesAgree(sx, sy, Kept(RowAnswerable(), sx), Kept(RowAnswerable(), sy));
    MappedRows(RowLatency(), sx, sy);
    PercentilePermuted(Mapped(RowLatency(), sx), Mapped(RowLatency(), sy), 0.50);
    PercentilePermuted(Mapped(RowLatency(), sx), Mapped(RowLatency(), sy), 0.95);
    MappedRows(RowSample(RowQualityScore()), sx, sy);
    MappedRows(RowSample(RowFaithfulnessScore()), sx, sy);
    LengthRPermuted(Mapped(RowSample(RowQualityScore()), sx), Mapped(RowSample(RowQualityScore()), sy));
    LengthRPermuted(Mapped(RowSample(RowFaithfulnessScore()), sx), Mapped(RowSample(RowFaithfulnessScore()), sy));
  }

  lemma MeansAgree(sx: seq<Row>, sy: seq<Row>)
    requires multiset(sx) == multiset(sy)
    ensures Mean(Mapped(RowFaithfulness(), sx)) == Mean(Mapped(RowFaithfulness(), sy))
    ensures Mean(Mapped(RowQuality(), sx)) == Mean(Mapped(RowQuality(), sy))
    ensures Mean(Mapped(RowCost(), sx)) == Mean(Mapped(RowCost(), sy))
  {
    hide Mapped, Mean;
    MappedRows(RowFaithfulness(), sx, sy);
    MappedRows(RowQuality(), sx, sy);
    MappedRows(RowCost(), sx, sy);
    MeanPermuted(Mapped(RowFaithfulness(), sx), Mapped(RowFaithfulness(), sy));
    MeanPermuted(Mapped(RowQuality(), sx), Mapped(RowQuality(), sy));
    MeanPermuted(Mapped(RowCost(), sx), Mapped(RowCost(), sy));
  }

  lemma RatesAgree(sx: seq<Row>, sy: seq<Row>, ax: seq<Row>, ay: seq<Row>)
    requires multiset(sx) == multiset(sy) && multiset(ax) == multiset(ay)
    ensures Rate(Mapped(RowHit(), ax), CountsAs(false)) == Rate(Mapped(RowHit(), ay), CountsAs(false))
    ensures Rate(Mapped(RowHit(), ax), Excluded) == Rate(Mapped(RowHit(), ay), Excluded)
    ensures Rate(Mapped(RowCitation(), sx), CountsAs(false)) == Rate(Mapped(RowCitation(), sy), CountsAs(false))
  {
    hide Mapped, Rate;
    MappedRows(RowHit(), ax, ay);
    MappedRows(RowCitation(), sx, sy);
    RatePermuted(Mapped(RowHit(), ax), Mapped(RowHit(), ay), CountsAs(false));
    RatePermuted(Mapped(RowHit(), ax), Mapped(RowHit(), ay), Excluded);
    RatePermuted(Mapped(RowCitation(), sx), Mapped(RowCitation(), sy), CountsAs(false));
  }

  // ----- two implementations, one result -----

  /** What both implementations compute; the money apart. */
  ghost predicate SameButCost(stored: Summary, live: Summary) {
    stored == live.(searchRate := None, anyCallHitRate := None, truncation := None, meanCost := stored.meanCost)
  }

  function StoredCostOf(): Outcome -> Option<real> { (o: Outcome) => Some(StoredCost(o.cost)) }

  lemma ProjectionKeepsMetrics(outcomes: seq<Outcome>)
    ensures SameButCost(MetricsFromRows(Mapped(Project(), outcomes)), MetricsOf(outcomes))
    ensures MetricsFromRows(Mapped(Project(), outcomes)).meanCost
            == Mean(Mapped(StoredCostOf(), Kept(Scorable(), outcomes)))
  {
    hide Kept, Mapped, Mean, Rate, Percentile, LengthR, StoredCost;
    var scorable := Kept(Scorable(), outcomes);
    var answerable := Kept(Answerable(), scorable);
    KeptOfMapped(RowScorable(), Scorable(), Project(), outcomes);
    KeptOfMapped(RowAnswerable(), Answerable(), Project(), scorable);
    MappedMapped(RowFaithfulness(), Project(), FaithfulnessOf(), scorable);
    MappedMapped(RowQuality(), Project(), QualityOf(), scorable);
    MappedMapped(RowHit(), Project(), HitOf(), answerable);
    MappedMapped(RowCitation(), Project(), CitationOf(), scorable);
    MappedMapped(RowCost(), Project(), StoredCostOf(), scorable);
    MappedMapped(RowLatency(), Project(), LatencyOf(), scorable);
    MappedMapped(RowSample(RowQualityScore()), Project(), QualitySample(), scorable);
    MappedMapped(RowSample(RowFaithfulnessScore()), Project(), FaithfulnessSample(), scorable);
  }

  /** Gating a stored run gives what the run itself reported, for every metric both compute and in
      whatever order the rows come back, when no two outcomes share a key. */
  lemma StoredRunAgrees(golden: map<string, nat>, outcomes: seq<Outcome>, ids: seq<nat>, rows: seq<Row>)
    requires Known(golden, outcomes) && Injective(golden) && DistinctKeys(outcomes)
    requires Selected(Stored(golden, outcomes), ids, rows)
    ensures SameButCost(MetricsFromRows(rows), MetricsOf(outcomes))
    ensures MetricsFromRows(rows).meanCost == Mean(Mapped(StoredCostOf(), Kept(Scorable(), outcomes)))
  {
    hide *;
    RowsAreTheOutcomes(golden, outcomes, ids, rows);
    RowOrderIsIrrelevant(rows, Mapped(Project(), outcomes));
    ProjectionKeepsMetrics(outcomes);
  }

  lemma {:induction false} WholeCostsAreKept(os: seq<Outcome>)
    requires forall i :: 0 <= i < |os| ==> WholeMicros(os[i].cost)
    ensures Mapped(StoredCostOf(), os) == Mapped(CostOf(), os)
  {
    forall i | 0 <= i < |os|
      ensures StoredCostOf()(os[i]) == CostOf()(os[i])
    {
      StoredCostFacts(os[i].cost);
    }
  }

  /** The mean cost agrees too, when every cost is a whole number of millionths of a dollar. */
  lemma WholeCostsAgree(golden: map<string, nat>, outcomes: seq<Outcome>, ids: seq<nat>, rows: seq<Row>)
    requires Known(golden, outcomes) && Injective(golden) && DistinctKeys(outcomes)
    requires Selected(Stored(golden, outcomes), ids, rows)
    requires forall i :: 0 <= i < |outcomes| ==> WholeMicros(outcomes[i].cost)
    ensures MetricsFromRows(rows).meanCost == MetricsOf(outcomes).meanCost
  {
    hide Kept, MetricsFromRows, Selected, Stored, Mapped, Mean, Rate, Percentile, LengthR, WholeMicros;
    StoredRunAgrees(golden, outcomes, ids, rows);
    var scorable := Kept(Scorable(), outcomes);
    forall i | 0 <= i < |scorable|
      ensures WholeMicros(scorable[i].cost)
    {
      KeptElements(Scorable(), outcomes, scorable[i]);
      var j :| 0 <= j < |outcomes| && outcomes[j] == scorable[i];
    }
    WholeCostsAreKept(scorable);
  }

  /** `x` and `y` differ by at most `n` half-millionths. */
  predicate Within(x: real, y: real, n: nat) { -0.0000005 * n as real <= x - y <= 0.0000005 * n as real }

  lemma {:induction false} CostsDrift(os: seq<Outcome>)
    ensures |Present(Mapped(StoredCostOf(), os))| == |Present(Mapped(CostOf(), os))| == |os|
    ensures Within(Sum(Present(Mapped(StoredCostOf(), os))), Sum(Present(Mapped(CostOf(), os))), |os|)
  {
    if os != [] {
      CostsDrift(os[1..]);
      StoredCostFacts(os[0].cost);
      var xs, ys := Mapped(StoredCostOf(), os), Mapped(CostOf(), os);
      assert xs[1..] == Mapped(StoredCostOf(), os[1..]) && ys[1..] == Mapped(CostOf(), os[1..]);
      assert Present(xs)[1..] == Present(xs[1..]) && Present(ys)[1..] == Present(ys[1..]);
    }
  }

  lemma MeanDrift(x: real, y: real, n: nat)
    requires n > 0 && Within(x, y, n)
    ensures -0.0000005 <= x / n as real - y / n as real <= 0.0000005
  {
    var k, a, b, c := n as real, x / n as real, y / n as real, 0.0000005;
    assert a * k == x && b * k == y;
    assert k * (c - (a - b)) == c * k - (x - y) && k * (c + (a - b)) == c * k + (x - y);
    PositiveFactor(k, c - (a - b));
    PositiveFactor(k, c + (a - b));
  }

  /** In general the stored mean cost is off by at most half a millionth of a dollar. */
  lemma MeanCostDriftIsBounded(golden: map<string, nat>, outcomes: seq<Outcome>, ids: seq<nat>, rows: seq<Row>)
    requires Known(golden, outcomes) && Injective(golden) && DistinctKeys(outcomes)
    requires Selected(Stored(golden, outcomes), ids, rows)
    ensures var stored, live := MetricsFromRows(rows).meanCost, MetricsOf(outcomes).meanCost;
            && (stored.None? <==> live.None?)
            && (stored.Some? ==> -0.0000005 <= stored.value - live.value <= 0.0000005)
  {
    hide Kept, MetricsFromRows, Selected, Stored, Mapped, Present, Sum, Rate, Percentile, LengthR;
    StoredRunAgrees(golden, outcomes, ids, rows);
    var scorable := Kept(Scorable(), outcomes);
    CostsDrift(scorable);
    if scorable != [] {
      MeanDrift(Sum(Present(Mapped(StoredCostOf(), scorable))), Sum(Present(Mapped(CostOf(), scorable))), |scorable|);
    }
  }

  // ----- when the mean cost survives storage -----

  /** The rows written report the mean cost that the run reported. */
  ghost predicate MeanCostSurvives(outcomes: seq<Outcome>) {
    MetricsFromRows(Mapped(Project(), outcomes)).meanCost == MetricsOf(outcomes).meanCost
  }

  /** Whatever order the stored rows come back in, they report what the rows written do. */
  lemma StoredMeanIsWritten(golden: map<string, nat>, outcomes: seq<Outcome>, ids: seq<nat>, rows: seq<Row>)
    requires Known(golden, outcomes) && Injective(golden) && DistinctKeys(outcomes)
    requires Selected(Stored(golden, outcomes), ids, rows)
    ensures MetricsFromRows(rows).meanCost == MetricsOf(outcomes).meanCost <==> MeanCostSurvives(outcomes)
  {
    hide MetricsFromRows, MetricsOf, Selected, Stored, Mapped;
    RowsAreTheOutcomes(golden, outcomes, ids, rows);
    RowOrderIsIrrelevant(rows, Mapped(Project(), outcomes));
  }

  /** What rounding adds to the costs of the outcomes that count. */
  function Drift(outcomes: seq<Outcome>): real {
    if outcomes == [] then 0.0
    else
      var o := outcomes[|outcomes| - 1];
      Drift(outcomes[..|outcomes| - 1]) + if o.error.None? then StoredCost(o.cost) - o.cost else 0.0
  }

  lemma PresentLast(f: Outcome -> Option<real>, os: seq<Outcome>, o: Outcome, x: real)
    requires f(o) == Some(x)
    ensures Present(Mapped(f, os + [o])) == Present(Mapped(f, os)) + [x]
    decreases os
  {
    if os == [] {
      assert os + [o] == [o] && Mapped(f, [o]) == [Some(x)] && [Some(x)][1..] == [];
      assert Present([Some(x)][1..]) == [];
    } else {
      assert (os + [o])[1..] == os[1..] + [o];
      PresentLast(f, os[1..], o, x);
      var xs, ys := Mapped(f, os + [o]), Mapped(f, os);
      assert xs[1..] == Mapped(f, os[1..] + [o]) && ys[1..] == Mapped(f, os[1..]);
    }
  }

  function StoredSum(outcomes: seq<Outcome>): real { Sum(Present(Mapped(StoredCostOf(), Kept(Scorable(), outcomes)))) }

  function LiveSum(outcomes: seq<Outcome>): real { Sum(Present(Mapped(CostOf(), Kept(Scorable(), outcomes)))) }

  lemma {:induction false} DriftIsTheDifference(outcomes: seq<Outcome>)
    ensures StoredSum(outcomes) - LiveSum(outcomes) == Drift(outcomes)
  {
    if outcomes != [] {
      var n := |outcomes| - 1;
      DriftIsTheDifference(outcomes[..n]);
      OneMoreSum(outcomes);
    }
  }

  lemma OneMoreSum(outcomes: seq<Outcome>)
    requires outcomes != []
    ensures var n := |outcomes| - 1;
            var o := outcomes[n];
            && StoredSum(outcomes) == StoredSum(outcomes[..n]) + (if o.error.None? then StoredCost(o.cost) else 0.0)
            && LiveSum(outcomes) == LiveSum(outcomes[..n]) + (if o.error.None? then o.cost else 0.0)
  {
    hide Kept, Mapped, Present, Sum, StoredCost;
    var n := |outcomes| - 1;
    var o, before := outcomes[n], Kept(Scorable(), outcomes[..n]);
    KeptLast(Scorable(), outcomes);
    assert Scorable()(o) <==> o.error.None?;
    assert Kept(Scorable(), outcomes) == if o.error.None? then before + [o] else before;
    if o.error.None? {
      PresentLast(StoredCostOf(), before, o, StoredCost(o.cost));
      PresentLast(CostOf(), before, o, o.cost);
      SumLast(Present(Mapped(StoredCostOf(), before)), StoredCost(o.cost));
      SumLast(Present(Mapped(CostOf(), before)), o.cost);
    }
  }

  lemma SumLast(xs: seq<real>, x: real)
    ensures Sum(xs + [x]) == Sum(xs) + x
  {
    SumConcat(xs, [x]);
    assert Sum([x]) == x;
  }

  /** For one run: the mean survives exactly when the roundings cancel out. */
  lemma SurvivesIffNoDrift(outcomes: seq<Outcome>)
    ensures MeanCostSurvives(outcomes) <==> Drift(outcomes) == 0.0
  {
    hide Kept, Mapped, Present, Sum, MetricsFromRows, Rate, Percentile, LengthR;
    ProjectionKeepsMetrics(outcomes);
    DriftIsTheDifference(outcomes);
    var scorable := Kept(Scorable(), outcomes);
    CostsDrift(scorable);
    if scorable != [] {
      SameQuotient(StoredSum(outcomes), LiveSum(outcomes), |scorable| as real);
    }
  }

  lemma SameQuotient(x: real, y: real, n: real)
    requires n > 0.0
    ensures x / n == y / n <==> x == y
  {
    assert x / n * n == x && y / n * n == y;
  }

  /** Wherever a run is cut short, its rows report its own mean cost, exactly if every cost that counts
      is a whole number of millionths. */
  lemma MeanCostsSurviveEveryCutIff(outcomes: seq<Outcome>)
    ensures (forall n :: 0 <= n <= |outcomes| ==> MeanCostSurvives(outcomes[..n]))
       <==> forall i :: 0 <= i < |outcomes| && outcomes[i].error.None? ==> WholeMicros(outcomes[i].cost)
  {
    hide MeanCostSurvives, StoredCost, WholeMicros;
    if forall n :: 0 <= n <= |outcomes| ==> MeanCostSurvives(outcomes[..n]) {
      forall i | 0 <= i < |outcomes| && outcomes[i].error.None?
        ensures WholeMicros(outcomes[i].cost)
      {
        SurvivesIffNoDrift(outcomes[..i]);
        SurvivesIffNoDrift(outcomes[..i + 1]);
        assert outcomes[..i + 1][..i] == outcomes[..i];
        StoredCostFacts(outcomes[i].cost);
      }
    }
    if forall i :: 0 <= i < |outcomes| && outcomes[i].error.None? ==> WholeMicros(outcomes[i].cost) {
      forall n | 0 <= n <= |outcomes|
        ensures MeanCostSurvives(outcomes[..n])
      {
        WholeCostsDoNotDrift(outcomes[..n]);
        SurvivesIffNoDrift(outcomes[..n]);
      }
    }
  }

  lemma {:induction false} WholeCostsDoNotDrift(outcomes: seq<Outcome>)
    requires forall i :: 0 <= i < |outcomes| && outcomes[i].error.None? ==> WholeMicros(outcomes[i].cost)
    ensures Drift(outcomes) == 0.0
  {
    if outcomes != [] {
      hide StoredCost, WholeMicros;
      var n := |outcomes| - 1;
      assert forall i :: 0 <= i < n ==> outcomes[..n][i] == outcomes[i];
      WholeCostsDoNotDrift(outcomes[..n]);
      StoredCostFacts(outcomes[n].cost);
    }
  }

  /** A single mean can survive costs that are not: here the two roundings cancel. */
  lemma RoundingsCanCancel(a: Outcome, b: Outcome)
    requires a.error.None? && b.error.None? && a.cost == 0.0000004 && b.cost == 0.0000006
    ensures MeanCostSurvives([a, b]) && !WholeMicros(a.cost) && !WholeMicros(b.cost)
  {
    hide MeanCostSurvives;
    assert [a, b][..1] == [a] && [a][..0] == [];
    assert Drift([a][..0]) == 0.0;
    assert StoredCost(a.cost) == 0.0 && StoredCost(b.cost) == 0.000001;
    assert Drift([a]) == -0.0000004;
    SurvivesIffNoDrift([a, b]);
  }

  // ----- where costs come from (services/gateway/pricing.py) -----

  /** `cost_usd`, from prices per million tokens. */
  function CostUsd(input: real, output: real, prompt: nat, completion: nat): real {
    (prompt as real * input + completion as real * output) / MICRO
  }

  predicate Whole(price: real) { price.Floor as real == price }

  /** Every call costs a whole number of millionths exactly if both prices are whole numbers of
      dollars per million tokens; so no rounding shows until some price has a fraction. */
  lemma CostsAreWholeIffPricesAre(input: real, output: real)
    ensures (forall p: nat, c: nat :: WholeMicros(CostUsd(input, output, p, c))) <==> Whole(input) && Whole(output)
  {
    if forall p: nat, c: nat :: WholeMicros(CostUsd(input, output, p, c)) {
      assert WholeMicros(CostUsd(input, output, 1, 0)) && WholeMicros(CostUsd(input, output, 0, 1));
      assert CostUsd(input, output, 1, 0) * MICRO == input && CostUsd(input, output, 0, 1) * MICRO == output;
    }
    if Whole(input) && Whole(output) {
      forall p: nat, c: nat
        ensures WholeMicros(CostUsd(input, output, p, c))
      {
        WholeCall(input.Floor, output.Floor, p, c);
      }
    }
  }

  lemma WholeCall(input: int, output: int, p: nat, c: nat)
    ensures WholeMicros(CostUsd(input as real, output as real, p, c))
  {
    var k := p * input + c * output;
    assert k as real == p as real * input as real + c as real * output as real;
    assert CostUsd(input as real, output as real, p, c) * MICRO == k as real;
    FloorIsUnique(k as real, k);
  }

  // ----- why keys must be distinct -----

  /** A stored run has as many rows as the run had outcomes exactly when no key came twice. */
  lemma {:induction false} RowsAreLostIffKeysRepeat(golden: map<string, nat>, outcomes: seq<Outcome>)
    requires Known(golden, outcomes) && Injective(golden)
    ensures |Stored(golden, outcomes)| <= |outcomes|
    ensures |Stored(golden, outcomes)| == |outcomes| <==> DistinctKeys(outcomes)
  {
    if outcomes != [] {
      var n := |outcomes| - 1;
      var o, before := outcomes[n], Stored(golden, outcomes[..n]);
      RowsAreLostIffKeysRepeat(golden, outcomes[..n]);
      StoredKeys(golden, outcomes[..n], golden[o.key]);
      var table := Stored(golden, outcomes);
      assert table == before[golden[o.key] := Project()(o)];
      assert table.Keys == before.Keys + {golden[o.key]};
      Sizes(before, table, golden[o.key]);
      KeyCameBefore(golden, outcomes);
    }
  }

  lemma Sizes(before: map<nat, Row>, after: map<nat, Row>, id: nat)
    requires after.Keys == before.Keys + {id}
    ensures |after| == |before| + if id in before then 0 else 1
  {
    assert |after| == |after.Keys| && |before| == |before.Keys|;
    assert id in before ==> after.Keys == before.Keys;
  }

  lemma KeyCameBefore(golden: map<string, nat>, outcomes: seq<Outcome>)
    requires outcomes != [] && Known(golden, outcomes) && Injective(golden)
    ensures var n := |outcomes| - 1;
            DistinctKeys(outcomes) <==>
              DistinctKeys(outcomes[..n]) && golden[outcomes[n].key] !in Mapped(IdOf(golden), outcomes[..n])
  {
    var n := |outcomes| - 1;
    var written := Mapped(IdOf(golden), outcomes[..n]);
    assert forall i :: 0 <= i < n ==> written[i] == golden[outcomes[i].key];
    if golden[outcomes[n].key] in written {
      var i :| 0 <= i < n && written[i] == golden[outcomes[n].key];
      assert outcomes[i].key == outcomes[n].key;
    }
    assert forall i :: 0 <= i < n ==> outcomes[..n][i] == outcomes[i];
    if golden[outcomes[n].key] !in written {
      assert forall i :: 0 <= i < n ==> written[i] != golden[outcomes[n].key];
    }
  }
}
