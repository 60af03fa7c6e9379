/** eval/label.py: the stratified sample drawn for human labelling. */
module Sampler {
  import opened Aggregates
  import opened Sorting

  datatype LabelRow = LabelRow(resultId: nat, exampleKey: string)

  type Stratum = seq<string>

  type Strata = map<nat, Stratum>

  /** `keys_by_stratum.get(row.eval_result_id, ())`. */
  function StratumOf(strata: Strata, row: LabelRow): Stratum {
    if row.resultId in strata then strata[row.resultId] else []
  }

  function InStratum(strata: Strata, s: Stratum): LabelRow -> bool { (row: LabelRow) => StratumOf(strata, row) == s }

  function Count(strata: Strata, rows: seq<LabelRow>, s: Stratum): nat { |Kept(InStratum(strata, s), rows)| }

  type Buckets = map<Stratum, seq<LabelRow>>

  /** What a random number generator draws: any numbers at all. */
  type Draws = nat -> nat

  // ----- shuffling -----

  method Swap(xs: array<LabelRow>, i: nat, j: nat)
    requires i < xs.Length && j < xs.Length
    modifies xs
    ensures multiset(xs[..]) == multiset(old(xs[..]))
  {
    xs[i], xs[j] := xs[j], xs[i];
  }

  /** `random.shuffle`: some permutation, whatever is drawn. */
  method Shuffle(bucket: seq<LabelRow>, draw: Draws) returns (shuffled: seq<LabelRow>)
    ensures multiset(shuffled) == multiset(bucket) && |shuffled| == |bucket|
  {
    var xs := new LabelRow[|bucket|](i requires 0 <= i < |bucket| => bucket[i]);
    assert xs[..] == bucket;
    var i := |bucket|;
    while i > 1
      invariant 0 <= i <= |bucket| && multiset(xs[..]) == multiset(bucket)
    {
      i := i - 1;
      Swap(xs, i, draw(i) % (i + 1));
    }
    shuffled := xs[..];
    assert |multiset(shuffled)| == |multiset(bucket)|;
  }

  // ----- buckets -----

  /** Every row is either chosen or in its own stratum's bucket, as often as it was given. */
  ghost predicate Split(rows: seq<LabelRow>, strata: Strata, buckets: Buckets, chosen: seq<LabelRow>) {
    && (forall x :: multiset(chosen)[x] + Left(strata, buckets, x) == multiset(rows)[x])
    && (forall s, i :: s in buckets && 0 <= i < |buckets[s]| ==> StratumOf(strata, buckets[s][i]) == s)
    && forall s ::
         Count(strata, chosen, s) + (if s in buckets then |buckets[s]| else 0) == Count(strata, rows, s)
         && (s !in buckets ==> Count(strata, rows, s) == 0)
  }

  /** How often `x` is still in a bucket. */
  ghost function Left(strata: Strata, buckets: Buckets, x: LabelRow): nat {
    if StratumOf(strata, x) in buckets then multiset(buckets[StratumOf(strata, x)])[x] else 0
  }

  lemma CountAppend(strata: Strata, rows: seq<LabelRow>, row: LabelRow, s: Stratum)
    ensures Count(strata, rows + [row], s) == Count(strata, rows, s) + if StratumOf(strata, row) == s then 1 else 0
  {
    KeptConcat(InStratum(strata, s), rows, [row]);
    KeptOne(InStratum(strata, s), row);
  }

  method Bucketed(rows: seq<LabelRow>, strata: Strata) returns (buckets: Buckets, keys: seq<Stratum>)
    ensures Split(rows, strata, buckets, [])
    ensures Distinct(keys) && forall s :: s in keys <==> s in buckets
  {
    hide Split;
    buckets, keys := map[], [];
    NothingSplit(strata);
    for i := 0 to |rows|
      invariant Split(rows[..i], strata, buckets, [])
      invariant Distinct(keys) && forall s :: s in keys <==> s in buckets
    {
      assert rows[..i + 1] == rows[..i] + [rows[i]];
      var s := StratumOf(strata, rows[i]);
      RowAdded(rows[..i], strata, buckets, rows[i]);
      if s !in buckets {
        keys := keys + [s];
      }
      buckets := WithRow(strata, buckets, rows[i]);
    }
    assert rows[..|rows|] == rows;
  }

  lemma NothingSplit(strata: Strata)
    ensures Split([], strata, map[], [])
  {
  }

  function WithRow(strata: Strata, buckets: Buckets, row: LabelRow): Buckets {
    var s := StratumOf(strata, row);
    buckets[s := (if s in buckets then buckets[s] else []) + [row]]
  }

  lemma LeftGrows(strata: Strata, buckets: Buckets, row: LabelRow, x: LabelRow)
    ensures Left(strata, WithRow(strata, buckets, row), x) == Left(strata, buckets, x) + if x == row then 1 else 0
  {
    var s := StratumOf(strata, row);
    var bucket := if s in buckets then buckets[s] else [];
    assert multiset(bucket + [row])[x] == multiset(bucket)[x] + if x == row then 1 else 0;
  }

  lemma RowAdded(rows: seq<LabelRow>, strata: Strata, buckets: Buckets, row: LabelRow)
    requires Split(rows, strata, buckets, [])
    ensures Split(rows + [row], strata, WithRow(strata, buckets, row), [])
  {
    hide Count, Left;
    var own := StratumOf(strata, row);
    var buckets' := WithRow(strata, buckets, row);
    forall s
      ensures Count(strata, [], s) + (if s in buckets' then |buckets'[s]| else 0) == Count(strata, rows + [row], s)
      ensures s !in buckets' ==> Count(strata, rows + [row], s) == 0
    {
      CountAppend(strata, rows, row, s);
      assert Count(strata, [], s) + (if s in buckets then |buckets[s]| else 0) == Count(strata, rows, s);
    }
    forall x
      ensures multiset([])[x] + Left(strata, buckets', x) == multiset(rows + [row])[x]
    {
      LeftGrows(strata, buckets, row, x);
      assert multiset([])[x] + Left(strata, buckets, x) == multiset(rows)[x];
    }
  }

  lemma BucketShuffled(rows: seq<LabelRow>, strata: Strata, buckets: Buckets, s: Stratum, shuffled: seq<LabelRow>)
    requires Split(rows, strata, buckets, []) && s in buckets && multiset(shuffled) == multiset(buckets[s])
             && |shuffled| == |buckets[s]|
    ensures Split(rows, strata, buckets[s := shuffled], [])
  {
    hide Count;
    forall i | 0 <= i < |shuffled|
      ensures StratumOf(strata, shuffled[i]) == s
    {
      assert shuffled[i] in multiset(buckets[s]);
      var j :| 0 <= j < |buckets[s]| && buckets[s][j] == shuffled[i];
    }
  }

  method ShuffleAll(rows: seq<LabelRow>, strata: Strata, given: Buckets, keys: seq<Stratum>,
      draw: (Stratum, nat) -> nat) returns (buckets: Buckets)
    requires Split(rows, strata, given, []) && forall s :: s in keys <==> s in given
    ensures Split(rows, strata, buckets, []) && buckets.Keys == given.Keys
  {
    hide Split;
    buckets := given;
    for i := 0 to |keys|
      invariant Split(rows, strata, buckets, []) && buckets.Keys == given.Keys
    {
      var s := keys[i];
      assert s in keys;
      var shuffled := Shuffle(buckets[s], j => draw(s, j));
      BucketShuffled(rows, strata, buckets, s, shuffled);
      buckets := buckets[s := shuffled];
    }
  }

  // ----- round robin -----

  /** After `m` full rounds a stratum has given `m` rows, or all it has. */
  ghost predicate Level(rows: seq<LabelRow>, strata: Strata, buckets: Buckets, s: Stratum, m: nat)
    requires s in buckets
  {
    var total := Count(strata, rows, s);
    |buckets[s]| == if total <= m then 0 else total - m
  }

  lemma LeftShrinks(strata: Strata, buckets: Buckets, s: Stratum, x: LabelRow)
    requires s in buckets && buckets[s] != [] && StratumOf(strata, buckets[s][|buckets[s]| - 1]) == s
    ensures var n := |buckets[s]| - 1;
            Left(strata, buckets, x)
            == Left(strata, buckets[s := buckets[s][..n]], x) + if x == buckets[s][n] then 1 else 0
  {
    var n := |buckets[s]| - 1;
    assert buckets[s] == buckets[s][..n] + [buckets[s][n]];
  }

  lemma Popped(rows: seq<LabelRow>, strata: Strata, buckets: Buckets, chosen: seq<LabelRow>, s: Stratum)
    requires Split(rows, strata, buckets, chosen) && s in buckets && buckets[s] != []
    ensures var n := |buckets[s]| - 1;
            && Split(rows, strata, buckets[s := buckets[s][..n]], chosen + [buckets[s][n]])
            && |chosen| < |rows|
  {
    hide Count, Left;
    var n := |buckets[s]| - 1;
    var row := buckets[s][n];
    var buckets', chosen' := buckets[s := buckets[s][..n]], chosen + [row];
    assert StratumOf(strata, row) == s;
    forall t
      ensures Count(strata, chosen', t) + (if t in buckets' then |buckets'[t]| else 0) == Count(strata, rows, t)
      ensures t !in buckets' ==> Count(strata, rows, t) == 0
    {
      CountAppend(strata, chosen, row, t);
      assert Count(strata, chosen, t) + (if t in buckets then |buckets[t]| else 0) == Count(strata, rows, t);
    }
    forall x
      ensures multiset(chosen')[x] + Left(strata, buckets', x) == multiset(rows)[x]
    {
      LeftShrinks(strata, buckets, s, x);
      assert multiset(chosen')[x] == multiset(chosen)[x] + if x == row then 1 else 0;
      assert multiset(chosen)[x] + Left(strata, buckets, x) == multiset(rows)[x];
    }
    ChosenAreFewer(rows, strata, buckets', chosen');
  }

  lemma ChosenAreFewer(rows: seq<LabelRow>, strata: Strata, buckets: Buckets, chosen: seq<LabelRow>)
    requires forall x :: multiset(chosen)[x] + Left(strata, buckets, x) == multiset(rows)[x]
    ensures multiset(chosen) <= multiset(rows) && |chosen| <= |rows|
  {
    forall x
      ensures multiset(chosen)[x] <= multiset(rows)[x]
    {
      assert multiset(chosen)[x] + Left(strata, buckets, x) == multiset(rows)[x];
    }
    assert multiset(rows) == multiset(chosen) + (multiset(rows) - multiset(chosen));
    assert |multiset(rows)| == |multiset(chosen)| + |multiset(rows) - multiset(chosen)|;
  }

  /** How far the strata are, `j` of them into round `m + 1`: while rows are still wanted, those
      before `j` have had their turn and no other has; once they are not, each may have had it. */
  ghost predicate Progress(rows: seq<LabelRow>, strata: Strata, buckets: Buckets, order: seq<Stratum>, m: nat, j: nat,
      wanted: bool) {
    forall i :: 0 <= i < |order| ==>
      && order[i] in buckets
      && (if wanted then Level(rows, strata, buckets, order[i], if i < j then m + 1 else m)
          else Level(rows, strata, buckets, order[i], m) || Level(rows, strata, buckets, order[i], m + 1))
  }

  lemma TurnTaken(rows: seq<LabelRow>, strata: Strata, buckets: Buckets, order: seq<Stratum>, m: nat, j: nat,
      wanted: bool)
    requires Distinct(order) && j < |order| && Progress(rows, strata, buckets, order, m, j, true)
    ensures var s := order[j];
            var after := if buckets[s] == [] then buckets else buckets[s := buckets[s][..|buckets[s]| - 1]];
            Progress(rows, strata, after, order, m, j + 1, wanted)
  {
    hide Count;
    var s := order[j];
    var after := if buckets[s] == [] then buckets else buckets[s := buckets[s][..|buckets[s]| - 1]];
    forall i | 0 <= i < |order|
      ensures order[i] in after && Level(rows, strata, after, order[i], if i < j + 1 then m + 1 else m)
    {
      assert Level(rows, strata, buckets, order[i], if i < j then m + 1 else m);
    }
  }

  lemma RoundOver(rows: seq<LabelRow>, strata: Strata, buckets: Buckets, order: seq<Stratum>, m: nat, wanted: bool)
    requires Progress(rows, strata, buckets, order, m, |order|, wanted)
    ensures wanted ==> Progress(rows, strata, buckets, order, m + 1, 0, true)
  {
    hide Level;
  }

  /** One pass over the strata. */
  method Round(rows: seq<LabelRow>, strata: Strata, given: Buckets, order: seq<Stratum>, before: seq<LabelRow>, n: int,
      ghost m: nat)
    returns (buckets: Buckets, chosen: seq<LabelRow>)
    requires Split(rows, strata, given, before) && Distinct(order) && |before| < n
    requires Progress(rows, strata, given, order, m, 0, true)
    ensures Split(rows, strata, buckets, chosen) && buckets.Keys == given.Keys
    ensures |before| <= |chosen| <= n && Progress(rows, strata, buckets, order, m, |order|, |chosen| < n)
    ensures (exists s :: s in order && s in given && given[s] != []) ==> |before| < |chosen| <= |rows|
  {
    hide Split, Progress, Level;
    buckets, chosen := given, before;
    for j := 0 to |order|
      invariant Split(rows, strata, buckets, chosen) && buckets.Keys == given.Keys
      invariant |before| <= |chosen| <= n && Progress(rows, strata, buckets, order, m, j, |chosen| < n)
      invariant |chosen| == |before| ==> buckets == given && forall i :: 0 <= i < j ==>
                order[i] in given && given[order[i]] == []
      invariant |chosen| > |before| ==> |chosen| <= |rows|
    {
      var s := order[j];
      if |chosen| < n {
        OrderIsKnown(rows, strata, buckets, order, m, j, true);
        TurnTaken(rows, strata, buckets, order, m, j, |chosen| + 1 < n);
        TurnTaken(rows, strata, buckets, order, m, j, true);
        if buckets[s] != [] {
          Popped(rows, strata, buckets, chosen, s);
          SplitSize(rows, strata, buckets[s := buckets[s][..|buckets[s]| - 1]],
            chosen + [buckets[s][|buckets[s]| - 1]]);
          chosen := chosen + [buckets[s][|buckets[s]| - 1]];
          buckets := buckets[s := buckets[s][..|buckets[s]| - 1]];
        }
      } else {
        NoMoreTurns(rows, strata, buckets, order, m, j);
      }
    }
  }

  lemma OrderIsKnown(rows: seq<LabelRow>, strata: Strata, buckets: Buckets, order: seq<Stratum>, m: nat, j: nat,
      wanted: bool)
    requires Progress(rows, strata, buckets, order, m, j, wanted) && j < |order|
    ensures order[j] in buckets
  {
    hide Level;
  }

  lemma NoMoreTurns(rows: seq<LabelRow>, strata: Strata, buckets: Buckets, order: seq<Stratum>, m: nat, j: nat)
    requires Progress(rows, strata, buckets, order, m, j, false)
    ensures Progress(rows, strata, buckets, order, m, j + 1, false)
  {
    hide Level;
  }

  lemma SplitSize(rows: seq<LabelRow>, strata: Strata, buckets: Buckets, chosen: seq<LabelRow>)
    requires Split(rows, strata, buckets, chosen)
    ensures multiset(chosen) <= multiset(rows) && |chosen| <= |rows|
  {
    ChosenAreFewer(rows, strata, buckets, chosen);
  }

  lemma EmptyBucketsMeanAll(rows: seq<LabelRow>, strata: Strata, buckets: Buckets, chosen: seq<LabelRow>)
    requires Split(rows, strata, buckets, chosen) && forall s :: s in buckets ==> buckets[s] == []
    ensures multiset(chosen) == multiset(rows) && |chosen| == |rows|
  {
    forall x
      ensures multiset(chosen)[x] == multiset(rows)[x]
    {
      assert multiset(chosen)[x] + Left(strata, buckets, x) == multiset(rows)[x];
    }
    assert multiset(chosen) == multiset(rows);
    assert |multiset(chosen)| == |multiset(rows)|;
  }

  /** Strata differ by more than one only where the smaller is used up. */
  ghost predicate Fair(rows: seq<LabelRow>, strata: Strata, chosen: seq<LabelRow>) {
    forall s, t :: Count(strata, chosen, s) > Count(strata, chosen, t) + 1 ==>
      Count(strata, chosen, t) == Count(strata, rows, t)
  }

  lemma ProgressIsFair(rows: seq<LabelRow>, strata: Strata, buckets: Buckets, chosen: seq<LabelRow>,
      order: seq<Stratum>, m: nat, wanted: bool)
    requires Split(rows, strata, buckets, chosen) && Progress(rows, strata, buckets, order, m, 0, wanted)
    requires forall s :: s in buckets ==> s in order
    ensures Fair(rows, strata, chosen)
  {
    hide Count;
    forall s
      ensures Count(strata, chosen, s) <= m + 1
      ensures Count(strata, chosen, s) >= m || Count(strata, chosen, s) == Count(strata, rows, s)
    {
      assert Count(strata, chosen, s) + (if s in buckets then |buckets[s]| else 0) == Count(strata, rows, s);
      if s in buckets {
        var i :| 0 <= i < |order| && order[i] == s;
        assert Level(rows, strata, buckets, s, m) || Level(rows, strata, buckets, s, m + 1);
      }
    }
  }

  function ByKey(before: Before<string>): Before<LabelRow> {
    (a: LabelRow, b: LabelRow) => before(a.exampleKey, b.exampleKey)
  }

  function Wanted(n: int, rows: seq<LabelRow>): nat { if n <= 0 then 0 else if n < |rows| then n else |rows| }

  /** Ends with exactly as many rows as asked for, or all there are; each given row at most as often
      as it was given; spread fairly over the strata; in key order. Whatever is drawn. */
  method StratifiedSample(rows: seq<LabelRow>, strata: Strata, n: int, draw: (Stratum, nat) -> nat,
      keyOrder: Before<string>, stratumOrder: Before<Stratum>)
    returns (sample: seq<LabelRow>)
    requires Weak(keyOrder)
    ensures |sample| == Wanted(n, rows) && multiset(sample) <= multiset(rows)
    ensures Fair(rows, strata, sample)
    ensures Ordered(ByKey(keyOrder), sample)
  {
    hide Split, Progress, Level, Fair, Sort, Ordered, Weak;
    var bucketed, keys := Bucketed(rows, strata);
    var buckets := ShuffleAll(rows, strata, bucketed, keys, draw);
    var order := Sort(stratumOrder, keys);
    SortPermutes(stratumOrder, keys);
    DistinctPermuted(keys, order);
    forall s
      ensures s in order <==> s in buckets
    {
      assert s in order <==> s in multiset(order);
      assert s in keys <==> s in multiset(keys);
    }
    var chosen := [];
    ghost var m := 0;
    Started(rows, strata, buckets, order);
    while |chosen| < n && exists i :: 0 <= i < |order| && order[i] in buckets && buckets[order[i]] != []
      invariant Split(rows, strata, buckets, chosen) && |chosen| <= |rows| && (|chosen| <= n || chosen == [])
      invariant forall s :: s in order <==> s in buckets
      invariant Progress(rows, strata, buckets, order, m, 0, |chosen| < n)
      decreases |rows| - |chosen|
    {
      ghost var before := chosen;
      ghost var i :| 0 <= i < |order| && order[i] in buckets && buckets[order[i]] != [];
      assert order[i] in order;
      buckets, chosen := Round(rows, strata, buckets, order, chosen, n, m);
      RoundOver(rows, strata, buckets, order, m, |chosen| < n);
      if |chosen| < n {
        m := m + 1;
      } else {
        CapReached(rows, strata, buckets, order, m);
      }
    }
    SplitSize(rows, strata, buckets, chosen);
    if |chosen| < n {
      forall s | s in buckets
        ensures buckets[s] == []
      {
        var i :| 0 <= i < |order| && order[i] == s;
      }
      EmptyBucketsMeanAll(rows, strata, buckets, chosen);
    }
    ProgressIsFair(rows, strata, buckets, chosen, order, m, |chosen| < n);
    sample := Sort(ByKey(keyOrder), chosen);
    SortPermutes(ByKey(keyOrder), chosen);
    FairPermuted(rows, strata, chosen, sample);
    KeyOrderIsWeak(keyOrder);
    SortOrders(ByKey(keyOrder), chosen);
  }

  lemma Started(rows: seq<LabelRow>, strata: Strata, buckets: Buckets, order: seq<Stratum>)
    requires Split(rows, strata, buckets, []) && forall s :: s in order <==> s in buckets
    ensures forall wanted :: Progress(rows, strata, buckets, order, 0, 0, wanted)
  {
    forall i | 0 <= i < |order|
      ensures order[i] in buckets && Level(rows, strata, buckets, order[i], 0)
    {
      assert order[i] in order;
      assert Count(strata, [], order[i]) == 0;
      assert Count(strata, [], order[i]) + |buckets[order[i]]| == Count(strata, rows, order[i]);
    }
  }

  lemma CapReached(rows: seq<LabelRow>, strata: Strata, buckets: Buckets, order: seq<Stratum>, m: nat)
    requires Progress(rows, strata, buckets, order, m, |order|, false)
    ensures Progress(rows, strata, buckets, order, m, 0, false)
  {
    hide Level;
  }

  lemma FairPermuted(rows: seq<LabelRow>, strata: Strata, xs: seq<LabelRow>, ys: seq<LabelRow>)
    requires Fair(rows, strata, xs) && multiset(xs) == multiset(ys)
    ensures Fair(rows, strata, ys)
  {
    forall s
      ensures Count(strata, xs, s) == Count(strata, ys, s)
    {
      KeptPermuted(InStratum(strata, s), xs, ys);
      assert |multiset(Kept(InStratum(strata, s), xs))| == |multiset(Kept(InStratum(strata, s), ys))|;
    }
  }

  lemma KeyOrderIsWeak(before: Before<string>)
    requires Weak(before)
    ensures Weak(ByKey(before))
  {
    forall a: LabelRow, b: LabelRow
      ensures ByKey(before)(a, b) ==> !ByKey(before)(b, a)
    {
      assert before(a.exampleKey, b.exampleKey) ==> !before(b.exampleKey, a.exampleKey);
    }
    forall a: LabelRow, b: LabelRow, c: LabelRow
      ensures ByKey(before)(a, c) ==> ByKey(before)(a, b) || ByKey(before)(b, c)
    {
      assert before(a.exampleKey, c.exampleKey) ==>
        before(a.exampleKey, b.exampleKey) || before(b.exampleKey, c.exampleKey);
    }
  }
}
