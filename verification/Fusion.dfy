/** services/rag/fusion.py and the hybrid branch of services/rag/retrieve.py: reciprocal rank fusion. */
module Fusion {
  import opened Wrappers
  import opened Aggregates
  import opened Sorting
  import opened Chunking
  import B = Bm25

  type Id = ChunkId

  /** Best first; the scores are not looked at. */
  type Ranking = seq<(Id, real)>

  const RRF_K := 60
  const MIN_POOL := 20
  const POOL_FACTOR := 5

  /** What rank `rank`, counted from 1, is worth. */
  function Worth(k: nat, rank: nat): real
    requires rank >= 1
  {
    1.0 / (k + rank) as real
  }

  /** What one ranking contributes to `id`. */
  function ListScore(ranking: Ranking, k: nat, id: Id): real {
    if ranking == [] then 0.0
    else
      ListScore(ranking[..|ranking| - 1], k, id)
      + if ranking[|ranking| - 1].0 == id then Worth(k, |ranking|) else 0.0
  }

  function Score(rankings: seq<Ranking>, k: nat, id: Id): real {
    if rankings == [] then 0.0
    else Score(rankings[..|rankings| - 1], k, id) + ListScore(rankings[|rankings| - 1], k, id)
  }

  /** The ids of `ranking` added to `order` as they first appear. */
  function Seen(order: seq<Id>, ranking: Ranking): seq<Id> {
    if ranking == [] then order
    else
      var before := Seen(order, ranking[..|ranking| - 1]);
      var id := ranking[|ranking| - 1].0;
      if id in before then before else before + [id]
  }

  function SeenAll(rankings: seq<Ranking>): seq<Id> {
    if rankings == [] then [] else Seen(SeenAll(rankings[..|rankings| - 1]), rankings[|rankings| - 1])
  }

  function Scored(rankings: seq<Ranking>, k: nat): Id -> (Id, real) { (id: Id) => (id, Score(rankings, k, id)) }

  function Fused(rankings: seq<Ranking>, k: nat): seq<(Id, real)> {
    Sort(B.Higher(), Mapped(Scored(rankings, k), SeenAll(rankings)))
  }

  ghost predicate Ranks(ranking: Ranking, id: Id) { exists i :: 0 <= i < |ranking| && ranking[i].0 == id }

  // ----- the program -----

  /** `fused` holds the scores so far of the ids in `order`. */
  ghost predicate Holds(fused: map<Id, real>, order: seq<Id>, k: nat, done: seq<Ranking>, part: Ranking) {
    && order == Seen(SeenAll(done), part)
    && (forall id :: id in fused <==> id in order)
    && forall id :: id in fused ==> fused[id] == Score(done, k, id) + ListScore(part, k, id)
  }

  lemma {:induction false} UnseenIsWorthless(order: seq<Id>, ranking: Ranking, k: nat, id: Id)
    requires id !in Seen(order, ranking)
    ensures id !in order && ListScore(ranking, k, id) == 0.0
  {
    if ranking != [] {
      UnseenIsWorthless(order, ranking[..|ranking| - 1], k, id);
    }
  }

  lemma {:induction false} NeverSeenIsWorthless(rankings: seq<Ranking>, k: nat, id: Id)
    requires id !in SeenAll(rankings)
    ensures Score(rankings, k, id) == 0.0
  {
    if rankings != [] {
      var n := |rankings| - 1;
      UnseenIsWorthless(SeenAll(rankings[..n]), rankings[n], k, id);
      NeverSeenIsWorthless(rankings[..n], k, id);
    }
  }

  lemma HoldsOneMore(fused: map<Id, real>, order: seq<Id>, k: nat, done: seq<Ranking>, part: Ranking, hit: (Id, real))
    requires Holds(fused, order, k, done, part)
    ensures var sum := (if hit.0 in fused then fused[hit.0] else 0.0) + Worth(k, |part| + 1);
            Holds(fused[hit.0 := sum], if hit.0 in order then order else order + [hit.0], k, done, part + [hit])
  {
    hide Score, Worth;
    assert (part + [hit])[..|part|] == part;
    if hit.0 !in fused {
      UnseenIsWorthless(SeenAll(done), part, k, hit.0);
      NeverSeenIsWorthless(done, k, hit.0);
    }
  }

  lemma HoldsNextList(fused: map<Id, real>, order: seq<Id>, k: nat, done: seq<Ranking>, ranking: Ranking)
    requires Holds(fused, order, k, done, ranking)
    ensures Holds(fused, order, k, done + [ranking], [])
  {
    assert (done + [ranking])[..|done|] == done;
  }

  method ReciprocalRankFusion(rankings: seq<Ranking>, k: nat) returns (result: seq<(Id, real)>)
    ensures result == Fused(rankings, k)
  {
    hide Holds, Score, SeenAll, Seen, ListScore;
    var fused: map<Id, real>, order: seq<Id> := map[], [];
    NothingHeld(k);
    for i := 0 to |rankings|
      invariant Holds(fused, order, k, rankings[..i], [])
    {
      var ranking := rankings[i];
      assert ranking[..0] == [];
      SameKeys(fused, order, k, rankings[..i], []);
      for j := 0 to |ranking|
        invariant Holds(fused, order, k, rankings[..i], ranking[..j])
        invariant forall id :: id in fused <==> id in order
      {
        var id := ranking[j].0;
        HoldsOneMore(fused, order, k, rankings[..i], ranking[..j], ranking[j]);
        assert ranking[..j + 1] == ranking[..j] + [ranking[j]];
        SameKeys(fused, order, k, rankings[..i], ranking[..j]);
        var before := if id in fused then fused[id] else 0.0;
        order := if id in fused then order else order + [id];
        fused := fused[id := before + Worth(k, j + 1)];
        SameKeys(fused, order, k, rankings[..i], ranking[..j + 1]);
      }
      assert ranking[..|ranking|] == ranking;
      HoldsNextList(fused, order, k, rankings[..i], ranking);
      assert rankings[..i + 1] == rankings[..i] + [ranking];
    }
    assert rankings[..|rankings|] == rankings;
    SameKeys(fused, order, k, rankings, []);
    ItemsAreScored(fused, order, k, rankings);
    result := Sort(B.Higher(),
      seq(|order|, i requires 0 <= i < |order| => (order[i], if order[i] in fused then fused[order[i]] else 0.0)));
  }

  lemma NothingHeld(k: nat)
    ensures Holds(map[], [], k, [], [])
  {
  }

  lemma SameKeys(fused: map<Id, real>, order: seq<Id>, k: nat, done: seq<Ranking>, part: Ranking)
    requires Holds(fused, order, k, done, part)
    ensures forall id :: id in fused <==> id in order
  {
  }

  lemma ItemsAreScored(fused: map<Id, real>, order: seq<Id>, k: nat, rankings: seq<Ranking>)
    requires Holds(fused, order, k, rankings, [])
    ensures seq(|order|, i requires 0 <= i < |order| => (order[i], if order[i] in fused then fused[order[i]] else 0.0))
         == Mapped(Scored(rankings, k), SeenAll(rankings))
  {
    assert forall i :: 0 <= i < |order| ==> order[i] in order;
  }

  // ----- what the result is -----

  lemma {:induction false} SeenFacts(order: seq<Id>, ranking: Ranking)
    requires Distinct(order)
    ensures Distinct(Seen(order, ranking))
    ensures forall id :: id in Seen(order, ranking) <==> id in order || Ranks(ranking, id)
  {
    if ranking != [] {
      var n := |ranking| - 1;
      SeenFacts(order, ranking[..n]);
      forall id
        ensures Ranks(ranking, id) <==> Ranks(ranking[..n], id) || ranking[n].0 == id
      {
        RanksLast(ranking, id);
      }
    }
  }

  lemma RanksLast(ranking: Ranking, id: Id)
    requires ranking != []
    ensures Ranks(ranking, id) <==> Ranks(ranking[..|ranking| - 1], id) || ranking[|ranking| - 1].0 == id
  {
    var n := |ranking| - 1;
    if Ranks(ranking[..n], id) {
      var i :| 0 <= i < n && ranking[..n][i].0 == id;
      assert ranking[i].0 == id;
    }
    if Ranks(ranking, id) {
      var i :| 0 <= i < |ranking| && ranking[i].0 == id;
      assert i < n ==> ranking[..n][i].0 == id;
    }
  }

  ghost predicate RankedSomewhere(rankings: seq<Ranking>, id: Id) {
    exists r :: 0 <= r < |rankings| && Ranks(rankings[r], id)
  }

  lemma {:induction false} SeenAllFacts(rankings: seq<Ranking>)
    ensures Distinct(SeenAll(rankings))
    ensures forall id :: id in SeenAll(rankings) <==> RankedSomewhere(rankings, id)
  {
    if rankings != [] {
      hide Seen, Ranks, Distinct;
      var n := |rankings| - 1;
      SeenAllFacts(rankings[..n]);
      SeenFacts(SeenAll(rankings[..n]), rankings[n]);
      assert forall r :: 0 <= r < n ==> rankings[..n][r] == rankings[r];
    } else {
      hide Ranks;
    }
  }

  /** Every ranked id comes once, with its score, and nothing else comes; best first. */
  lemma FusedFacts(rankings: seq<Ranking>, k: nat)
    ensures var result := Fused(rankings, k);
            && (forall i :: 0 <= i < |result| ==>
               result[i].1 == Score(rankings, k, result[i].0) && RankedSomewhere(rankings, result[i].0))
            && (forall id :: RankedSomewhere(rankings, id) ==> exists i :: 0 <= i < |result| && result[i].0 == id)
            && (forall i, j :: 0 <= i < j < |result| ==> result[i].0 != result[j].0 && result[i].1 >= result[j].1)
  {
    hide Score, Ranks, SeenAll;
    var order := SeenAll(rankings);
    var items := Mapped(Scored(rankings, k), order);
    var result := Fused(rankings, k);
    SeenAllFacts(rankings);
    SortPermutes(B.Higher(), items);
    B.HigherIsWeak();
    SortOrders(B.Higher(), items);
    assert Distinct(items);
    DistinctPermuted(items, result);
    forall i | 0 <= i < |result|
      ensures result[i].1 == Score(rankings, k, result[i].0) && RankedSomewhere(rankings, result[i].0)
    {
      assert result[i] in multiset(items);
    }
    forall id | RankedSomewhere(rankings, id)
      ensures exists i :: 0 <= i < |result| && result[i].0 == id
    {
      var j :| 0 <= j < |order| && order[j] == id;
      assert items[j] in multiset(result);
      var i :| 0 <= i < |result| && result[i] == items[j];
    }
  }

  /** A better score comes first. */
  lemma BetterComesFirst(rankings: seq<Ranking>, k: nat, i: nat, j: nat)
    requires i < |Fused(rankings, k)| && j < |Fused(rankings, k)|
    requires Score(rankings, k, Fused(rankings, k)[i].0) > Score(rankings, k, Fused(rankings, k)[j].0)
    ensures i < j
  {
    hide Fused, Score;
    FusedFacts(rankings, k);
  }

  // ----- scores of duplicate-free rankings -----

  ghost predicate DuplicateFree(ranking: Ranking) {
    forall i, j :: 0 <= i < j < |ranking| ==> ranking[i].0 != ranking[j].0
  }

  lemma WorthFacts(k: nat, a: nat, b: nat)
    requires 1 <= a <= b
    ensures Worth(k, b) > 0.0 && Worth(k, a) >= Worth(k, b) && (a < b ==> Worth(k, a) > Worth(k, b))
  {
    var x, y := Worth(k, a), Worth(k, b);
    assert x * (k + a) as real == 1.0 && y * (k + b) as real == 1.0;
    assert (b - a) as real * y >= 0.0;
    assert (x - y) * (k + a) as real == (b - a) as real * y;
  }

  lemma {:induction false} RankedScore(ranking: Ranking, k: nat, i: nat)
    requires DuplicateFree(ranking) && i < |ranking|
    ensures ListScore(ranking, k, ranking[i].0) == Worth(k, i + 1)
  {
    var n := |ranking| - 1;
    if i < n {
      RankedScore(ranking[..n], k, i);
    } else {
      UnrankedScore(ranking[..n], k, ranking[i].0);
    }
  }

  lemma {:induction false} UnrankedScore(ranking: Ranking, k: nat, id: Id)
    requires !Ranks(ranking, id)
    ensures ListScore(ranking, k, id) == 0.0
  {
    if ranking != [] {
      RanksLast(ranking, id);
      UnrankedScore(ranking[..|ranking| - 1], k, id);
    }
  }

  /** In this ranking `a` stands no worse than `b`: wherever `b` is, `a` is there or before. */
  ghost predicate NoWorse(ranking: Ranking, a: Id, b: Id) {
    forall j :: 0 <= j < |ranking| && ranking[j].0 == b ==> exists i :: 0 <= i <= j && ranking[i].0 == a
  }

  /** Strictly better: `a` is ranked, and `b` is after it or not at all. */
  ghost predicate Better(ranking: Ranking, a: Id, b: Id) {
    exists i :: BetterAt(ranking, a, b, i)
  }

  ghost predicate BetterAt(ranking: Ranking, a: Id, b: Id, i: nat) {
    i < |ranking| && ranking[i].0 == a && forall j :: 0 <= j <= i ==> ranking[j].0 != b
  }

  lemma NoWorseScoresNoLess(ranking: Ranking, k: nat, a: Id, b: Id)
    requires DuplicateFree(ranking) && NoWorse(ranking, a, b)
    ensures ListScore(ranking, k, a) >= ListScore(ranking, k, b)
  {
    hide ListScore, Worth;
    if Ranks(ranking, b) {
      var j :| 0 <= j < |ranking| && ranking[j].0 == b;
      var i :| 0 <= i <= j && ranking[i].0 == a;
      RankedScore(ranking, k, i);
      RankedScore(ranking, k, j);
      WorthFacts(k, i + 1, j + 1);
    } else {
      UnrankedScore(ranking, k, b);
      ListScoreNonNegative(ranking, k, a);
    }
  }

  lemma BetterScoresMore(ranking: Ranking, k: nat, a: Id, b: Id)
    requires DuplicateFree(ranking) && Better(ranking, a, b)
    ensures ListScore(ranking, k, a) > ListScore(ranking, k, b)
  {
    hide ListScore, Worth, DuplicateFree;
    var i: nat :| BetterAt(ranking, a, b, i);
    RankedScore(ranking, k, i);
    WorthFacts(k, i + 1, i + 1);
    if Ranks(ranking, b) {
      var j :| 0 <= j < |ranking| && ranking[j].0 == b;
      RankedScore(ranking, k, j);
      WorthFacts(k, i + 1, j + 1);
    } else {
      UnrankedScore(ranking, k, b);
    }
  }

  lemma ListDominance(ranking: Ranking, k: nat, a: Id, b: Id)
    requires DuplicateFree(ranking)
    ensures NoWorse(ranking, a, b) ==> ListScore(ranking, k, a) >= ListScore(ranking, k, b)
    ensures Better(ranking, a, b) ==> ListScore(ranking, k, a) > ListScore(ranking, k, b)
  {
    hide *;
    if NoWorse(ranking, a, b) {
      NoWorseScoresNoLess(ranking, k, a, b);
    }
    if Better(ranking, a, b) {
      BetterScoresMore(ranking, k, a, b);
    }
  }

  lemma {:induction false} ListScoreNonNegative(ranking: Ranking, k: nat, id: Id)
    ensures ListScore(ranking, k, id) >= 0.0
  {
    if ranking != [] {
      ListScoreNonNegative(ranking[..|ranking| - 1], k, id);
      WorthFacts(k, |ranking|, |ranking|);
    }
  }

  /** An id ranked no worse in every list, and better in one, scores strictly higher and so comes
      first. */
  lemma {:induction false} DominanceWins(rankings: seq<Ranking>, k: nat, a: Id, b: Id)
    requires forall r :: 0 <= r < |rankings| ==> DuplicateFree(rankings[r]) && NoWorse(rankings[r], a, b)
    ensures Score(rankings, k, a) >= Score(rankings, k, b)
    ensures forall r :: 0 <= r < |rankings| && Better(rankings[r], a, b) ==>
            Score(rankings, k, a) > Score(rankings, k, b)
  {
    if rankings != [] {
      hide NoWorse, Better, DuplicateFree, ListScore;
      var n := |rankings| - 1;
      assert forall r :: 0 <= r < n ==> rankings[..n][r] == rankings[r];
      DominanceWins(rankings[..n], k, a, b);
      ListDominance(rankings[n], k, a, b);
    }
  }

  lemma ScoreOfTwo(x: Ranking, y: Ranking, k: nat, id: Id)
    ensures Score([x, y], k, id) == ListScore(x, k, id) + ListScore(y, k, id)
  {
    hide ListScore;
    assert [x, y][..1] == [x] && [x][..0] == [];
    assert Score([x][..0], k, id) == 0.0;
    assert Score([x], k, id) == ListScore(x, k, id);
  }

  /** Which list comes first changes no score. */
  lemma SwapKeepsScores(x: Ranking, y: Ranking, k: nat, id: Id)
    ensures Score([x, y], k, id) == Score([y, x], k, id)
  {
    hide Score;
    ScoreOfTwo(x, y, k, id);
    ScoreOfTwo(y, x, k, id);
  }

  // ----- hybrid retrieval -----

  function Pool(k: nat): nat { if k * POOL_FACTOR > MIN_POOL then k * POOL_FACTOR else MIN_POOL }

  /** At the default constant and pool size `pool`: the last place twice beats the first place once. */
  lemma TwoBeatOne(pool: nat)
    requires pool >= 1
    ensures Worth(RRF_K, pool) + Worth(RRF_K, pool) > Worth(RRF_K, 1) <==> pool <= 61
    ensures pool > 62 ==> Worth(RRF_K, pool) + Worth(RRF_K, pool) < Worth(RRF_K, 1)
  {
    var x, y := Worth(RRF_K, pool), Worth(RRF_K, 1);
    assert x * (60 + pool) as real == 1.0 && y * 61.0 == 1.0;
    if pool <= 61 {
      WorthFacts(RRF_K, pool, 61);
      var z := Worth(RRF_K, 61);
      assert z * 121.0 == 1.0;
    } else {
      WorthFacts(RRF_K, 62, pool);
      var z := Worth(RRF_K, 62);
      assert z * 122.0 == 1.0;
    }
  }

  ghost predicate Candidates(dense: Ranking, sparse: Ranking, k: nat) {
    DuplicateFree(dense) && DuplicateFree(sparse) && |dense| <= Pool(k) && |sparse| <= Pool(k)
  }

  ghost predicate InBoth(dense: Ranking, sparse: Ranking, id: Id) { Ranks(dense, id) && Ranks(sparse, id) }

  lemma BothScoreAtLeast(dense: Ranking, sparse: Ranking, k: nat, id: Id)
    requires Candidates(dense, sparse, k) && InBoth(dense, sparse, id)
    ensures Score([dense, sparse], RRF_K, id) >= Worth(RRF_K, Pool(k)) + Worth(RRF_K, Pool(k))
  {
    hide Score, ListScore, Worth, Pool;
    var i :| 0 <= i < |dense| && dense[i].0 == id;
    var j :| 0 <= j < |sparse| && sparse[j].0 == id;
    RankedScore(dense, RRF_K, i);
    RankedScore(sparse, RRF_K, j);
    WorthFacts(RRF_K, i + 1, Pool(k));
    WorthFacts(RRF_K, j + 1, Pool(k));
    ScoreOfTwo(dense, sparse, RRF_K, id);
  }

  lemma OneScoresAtMost(dense: Ranking, sparse: Ranking, k: nat, id: Id)
    requires Candidates(dense, sparse, k) && !InBoth(dense, sparse, id)
    ensures Score([dense, sparse], RRF_K, id) <= Worth(RRF_K, 1)
  {
    hide Score, ListScore, Worth, Pool;
    ScoreOfTwo(dense, sparse, RRF_K, id);
    WorthFacts(RRF_K, 1, 1);
    ListScoreAtMost(dense, RRF_K, id);
    ListScoreAtMost(sparse, RRF_K, id);
    if Ranks(dense, id) {
      UnrankedScore(sparse, RRF_K, id);
    } else {
      UnrankedScore(dense, RRF_K, id);
    }
  }

  lemma ListScoreAtMost(ranking: Ranking, k: nat, id: Id)
    requires DuplicateFree(ranking)
    ensures ListScore(ranking, k, id) <= Worth(k, 1)
  {
    hide ListScore, Worth;
    if i :| 0 <= i < |ranking| && ranking[i].0 == id {
      RankedScore(ranking, k, i);
      WorthFacts(k, 1, i + 1);
    } else {
      UnrankedScore(ranking, k, id);
      WorthFacts(k, 1, 1);
    }
  }

  /** Up to `k = 12`, agreement always wins: every id found by both searches comes before every id
      found by only one. */
  lemma AgreementWins(dense: Ranking, sparse: Ranking, k: nat, i: nat, j: nat)
    requires k <= 12 && Candidates(dense, sparse, k)
    requires var result := Fused([dense, sparse], RRF_K);
             i < |result| && j < |result| && InBoth(dense, sparse, result[i].0) && !InBoth(dense, sparse, result[j].0)
    ensures i < j
  {
    hide Score, ListScore, Worth, Fused, InBoth, Candidates;
    var result := Fused([dense, sparse], RRF_K);
    BothScoreAtLeast(dense, sparse, k, result[i].0);
    OneScoresAtMost(dense, sparse, k, result[j].0);
    TwoBeatOne(Pool(k));
    BetterComesFirst([dense, sparse], RRF_K, i, j);
  }

  function Numbers(from: nat, n: nat): (r: Ranking)
    ensures |r| == n && forall i :: 0 <= i < n ==> r[i] == (ChunkId("", from + i), 0.0)
  {
    seq(n, i requires i >= 0 => (ChunkId("", from + i), 0.0))
  }

  /** From `k = 13` on it need not: the last id of both pools scores below the first of one. */
  lemma LastOfBothScoresLess(k: nat) returns (dense: Ranking, sparse: Ranking, both: Id, single: Id)
    requires k >= 13
    ensures Candidates(dense, sparse, k) && InBoth(dense, sparse, both) && !InBoth(dense, sparse, single)
            && Ranks(dense, single)
    ensures Score([dense, sparse], RRF_K, both) < Score([dense, sparse], RRF_K, single)
  {
    hide Score, ListScore, Worth;
    var pool := Pool(k);
    both, single := ChunkId("", pool - 1), ChunkId("", 0);
    dense := Numbers(0, pool);
    sparse := Numbers(pool, pool - 1) + [(both, 0.0)];
    assert dense[pool - 1].0 == both && sparse[pool - 1].0 == both;
    RankedScore(dense, RRF_K, pool - 1);
    RankedScore(sparse, RRF_K, pool - 1);
    RankedScore(dense, RRF_K, 0);
    UnrankedScore(sparse, RRF_K, single);
    ScoreOfTwo(dense, sparse, RRF_K, both);
    ScoreOfTwo(dense, sparse, RRF_K, single);
    TwoBeatOne(pool);
  }

  /** And so comes after it in the fusion. */
  lemma AgreementCanLose(k: nat) returns (dense: Ranking, sparse: Ranking, i: nat, j: nat)
    requires k >= 13
    ensures Candidates(dense, sparse, k)
    ensures var result := Fused([dense, sparse], RRF_K);
            j < i < |result| && InBoth(dense, sparse, result[i].0) && !InBoth(dense, sparse, result[j].0)
  {
    hide Score, Fused, Candidates, Ranks;
    var both, single;
    dense, sparse, both, single := LastOfBothScoresLess(k);
    var rankings := [dense, sparse];
    assert rankings[0] == dense;
    FusedFacts(rankings, RRF_K);
    assert RankedSomewhere(rankings, both) && RankedSomewhere(rankings, single);
    i :| 0 <= i < |Fused(rankings, RRF_K)| && Fused(rankings, RRF_K)[i].0 == both;
    j :| 0 <= j < |Fused(rankings, RRF_K)| && Fused(rankings, RRF_K)[j].0 == single;
    BetterComesFirst(rankings, RRF_K, j, i);
  }

  ghost predicate AgreementAlwaysWins(k: nat) {
    forall dense, sparse, i: nat, j: nat :: Candidates(dense, sparse, k) ==> !Upset(dense, sparse, i, j)
  }

  /** Id number `i` of the fusion was found by both searches, and comes after number `j`, found by one. */
  ghost predicate Upset(dense: Ranking, sparse: Ranking, i: nat, j: nat) {
    var result := Fused([dense, sparse], RRF_K);
    j <= i < |result| && InBoth(dense, sparse, result[i].0) && !InBoth(dense, sparse, result[j].0)
  }

  /** Agreement wins over all candidate lists exactly for `k` up to 12. */
  lemma AgreementAlwaysWinsIff(k: nat)
    ensures AgreementAlwaysWins(k) <==> k <= 12
  {
    hide Candidates, Fused, InBoth;
    if k <= 12 {
      forall dense, sparse, i: nat, j: nat | Candidates(dense, sparse, k)
        ensures !Upset(dense, sparse, i, j)
      {
        if Upset(dense, sparse, i, j) {
          AgreementWins(dense, sparse, k, i, j);
        }
      }
    } else {
      var dense, sparse, i, j := AgreementCanLose(k);
      assert Upset(dense, sparse, i, j);
    }
  }

  // ----- the retriever -----

  /** The hybrid branch: `denseSearch` is the vector store's answer for a pool of a given size. */
  method RetrieveHybrid(query: string, k: nat, project: Option<string>, denseSearch: nat -> Ranking, index: B.BM25Index)
    returns (hits: seq<(Id, real)>, ghost sparse: Ranking)
    requires index.Valid()
    modifies index`scorer, index`chunkIds
    ensures index.Valid() && index.Contents() == old(index.Contents())
    ensures sparse == B.SearchOver(index.Contents(), index.okapi, query, Pool(k), project)
    ensures hits == Take(Fused([denseSearch(Pool(k)), sparse], RRF_K), k)
  {
    var pool := Pool(k);
    var found := index.Search(query, pool, project);
    sparse := found;
    var fused := ReciprocalRankFusion([denseSearch(pool), found], RRF_K);
    hits := Take(fused, k);
  }

  lemma {:induction false} HitIdsClimb(index: B.Index, okapi: B.Okapi, query: string, project: Option<string>, n: nat)
    requires n <= |index.order| && Distinct(index.order)
    ensures DuplicateFree(B.Hits(index, okapi, query, project, n))
    ensures forall i :: 0 <= i < |B.Hits(index, okapi, query, project, n)| ==>
            B.Hits(index, okapi, query, project, n)[i].0 in index.order[..n]
  {
    if n > 0 {
      HitIdsClimb(index, okapi, query, project, n - 1);
      assert index.order[..n] == index.order[..n - 1] + [index.order[n - 1]];
    }
  }

  lemma DuplicateFreePermuted(xs: Ranking, ys: Ranking)
    requires DuplicateFree(xs) && multiset(xs) == multiset(ys)
    ensures DuplicateFree(ys)
  {
    DistinctPermuted(xs, ys);
    forall i, j | 0 <= i < j < |ys|
      ensures ys[i].0 != ys[j].0
    {
      assert ys[i] in multiset(xs) && ys[j] in multiset(xs);
      var a :| 0 <= a < |xs| && xs[a] == ys[i];
      var b :| 0 <= b < |xs| && xs[b] == ys[j];
      assert a != b;
    }
  }

  /** What the sparse index returns meets what fusion asks of its candidates. */
  lemma SparseHitsAreCandidates(index: B.Index, okapi: B.Okapi, query: string, k: nat, project: Option<string>)
    requires B.WellOrdered(index)
    ensures var hits := B.SearchOver(index, okapi, query, Pool(k), project);
            DuplicateFree(hits) && |hits| <= Pool(k)
  {
    hide B.Hits, Pool;
    var all := B.Hits(index, okapi, query, project, |index.order|);
    HitIdsClimb(index, okapi, query, project, |index.order|);
    SortPermutes(B.Higher(), all);
    DuplicateFreePermuted(all, Sort(B.Higher(), all));
  }

  // ----- ties -----

  /** All ranked ids, list after list, repeated as they are ranked. */
  function Listed(rankings: seq<Ranking>): seq<Id> {
    if rankings == [] then []
    else Listed(rankings[..|rankings| - 1]) + IdsIn(rankings[|rankings| - 1])
  }

  function IdsIn(ranking: Ranking): seq<Id> { seq(|ranking|, i requires 0 <= i < |ranking| => ranking[i].0) }

  /** Each id where it comes first. */
  function FirstSeen(ids: seq<Id>): seq<Id> {
    if ids == [] then []
    else
      var before := FirstSeen(ids[..|ids| - 1]);
      if ids[|ids| - 1] in before then before else before + [ids[|ids| - 1]]
  }

  lemma {:induction false} SeenIsFirstSeen(ids: seq<Id>, ranking: Ranking)
    ensures Seen(FirstSeen(ids), ranking) == FirstSeen(ids + IdsIn(ranking))
  {
    if ranking == [] {
      assert ids + IdsIn(ranking) == ids;
    } else {
      var n := |ranking| - 1;
      SeenIsFirstSeen(ids, ranking[..n]);
      assert ids + IdsIn(ranking) == ids + IdsIn(ranking[..n]) + [ranking[n].0];
      assert (ids + IdsIn(ranking))[..|ids| + n] == ids + IdsIn(ranking[..n]);
    }
  }

  lemma {:induction false} SeenAllIsFirstSeen(rankings: seq<Ranking>)
    ensures SeenAll(rankings) == FirstSeen(Listed(rankings))
  {
    if rankings != [] {
      var n := |rankings| - 1;
      SeenAllIsFirstSeen(rankings[..n]);
      SeenIsFirstSeen(Listed(rankings[..n]), rankings[n]);
    }
  }

  ghost predicate Precedes<A>(xs: seq<A>, x: A, y: A) {
    exists i, j :: 0 <= i < j < |xs| && xs[i] == x && xs[j] == y
  }

  /** The first place of `a` in the list comes before every place of `b`. */
  ghost predicate ListedBefore(ids: seq<Id>, a: Id, b: Id) {
    exists m :: 0 <= m < |ids| && ids[m] == a && b !in ids[..m + 1]
  }

  lemma {:induction false} SeenIsListed(ids: seq<Id>, id: Id)
    ensures id in FirstSeen(ids) <==> id in ids
  {
    if ids != [] {
      SeenIsListed(ids[..|ids| - 1], id);
      assert ids == ids[..|ids| - 1] + [ids[|ids| - 1]];
    }
  }

  lemma {:induction false} SeenInOrder(ids: seq<Id>, a: Id, b: Id)
    requires a != b && Precedes(FirstSeen(ids), a, b)
    ensures ListedBefore(ids, a, b)
  {
    var n := |ids| - 1;
    var front, seen := ids[..n], FirstSeen(ids[..n]);
    var i, j :| 0 <= i < j < |FirstSeen(ids)| && FirstSeen(ids)[i] == a && FirstSeen(ids)[j] == b;
    var m: nat;
    if j < |seen| {
      SeenInOrder(front, a, b);
      m :| 0 <= m < |front| && front[m] == a && b !in front[..m + 1];
    } else {
      assert a in seen;
      SeenIsListed(front, a);
      SeenIsListed(front, b);
      m :| 0 <= m < |front| && front[m] == a;
    }
    assert ids[..m + 1] == front[..m + 1];
  }

  lemma {:induction false} KeptInOrder<A>(p: A -> bool, xs: seq<A>, i: nat, j: nat)
    requires i < j < |xs| && p(xs[i]) && p(xs[j])
    ensures Precedes(Kept(p, xs), xs[i], xs[j])
  {
    var x, y := xs[i], xs[j];
    KeptConcat(p, xs[..j], xs[j..]);
    assert xs == xs[..j] + xs[j..] && xs[j..][0] == y && xs[..j][i] == x;
    KeptElements(p, xs[..j], x);
    var a :| 0 <= a < |Kept(p, xs[..j])| && Kept(p, xs[..j])[a] == x;
    var kept := Kept(p, xs);
    assert kept[a] == x && kept[|Kept(p, xs[..j])|] == y;
  }

  lemma {:induction false} KeptFromOrder<A>(p: A -> bool, xs: seq<A>, x: A, y: A)
    requires Precedes(Kept(p, xs), x, y)
    ensures Precedes(xs, x, y)
  {
    var kept := Kept(p, xs);
    var i, j :| 0 <= i < j < |kept| && kept[i] == x && kept[j] == y;
    var rest := xs[1..];
    if p(xs[0]) && i == 0 {
      KeptElements(p, rest, y);
      assert Kept(p, rest)[j - 1] == y;
      var b :| 0 <= b < |rest| && rest[b] == y;
      assert xs[0] == x && xs[b + 1] == y;
    } else {
      var d := if p(xs[0]) then 1 else 0;
      assert Kept(p, rest)[i - d] == x && Kept(p, rest)[j - d] == y;
      KeptFromOrder(p, rest, x, y);
      var a, b :| 0 <= a < b < |rest| && rest[a] == x && rest[b] == y;
      assert xs[a + 1] == x && xs[b + 1] == y;
    }
  }

  /** Ids of equal score come in the order in which the lists, one after another, first name them. */
  lemma TiesByFirstAppearance(rankings: seq<Ranking>, k: nat, i: nat, j: nat)
    requires i < j < |Fused(rankings, k)| && Fused(rankings, k)[i].1 == Fused(rankings, k)[j].1
    ensures ListedBefore(Listed(rankings), Fused(rankings, k)[i].0, Fused(rankings, k)[j].0)
  {
    hide Score, SeenAll, Ranks;
    var order, result := SeenAll(rankings), Fused(rankings, k);
    var items, p := Mapped(Scored(rankings, k), order), Tied(B.Higher(), result[i]);
    FusedFacts(rankings, k);
    B.HigherIsWeak();
    SortIsStable(B.Higher(), items, result[i]);
    KeptInOrder(p, result, i, j);
    KeptFromOrder(p, items, result[i], result[j]);
    var a, b :| 0 <= a < b < |items| && items[a] == result[i] && items[b] == result[j];
    assert order[a] == result[i].0 && order[b] == result[j].0;
    SeenAllIsFirstSeen(rankings);
    SeenInOrder(Listed(rankings), order[a], order[b]);
  }
}
