/** What the linked rows amount to: a forest that loses no span, exactly when parent links have no cycle. */
module TraceForest {
  import opened Wrappers
  import opened Aggregates
  import opened Rounding
  import opened Telemetry
  import opened TraceTree

  datatype Tree = Tree(id: Id, kids: seq<Tree>)

  function Preorder(ts: seq<Tree>): seq<Id>
    decreases ts
  {
    if ts == [] then [] else [ts[0].id] + Preorder(ts[0].kids) + Preorder(ts[1..])
  }

  ghost predicate DistinctSpans(rows: seq<Event>) {
    forall i, j :: 0 <= i < j < |rows| ==> rows[i].span != rows[j].span
  }

  /** `rank` strictly increases from parent to child: the parent links have no cycle. */
  ghost predicate Ranked(rows: seq<Event>, rank: Id -> nat) {
    forall i :: 0 <= i < |rows| && rows[i].parent.Some? && rows[i].parent.value in IdSet(rows) ==>
      rank(rows[i].parent.value) < rank(rows[i].span)
  }

  // ----- selecting rows -----

  lemma {:induction false} SelectedElement(p: Event -> bool, rows: seq<Event>, id: Id)
    ensures id in Selected(p, rows) <==> exists i :: 0 <= i < |rows| && p(rows[i]) && rows[i].span == id
  {
    if rows != [] {
      var n := |rows| - 1;
      SelectedElement(p, rows[..n], id);
      assert forall i :: 0 <= i < n ==> rows[..n][i] == rows[i];
    }
  }

  lemma {:induction false} SelectedCount(p: Event -> bool, rows: seq<Event>, k: nat)
    requires k < |rows| && DistinctSpans(rows)
    ensures multiset(Selected(p, rows))[rows[k].span] == if p(rows[k]) then 1 else 0
  {
    hide Selected;
    var n := |rows| - 1;
    var before, last := rows[..n], rows[n];
    assert forall i :: 0 <= i < n ==> before[i] == rows[i];
    SelectedLast(p, rows);
    if k < n {
      SelectedCount(p, before, k);
      assert last.span != rows[k].span;
    } else {
      SelectedElement(p, before, rows[k].span);
    }
  }

  lemma SelectedLast(p: Event -> bool, rows: seq<Event>)
    requires rows != []
    ensures var last := rows[|rows| - 1];
            Selected(p, rows) == Selected(p, rows[..|rows| - 1]) + if p(last) then [last.span] else []
  {
  }

  // ----- unfolding -----

  ghost function Bound(rows: seq<Event>, rank: Id -> nat): (b: nat)
    ensures forall i :: 0 <= i < |rows| ==> rank(rows[i].span) < b
  {
    if rows == [] then 0
    else
      var n := |rows| - 1;
      var b := Bound(rows[..n], rank);
      assert forall i :: 0 <= i < n ==> rows[..n][i] == rows[i];
      if rank(rows[n].span) < b then b else rank(rows[n].span) + 1
  }

  /** How far below the deepest rank the nodes `ids` can be. */
  ghost function Height(rows: seq<Event>, rank: Id -> nat, ids: seq<Id>): (h: nat)
    ensures forall i :: 0 <= i < |ids| ==> Bound(rows, rank) - rank(ids[i]) <= h
    ensures h == 0 || exists i :: 0 <= i < |ids| && h == Bound(rows, rank) - rank(ids[i])
  {
    if ids == [] then 0
    else
      var rest := Height(rows, rank, ids[1..]);
      var top := Bound(rows, rank) - rank(ids[0]);
      assert forall i :: 1 <= i < |ids| ==> ids[1..][i - 1] == ids[i];
      if top <= rest then rest else top
  }

  ghost predicate Rows(rows: seq<Event>, ids: seq<Id>) {
    forall i :: 0 <= i < |ids| ==> ids[i] in IdSet(rows)
  }

  lemma ChildrenAreDeeper(rows: seq<Event>, rank: Id -> nat, id: Id)
    requires Ranked(rows, rank) && id in IdSet(rows)
    ensures Rows(rows, ChildIds(rows, id))
    ensures forall i :: 0 <= i < |ChildIds(rows, id)| ==> rank(id) < rank(ChildIds(rows, id)[i])
    ensures forall ids :: id in ids ==> Height(rows, rank, ChildIds(rows, id)) < Height(rows, rank, ids)
  {
    forall i | 0 <= i < |ChildIds(rows, id)|
      ensures ChildIds(rows, id)[i] in IdSet(rows) && rank(id) < rank(ChildIds(rows, id)[i])
    {
      SelectedElement(ParentIs(id), rows, ChildIds(rows, id)[i]);
    }
  }

  /** The trees under the nodes `ids`, following children links. */
  ghost function Unfold(rows: seq<Event>, rank: Id -> nat, ids: seq<Id>): (ts: seq<Tree>)
    requires Ranked(rows, rank) && Rows(rows, ids)
    ensures |ts| == |ids|
    decreases Height(rows, rank, ids), |ids|
  {
    if ids == [] then []
    else
      ChildrenAreDeeper(rows, rank, ids[0]);
      assert Rows(rows, ids[1..]);
      assert forall i :: 1 <= i < |ids| ==> ids[1..][i - 1] == ids[i];
      [Tree(ids[0], Unfold(rows, rank, ChildIds(rows, ids[0])))] + Unfold(rows, rank, ids[1..])
  }

  lemma RootsAreRows(rows: seq<Event>)
    ensures Rows(rows, RootIds(rows))
  {
    forall i | 0 <= i < |RootIds(rows)|
      ensures RootIds(rows)[i] in IdSet(rows)
    {
      SelectedElement(Unparented(IdSet(rows)), rows, RootIds(rows)[i]);
    }
  }

  ghost function Forest(rows: seq<Event>, rank: Id -> nat): seq<Tree>
    requires Ranked(rows, rank)
  {
    RootsAreRows(rows);
    Unfold(rows, rank, RootIds(rows))
  }

  /** How often `x` occurs in the trees under `ids`. */
  ghost function Occurrences(rows: seq<Event>, rank: Id -> nat, ids: seq<Id>, x: Id): nat
    requires Ranked(rows, rank) && Rows(rows, ids)
  {
    multiset(Preorder(Unfold(rows, rank, ids)))[x]
  }

  lemma OccurrencesStep(rows: seq<Event>, rank: Id -> nat, ids: seq<Id>, x: Id)
    requires Ranked(rows, rank) && Rows(rows, ids) && ids != []
    ensures Rows(rows, ChildIds(rows, ids[0])) && Rows(rows, ids[1..])
    ensures Height(rows, rank, ChildIds(rows, ids[0])) < Height(rows, rank, ids)
    ensures Height(rows, rank, ids[1..]) <= Height(rows, rank, ids)
    ensures Occurrences(rows, rank, ids, x) ==
            (if x == ids[0] then 1 else 0)
            + Occurrences(rows, rank, ChildIds(rows, ids[0]), x)
            + Occurrences(rows, rank, ids[1..], x)
    ensures multiset(ids)[x] == (if x == ids[0] then 1 else 0) + multiset(ids[1..])[x]
  {
    ChildrenAreDeeper(rows, rank, ids[0]);
    assert forall i :: 1 <= i < |ids| ==> ids[1..][i - 1] == ids[i];
    assert ids == [ids[0]] + ids[1..];
  }

  /** Below any nodes, a child occurs once for every occurrence of its parent. */
  lemma {:induction false} ChildOccurs(rows: seq<Event>, rank: Id -> nat, ids: seq<Id>, k: nat)
    requires DistinctSpans(rows) && Ranked(rows, rank) && Rows(rows, ids)
    requires k < |rows| && rows[k].parent.Some?
    ensures Occurrences(rows, rank, ids, rows[k].span)
         == multiset(ids)[rows[k].span] + Occurrences(rows, rank, ids, rows[k].parent.value)
    decreases Height(rows, rank, ids), |ids|
  {
    if ids != [] {
      OccurrencesStep(rows, rank, ids, rows[k].span);
      OccurrencesStep(rows, rank, ids, rows[k].parent.value);
      SelectedCount(ParentIs(ids[0]), rows, k);
      ChildOccurs(rows, rank, ChildIds(rows, ids[0]), k);
      ChildOccurs(rows, rank, ids[1..], k);
    }
  }

  /** A row that is nobody's child occurs only where it is listed. */
  lemma {:induction false} RootOccurs(rows: seq<Event>, rank: Id -> nat, ids: seq<Id>, x: Id)
    requires Ranked(rows, rank) && Rows(rows, ids)
    requires forall i :: 0 <= i < |rows| && rows[i].span == x ==>
             rows[i].parent.None? || rows[i].parent.value !in IdSet(rows)
    ensures Occurrences(rows, rank, ids, x) == multiset(ids)[x]
    decreases Height(rows, rank, ids), |ids|
  {
    if ids != [] {
      OccurrencesStep(rows, rank, ids, x);
      SelectedElement(ParentIs(ids[0]), rows, x);
      RootOccurs(rows, rank, ChildIds(rows, ids[0]), x);
      RootOccurs(rows, rank, ids[1..], x);
    }
  }

  lemma {:induction false} OccursOnce(rows: seq<Event>, rank: Id -> nat, k: nat)
    requires DistinctSpans(rows) && Ranked(rows, rank) && k < |rows|
    ensures multiset(Preorder(Forest(rows, rank)))[rows[k].span] == 1
    decreases rank(rows[k].span)
  {
    RootsAreRows(rows);
    SelectedCount(Unparented(IdSet(rows)), rows, k);
    if rows[k].parent.None? || rows[k].parent.value !in IdSet(rows) {
      RootOccurs(rows, rank, RootIds(rows), rows[k].span);
    } else {
      ChildOccurs(rows, rank, RootIds(rows), k);
      var i :| 0 <= i < |rows| && rows[i].span == rows[k].parent.value;
      OccursOnce(rows, rank, i);
    }
  }

  lemma {:induction false} OnlyRowsOccur(rows: seq<Event>, rank: Id -> nat, ids: seq<Id>, x: Id)
    requires Ranked(rows, rank) && Rows(rows, ids) && x !in IdSet(rows)
    ensures Occurrences(rows, rank, ids, x) == 0
    decreases Height(rows, rank, ids), |ids|
  {
    if ids != [] {
      OccurrencesStep(rows, rank, ids, x);
      OnlyRowsOccur(rows, rank, ChildIds(rows, ids[0]), x);
      OnlyRowsOccur(rows, rank, ids[1..], x);
    }
  }

  lemma {:induction false} IdsCount(rows: seq<Event>, x: Id)
    requires DistinctSpans(rows)
    ensures multiset(Ids(rows))[x] == if x in IdSet(rows) then 1 else 0
  {
    var ids := Ids(rows);
    assert forall i :: 0 <= i < |rows| ==> ids[i] == rows[i].span;
    DistinctCount(ids, x);
    if x in ids {
      var i :| 0 <= i < |ids| && ids[i] == x;
      assert rows[i].span == x;
    }
    if x in IdSet(rows) {
      var i :| 0 <= i < |rows| && rows[i].span == x;
      assert ids[i] == x;
    }
  }

  /** Nothing lost, nothing repeated: the forest holds every row exactly once. */
  lemma ForestHoldsEveryRowOnce(rows: seq<Event>, rank: Id -> nat)
    requires DistinctSpans(rows) && Ranked(rows, rank)
    ensures multiset(Preorder(Forest(rows, rank))) == multiset(Ids(rows))
  {
    RootsAreRows(rows);
    forall x: Id
      ensures multiset(Preorder(Forest(rows, rank)))[x] == multiset(Ids(rows))[x]
    {
      IdsCount(rows, x);
      if x in IdSet(rows) {
        var k :| 0 <= k < |rows| && rows[k].span == x;
        OccursOnce(rows, rank, k);
      } else {
        OnlyRowsOccur(rows, rank, RootIds(rows), x);
      }
    }
  }

  // ----- cycles -----

  /** `id` is `n` children links below a root. */
  ghost predicate ReachableIn(rows: seq<Event>, id: Id, n: nat)
    decreases n
  {
    if n == 0 then id in RootIds(rows)
    else exists p :: p in IdSet(rows) && id in ChildIds(rows, p) && ReachableIn(rows, p, n - 1)
  }

  ghost predicate Reachable(rows: seq<Event>, id: Id) {
    exists n: nat :: ReachableIn(rows, id, n)
  }

  /** The single way to reach a row: it is a root, or it hangs under its parent. */
  lemma ReachableStep(rows: seq<Event>, k: nat, n: nat)
    requires DistinctSpans(rows) && k < |rows|
    ensures ReachableIn(rows, rows[k].span, n) <==>
            if rows[k].parent.None? || rows[k].parent.value !in IdSet(rows) then n == 0
            else n > 0 && ReachableIn(rows, rows[k].parent.value, n - 1)
  {
    SelectedElement(Unparented(IdSet(rows)), rows, rows[k].span);
    forall p: Id
      ensures rows[k].span in ChildIds(rows, p) <==> rows[k].parent == Some(p)
    {
      SelectedElement(ParentIs(p), rows, rows[k].span);
    }
  }

  lemma ParentIsReachable(rows: seq<Event>, k: nat, n: nat)
    requires DistinctSpans(rows) && k < |rows| && ReachableIn(rows, rows[k].span, n)
    requires rows[k].parent.Some? && rows[k].parent.value in IdSet(rows)
    ensures n > 0 && ReachableIn(rows, rows[k].parent.value, n - 1)
  {
    ReachableStep(rows, k, n);
  }

  lemma {:induction false} DepthIsUnique(rows: seq<Event>, k: nat, n: nat, m: nat)
    requires DistinctSpans(rows) && k < |rows|
    requires ReachableIn(rows, rows[k].span, n) && ReachableIn(rows, rows[k].span, m)
    ensures n == m
    decreases n
  {
    hide ReachableIn;
    if rows[k].parent.None? || rows[k].parent.value !in IdSet(rows) {
      ReachableStep(rows, k, n);
      ReachableStep(rows, k, m);
    } else {
      ParentIsReachable(rows, k, n);
      ParentIsReachable(rows, k, m);
      var i :| 0 <= i < |rows| && rows[i].span == rows[k].parent.value;
      DepthIsUnique(rows, i, n - 1, m - 1);
    }
  }

  lemma {:induction false} RankedRowsAreReachable(rows: seq<Event>, rank: Id -> nat, k: nat)
    requires DistinctSpans(rows) && Ranked(rows, rank) && k < |rows|
    ensures Reachable(rows, rows[k].span)
    decreases rank(rows[k].span)
  {
    if rows[k].parent.None? || rows[k].parent.value !in IdSet(rows) {
      ReachableStep(rows, k, 0);
    } else {
      var i :| 0 <= i < |rows| && rows[i].span == rows[k].parent.value;
      RankedRowsAreReachable(rows, rank, i);
      var n: nat :| ReachableIn(rows, rows[i].span, n);
      ReachableStep(rows, k, n + 1);
    }
  }

  ghost function Depth(rows: seq<Event>): Id -> nat {
    (id: Id) => if Reachable(rows, id) then var n: nat :| ReachableIn(rows, id, n); n else 0
  }

  lemma DepthRanks(rows: seq<Event>, k: nat)
    requires DistinctSpans(rows) && k < |rows| && Reachable(rows, rows[k].span)
    requires rows[k].parent.Some? && rows[k].parent.value in IdSet(rows)
    ensures Depth(rows)(rows[k].parent.value) < Depth(rows)(rows[k].span)
  {
    var n := Depth(rows)(rows[k].span);
    ParentIsReachable(rows, k, n);
    var i :| 0 <= i < |rows| && rows[i].span == rows[k].parent.value;
    DepthIsUnique(rows, i, n - 1, Depth(rows)(rows[i].span));
  }

  /** The builder drops no row exactly when the parent links are acyclic. */
  lemma CompleteIffAcyclic(rows: seq<Event>)
    requires DistinctSpans(rows)
    ensures (forall k :: 0 <= k < |rows| ==> Reachable(rows, rows[k].span))
            <==> exists rank: Id -> nat :: Ranked(rows, rank)
  {
    if forall k :: 0 <= k < |rows| ==> Reachable(rows, rows[k].span) {
      forall k | 0 <= k < |rows| && rows[k].parent.Some? && rows[k].parent.value in IdSet(rows)
        ensures Depth(rows)(rows[k].parent.value) < Depth(rows)(rows[k].span)
      {
        DepthRanks(rows, k);
      }
      assert Ranked(rows, Depth(rows));
    }
    if rank: Id -> nat :| Ranked(rows, rank) {
      forall k | 0 <= k < |rows|
        ensures Reachable(rows, rows[k].span)
      {
        RankedRowsAreReachable(rows, rank, k);
      }
    }
  }

  lemma NothingSelected(p: Event -> bool, rows: seq<Event>)
    requires forall i :: 0 <= i < |rows| ==> !p(rows[i])
    ensures Selected(p, rows) == []
  {
    if Selected(p, rows) != [] {
      SelectedElement(p, rows, Selected(p, rows)[0]);
    }
  }

  /** Two spans that name each other as parent vanish: no root, no orphan, two rows. */
  lemma CyclicRowsAreLost(a: Event, b: Event)
    requires a.span != b.span && a.parent == Some(b.span) && b.parent == Some(a.span)
    ensures RootIds([a, b]) == [] && OrphanIds([a, b]) == [] && |[a, b]| == 2
  {
    var rows := [a, b];
    assert rows[0].span in IdSet(rows) && rows[1].span in IdSet(rows);
    NothingSelected(Unparented(IdSet(rows)), rows);
    NothingSelected(Orphaned(IdSet(rows)), rows);
  }

  // ----- order and totals -----

  lemma {:induction false} SelectedIsKept(p: Event -> bool, rows: seq<Event>)
    ensures Selected(p, rows) == Ids(Kept(p, rows))
  {
    if rows != [] {
      var n := |rows| - 1;
      SelectedIsKept(p, rows[..n]);
      assert rows == rows[..n] + [rows[n]];
      KeptConcat(p, rows[..n], [rows[n]]);
      MappedConcat(SpanOf(), Kept(p, rows[..n]), Kept(p, [rows[n]]));
    }
  }

  lemma SelectedPermuted(p: Event -> bool, rows: seq<Event>, rows': seq<Event>)
    requires multiset(rows) == multiset(rows')
    ensures multiset(Selected(p, rows)) == multiset(Selected(p, rows'))
  {
    SelectedIsKept(p, rows);
    SelectedIsKept(p, rows');
    KeptPermuted(p, rows, rows');
    MappedPermuted(SpanOf(), Kept(p, rows), Kept(p, rows'));
  }

  lemma IdSetPermuted(rows: seq<Event>, rows': seq<Event>)
    requires multiset(rows) == multiset(rows')
    ensures IdSet(rows) == IdSet(rows')
  {
    forall i | 0 <= i < |rows|
      ensures rows[i].span in IdSet(rows')
    {
      assert rows[i] in multiset(rows');
      var j :| 0 <= j < |rows'| && rows'[j] == rows[i];
    }
    forall i | 0 <= i < |rows'|
      ensures rows'[i].span in IdSet(rows)
    {
      assert rows'[i] in multiset(rows);
      var j :| 0 <= j < |rows| && rows[j] == rows'[i];
    }
  }

  /** Row order decides the order of siblings and nothing else. */
  lemma RowOrderOnlyOrdersSiblings(rows: seq<Event>, rows': seq<Event>, id: Id)
    requires multiset(rows) == multiset(rows')
    ensures multiset(ChildIds(rows, id)) == multiset(ChildIds(rows', id))
    ensures multiset(RootIds(rows)) == multiset(RootIds(rows'))
    ensures multiset(OrphanIds(rows)) == multiset(OrphanIds(rows'))
  {
    IdSetPermuted(rows, rows');
    SelectedPermuted(ParentIs(id), rows, rows');
    SelectedPermuted(Unparented(IdSet(rows)), rows, rows');
    SelectedPermuted(Orphaned(IdSet(rows)), rows, rows');
  }

  function OrZero(x: Option<real>): real { if x.Some? then x.value else 0.0 }

  function OrNone(x: Option<int>): int { if x.Some? then x.value else 0 }

  function CostOf(): Event -> real { (e: Event) => OrZero(e.cost) }

  function TokensOf(): Event -> int { (e: Event) => OrNone(e.promptTokens) + OrNone(e.completionTokens) }

  function FailureOf(): Event -> int { (e: Event) => if e.status != "ok" then 1 else 0 }

  /** The row of a span id. */
  ghost function RowOf(rows: seq<Event>, id: Id): (e: Event)
    requires id in IdSet(rows)
    ensures e in rows && e.span == id
  {
    var i :| 0 <= i < |rows| && rows[i].span == id;
    rows[i]
  }

  ghost function ById<T>(rows: seq<Event>, f: Event -> T, default: T): Id -> T {
    (id: Id) => if id in IdSet(rows) then f(RowOf(rows, id)) else default
  }

  lemma ByIdOverRows<T>(rows: seq<Event>, f: Event -> T, default: T)
    requires DistinctSpans(rows)
    ensures Mapped(ById(rows, f, default), Ids(rows)) == Mapped(f, rows)
  {
    forall i | 0 <= i < |rows|
      ensures ById(rows, f, default)(Ids(rows)[i]) == f(rows[i])
    {
      assert rows[i].span in IdSet(rows);
      var e := RowOf(rows, rows[i].span);
      var j :| 0 <= j < |rows| && rows[j] == e;
      assert j == i;
    }
  }

  const MAX_SPANS := 500

  /** `get_trace`'s answer; `rows` is None when the store is unreachable. */
  datatype TraceResult =
    | Unreachable
    | NotFound
    | Found(session: Id, spanCount: nat, rootCount: nat, orphanCount: nat, truncated: bool,
            errorCount: int, totalCost: real, totalTokens: int)

  function GetTrace(rows: Option<seq<Event>>): TraceResult {
    if rows.None? then Unreachable
    else if rows.value == [] then NotFound
    else
      var rs := rows.value;
      Found(rs[0].session, |rs|, |RootIds(rs)|, |OrphanIds(rs)|, |rs| >= MAX_SPANS,
            Total(Mapped(FailureOf(), rs)), ToMicros(Sum(Mapped(CostOf(), rs))), Total(Mapped(TokensOf(), rs)))
  }

  /** The totals that `get_trace` takes over rows are those of the forest it shows. */
  lemma TotalsCoverTheForest(rows: seq<Event>, rank: Id -> nat)
    requires DistinctSpans(rows) && Ranked(rows, rank) && rows != []
    ensures var shown := Preorder(Forest(rows, rank));
            var r := GetTrace(Some(rows));
            && r.Found?
            && r.spanCount == |shown|
            && r.totalCost == ToMicros(Sum(Mapped(ById(rows, CostOf(), 0.0), shown)))
            && r.totalTokens == Total(Mapped(ById(rows, TokensOf(), 0), shown))
            && r.errorCount == Total(Mapped(ById(rows, FailureOf(), 0), shown))
  {
    var shown := Preorder(Forest(rows, rank));
    ForestHoldsEveryRowOnce(rows, rank);
    assert |multiset(shown)| == |multiset(Ids(rows))|;
    ByIdOverRows(rows, CostOf(), 0.0);
    MappedPermuted(ById(rows, CostOf(), 0.0), shown, Ids(rows));
    SumPermuted(Mapped(ById(rows, CostOf(), 0.0), shown), Mapped(CostOf(), rows));
    ByIdOverRows(rows, TokensOf(), 0);
    MappedPermuted(ById(rows, TokensOf(), 0), shown, Ids(rows));
    TotalPermuted(Mapped(ById(rows, TokensOf(), 0), shown), Mapped(TokensOf(), rows));
    ByIdOverRows(rows, FailureOf(), 0);
    MappedPermuted(ById(rows, FailureOf(), 0), shown, Ids(rows));
    TotalPermuted(Mapped(ById(rows, FailureOf(), 0), shown), Mapped(FailureOf(), rows));
  }
}
