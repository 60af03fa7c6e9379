/** eval/label.py: the matrix program for Cohen's kappa, plain and quadratically weighted.

    The program fills a matrix of counts, one row and column for each category in use, divides by
    the number of pairs, and sums cells under a weight. It returns kappa as it is defined over the
    pairs themselves, with no matrix. */
module Agreement {
  import opened Wrappers
  import opened RealAlgebra
  import opened Weights
  import opened Disagreement
  import opened CategorySums

  // ----- the program -----

  function Inserted(cats: seq<int>, c: int): (r: seq<int>)
    requires Increasing(cats)
    ensures Increasing(r) && forall x :: x in r <==> x in cats || x == c
  {
    if cats == [] then [c]
    else if c < cats[0] then [c] + cats
    else if c == cats[0] then cats
    else
      var rest := Inserted(cats[1..], c);
      assert forall i :: 0 <= i < |rest| ==> rest[i] in rest;
      assert cats == [cats[0]] + cats[1..];
      [cats[0]] + rest
  }

  /** `sorted({c for pair in pairs for c in pair})`. */
  function SortedCategories(pairs: seq<Pair>): (cats: seq<int>)
    ensures Categories(cats, pairs)
  {
    if pairs == [] then []
    else
      UsedGrows(pairs);
      Inserted(Inserted(SortedCategories(pairs[..|pairs| - 1]), pairs[|pairs| - 1].0), pairs[|pairs| - 1].1)
  }

  lemma CategoryBounds(pairs: seq<Pair>)
    requires pairs != []
    ensures var cats := SortedCategories(pairs);
            && cats != [] && cats[0] == Lowest(pairs) && cats[|cats| - 1] == Highest(pairs)
            && (|cats| >= 2 <==> Varied(pairs))
  {
    hide SortedCategories, Lowest, Highest, Used;
    var cats := SortedCategories(pairs);
    Extremes(pairs);
    var i :| 0 <= i < |cats| && cats[i] == Lowest(pairs);
    var j :| 0 <= j < |cats| && cats[j] == Highest(pairs);
    assert cats[0] in cats && cats[|cats| - 1] in cats;
    if |cats| >= 2 {
      assert cats[1] in cats && cats[0] != cats[1];
    }
    if Varied(pairs) {
      var x, y :| x in Used(pairs) && y in Used(pairs) && x != y;
      assert x in cats && y in cats;
    }
  }

  lemma PairsAreCategorised(pairs: seq<Pair>, cats: seq<int>)
    requires Categories(cats, pairs)
    ensures forall i :: 0 <= i < |pairs| ==> pairs[i].0 in cats && pairs[i].1 in cats
  {
    forall i | 0 <= i < |pairs|
      ensures pairs[i].0 in cats && pairs[i].1 in cats
    {
      var a, b := pairs[i].0, pairs[i].1;
      assert a in Used(pairs) && b in Used(pairs);
      assert a in cats && b in cats;
    }
  }

  /** `observed` counts the pairs by category, row by judge and column by human. */
  ghost predicate Tabulates(observed: array2<real>, pairs: seq<Pair>, cats: seq<int>)
    reads observed
  {
    && observed.Length0 == observed.Length1 == |cats|
    && forall i, j :: 0 <= i < |cats| && 0 <= j < |cats| ==> observed[i, j] == Both(pairs, cats[i], cats[j]) as real
  }

  lemma NoPairs()
    ensures forall c, d :: Both([], c, d) == 0
  {
  }

  lemma OneMorePair(pairs: seq<Pair>, a: int, b: int)
    ensures forall c, d :: Both(pairs + [(a, b)], c, d) == Both(pairs, c, d) + if (a, b) == (c, d) then 1 else 0
  {
    assert (pairs + [(a, b)])[..|pairs|] == pairs;
  }

  method Tabulate(pairs: seq<Pair>, cats: seq<int>) returns (observed: array2<real>)
    requires Increasing(cats) && forall i :: 0 <= i < |pairs| ==> pairs[i].0 in cats && pairs[i].1 in cats
    ensures fresh(observed) && Tabulates(observed, pairs, cats)
  {
    hide Both;
    var index := map i | 0 <= i < |cats| :: cats[i] := i;
    observed := new real[|cats|, |cats|]((i, j) => 0.0);
    NoPairs();
    assert pairs[..0] == [];
    for t := 0 to |pairs|
      invariant Tabulates(observed, pairs[..t], cats)
    {
      var (a, b) := pairs[t];
      assert pairs[..t + 1] == pairs[..t] + [(a, b)];
      OneMorePair(pairs[..t], a, b);
      observed[index[a], index[b]] := observed[index[a], index[b]] + 1.0;
    }
    assert pairs[..|pairs|] == pairs;
  }

  method RowTotals(observed: array2<real>, pairs: seq<Pair>, cats: seq<int>, i: nat) returns (row: real, col: real)
    requires i < |cats| && Tabulates(observed, pairs, cats)
    ensures row == RowTotal(pairs, cats[i], cats) as real && col == ColumnTotal(pairs, cats[i], cats) as real
  {
    row, col := 0.0, 0.0;
    for j := 0 to |cats|
      invariant row == RowTotal(pairs, cats[i], cats[..j]) as real
      invariant col == ColumnTotal(pairs, cats[i], cats[..j]) as real
    {
      assert cats[..j + 1][..j] == cats[..j];
      row := row + observed[i, j];
      col := col + observed[j, i];
    }
    assert cats[..|cats|] == cats;
  }

  method Marginals(observed: array2<real>, pairs: seq<Pair>, cats: seq<int>) returns (rows: seq<real>, cols: seq<real>)
    requires pairs != [] && Increasing(cats) && Tabulates(observed, pairs, cats)
    requires forall i :: 0 <= i < |pairs| ==> pairs[i].0 in cats && pairs[i].1 in cats
    ensures |rows| == |cols| == |cats|
    ensures forall i :: 0 <= i < |cats| ==>
            rows[i] == FirstShares(pairs)(cats[i]) && cols[i] == SecondShares(pairs)(cats[i])
  {
    rows, cols := [], [];
    for i := 0 to |cats|
      invariant |rows| == |cols| == i
      invariant forall h :: 0 <= h < i ==>
                rows[h] == FirstShares(pairs)(cats[h]) && cols[h] == SecondShares(pairs)(cats[h])
    {
      var row, col := RowTotals(observed, pairs, cats, i);
      TotalsAreMarginals(pairs, cats[i], cats);
      rows := rows + [row / |pairs| as real];
      cols := cols + [col / |pairs| as real];
    }
  }

  lemma ObservedSum(w: Weight, pairs: seq<Pair>, cats: seq<int>, n: real)
    requires n != 0.0 && Increasing(cats)
    requires forall i :: 0 <= i < |pairs| ==> pairs[i].0 in cats && pairs[i].1 in cats
    ensures ObservedCells(w, BothOf(pairs), n, cats, cats) == Observed(w, pairs) / n
  {
    ObservedCellsScale(w, BothOf(pairs), n, cats, cats);
    CellsAreObserved(w, pairs, cats);
    Quotient(ObservedCells(w, BothOf(pairs), n, cats, cats), Observed(w, pairs), n);
  }

  lemma ExpectedSum(w: Weight, pairs: seq<Pair>, cats: seq<int>, f: int -> real, g: int -> real, n: real, n2: real)
    requires Increasing(cats) && n2 == n * n && n2 > 0.0 && Shares(f, FirstOf(pairs), n)
             && Shares(g, SecondOf(pairs), n)
    requires forall i :: 0 <= i < |pairs| ==> pairs[i].0 in cats && pairs[i].1 in cats
    ensures ExpectedCells(w, f, g, cats, cats) == Expected(w, pairs, pairs) / n2
  {
    var first, h, h' := FirstOf(pairs), ColumnSharesOf(w, g, cats), AgainstOf(w, pairs);
    RowSharesScale(w, f, g, first, n, cats);
    ColumnSharesAreAgainst(w, pairs, cats, g, n);
    RepeatedScales(first, h, h', n);
    RowsAreExpected(w, pairs, pairs, cats);
    OverQuotient(ExpectedRowOf(w, f, g, cats), Repeated(first, h), Repeated(first, h'), n, n2, cats,
      Expected(w, pairs, pairs));
  }

  /** The program's two sums are the pairwise disagreements, as shares of the comparisons made. */
  lemma SumsAreTotals(w: Weight, pairs: seq<Pair>, cats: seq<int>, f: int -> real, g: int -> real, n: real, n2: real)
    requires n != 0.0 && n2 == n * n && n2 > 0.0 && Increasing(cats)
    requires Shares(f, FirstOf(pairs), n) && Shares(g, SecondOf(pairs), n)
    requires forall i :: 0 <= i < |pairs| ==> pairs[i].0 in cats && pairs[i].1 in cats
    ensures FromSums(ObservedCells(w, BothOf(pairs), n, cats, cats), ExpectedCells(w, f, g, cats, cats))
         == FromTotals(Observed(w, pairs), Expected(w, pairs, pairs), n, n2)
  {
    ObservedSum(w, pairs, cats, n);
    ExpectedSum(w, pairs, cats, f, g, n, n2);
  }

  lemma TableIsTotals(w: Weight, pairs: seq<Pair>, cats: seq<int>)
    requires pairs != [] && Increasing(cats)
    requires forall i :: 0 <= i < |pairs| ==> pairs[i].0 in cats && pairs[i].1 in cats
    ensures |pairs| as real * |pairs| as real > 0.0
    ensures FromSums(ObservedCells(w, BothOf(pairs), |pairs| as real, cats, cats),
            ExpectedCells(w, FirstShares(pairs), SecondShares(pairs), cats, cats))
         == FromTotals(Observed(w, pairs), Expected(w, pairs, pairs), |pairs| as real,
           |pairs| as real * |pairs| as real)
  {
    Counted(pairs);
    SharesHold(pairs);
    SumsAreTotals(w, pairs, cats, FirstShares(pairs), SecondShares(pairs), |pairs| as real,
      |pairs| as real * |pairs| as real);
  }

  method SumObserved(w: Weight, observed: array2<real>, ghost o: Table, n: real, cats: seq<int>) returns (po: real)
    requires n != 0.0 && observed.Length0 == observed.Length1 == |cats|
    requires forall i, j :: 0 <= i < |cats| && 0 <= j < |cats| ==> observed[i, j] == o(cats[i], cats[j]) as real
    ensures po == ObservedCells(w, o, n, cats, cats)
  {
    po := 0.0;
    for i := 0 to |cats|
      invariant po == ObservedCells(w, o, n, cats[..i], cats)
    {
      assert cats[..i + 1][..i] == cats[..i];
      for j := 0 to |cats|
        invariant po == ObservedCells(w, o, n, cats[..i], cats) + ObservedRow(w, o, n, cats[i], cats[..j])
      {
        assert cats[..j + 1][..j] == cats[..j];
        po := po + Share(w(cats[i], cats[j]) * observed[i, j], n);
      }
      assert cats[..|cats|] == cats;
    }
    assert cats[..|cats|] == cats;
  }

  method SumExpected(w: Weight, rows: seq<real>, cols: seq<real>, ghost f: int -> real, ghost g: int -> real,
      cats: seq<int>) returns (pe: real)
    requires |rows| == |cols| == |cats|
    requires forall i :: 0 <= i < |cats| ==> rows[i] == f(cats[i]) && cols[i] == g(cats[i])
    ensures pe == ExpectedCells(w, f, g, cats, cats)
  {
    pe := 0.0;
    for i := 0 to |cats|
      invariant pe == ExpectedCells(w, f, g, cats[..i], cats)
    {
      assert cats[..i + 1][..i] == cats[..i];
      for j := 0 to |cats|
        invariant pe == ExpectedCells(w, f, g, cats[..i], cats) + ExpectedRow(w, f, g, cats[i], cats[..j])
      {
        assert cats[..j + 1][..j] == cats[..j];
        pe := pe + w(cats[i], cats[j]) * rows[i] * cols[j];
      }
      assert cats[..|cats|] == cats;
    }
    assert cats[..|cats|] == cats;
  }

  /** The matrix program computes the reference definition; its test for `pe == 0` is there, and
      never succeeds. */
  method CohensKappa(pairs: seq<Pair>, weighted: bool) returns (kappa: Option<real>)
    ensures kappa == Kappa(pairs, weighted)
  {
    if |pairs| < 2 {
      return None;
    }
    var cats := SortedCategories(pairs);
    CategoryBounds(pairs);
    if |cats| < 2 {
      return None;
    }
    PairsAreCategorised(pairs, cats);
    WeightIsProper(pairs, weighted);
    var w := if weighted then Quadratic(cats[0], cats[|cats| - 1]) else Plain();
    kappa := FromTable(w, pairs, cats);
  }

  method FromTable(w: Weight, pairs: seq<Pair>, cats: seq<int>) returns (kappa: Option<real>)
    requires pairs != [] && Increasing(cats)
    requires forall i :: 0 <= i < |pairs| ==> pairs[i].0 in cats && pairs[i].1 in cats
    ensures |pairs| as real * |pairs| as real > 0.0
    ensures kappa
            == FromTotals(Observed(w, pairs), Expected(w, pairs, pairs), |pairs| as real,
            |pairs| as real * |pairs| as real)
  {
    Counted(pairs);
    var observed := Tabulate(pairs, cats);
    var rows, cols := Marginals(observed, pairs, cats);
    var po := SumObserved(w, observed, BothOf(pairs), |pairs| as real, cats);
    var pe := SumExpected(w, rows, cols, FirstShares(pairs), SecondShares(pairs), cats);
    TableIsTotals(w, pairs, cats);
    kappa := FromSums(po, pe);
  }
}
