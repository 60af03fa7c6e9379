/** eval/label.py: sums over a table of categories are sums over the labelled pairs.

    Both directions of the double counting behind the matrix form of kappa, term by term: rows,
    columns and cells as counts, then as shares of the number of pairs. */
module CategorySums {
  import opened RealAlgebra
  import opened Weights

  // ----- counting -----

  function Both(pairs: seq<Pair>, c: int, d: int): nat {
    if pairs == [] then 0 else Both(pairs[..|pairs| - 1], c, d) + if pairs[|pairs| - 1] == (c, d) then 1 else 0
  }

  function First(pairs: seq<Pair>, c: int): nat {
    if pairs == [] then 0 else First(pairs[..|pairs| - 1], c) + if pairs[|pairs| - 1].0 == c then 1 else 0
  }

  function Second(pairs: seq<Pair>, c: int): nat {
    if pairs == [] then 0 else Second(pairs[..|pairs| - 1], c) + if pairs[|pairs| - 1].1 == c then 1 else 0
  }

  // ----- from pairs to categories -----

  ghost predicate Increasing(cats: seq<int>) {
    forall i, j :: 0 <= i < j < |cats| ==> cats[i] < cats[j]
  }

  /** Strictly increasing, and exactly the categories in use. */
  ghost predicate Categories(cats: seq<int>, pairs: seq<Pair>) {
    Increasing(cats) && forall c :: c in cats <==> c in Used(pairs)
  }

  /** `x` added `k` times. */
  function Times(x: real, k: nat): real {
    if k == 0 then 0.0 else Times(x, k - 1) + x
  }

  lemma {:induction false} TimesIsProduct(x: real, k: nat)
    ensures Times(x, k) == x * k as real
  {
    if k > 0 {
      TimesIsProduct(x, k - 1);
      Distribute(x, (k - 1) as real, 1.0);
    }
  }

  type Table = (int, int) -> nat

  type Margin = int -> nat

  function BothOf(pairs: seq<Pair>): Table { (c: int, d: int) => Both(pairs, c, d) }

  function FirstOf(pairs: seq<Pair>): Margin { (c: int) => First(pairs, c) }

  function SecondOf(pairs: seq<Pair>): Margin { (d: int) => Second(pairs, d) }

  function AgainstOf(w: Weight, pairs: seq<Pair>): int -> real { (c: int) => Against(w, c, pairs) }

  /** The weighted contents of row `c` of the table `o`, and of the rows `rows`. */
  function Row(w: Weight, o: Table, c: int, cats: seq<int>): real {
    if cats == [] then 0.0
    else Row(w, o, c, cats[..|cats| - 1]) + Times(w(c, cats[|cats| - 1]), o(c, cats[|cats| - 1]))
  }

  function Cells(w: Weight, o: Table, rows: seq<int>, cats: seq<int>): real {
    if rows == [] then 0.0
    else Cells(w, o, rows[..|rows| - 1], cats) + Row(w, o, rows[|rows| - 1], cats)
  }

  /** `after` is the table `before` with one more at `(x, y)`. */
  ghost predicate CellBumped(before: Table, after: Table, x: int, y: int) {
    forall c, d :: after(c, d) == before(c, d) + if (c, d) == (x, y) then 1 else 0
  }

  lemma {:induction false} RowBump(w: Weight, before: Table, after: Table, x: int, y: int, c: int, cats: seq<int>)
    requires CellBumped(before, after, x, y) && Increasing(cats)
    ensures Row(w, after, c, cats) == Row(w, before, c, cats) + if c == x && y in cats then w(x, y) else 0.0
  {
    if cats != [] {
      var m := |cats| - 1;
      RowBump(w, before, after, x, y, c, cats[..m]);
      assert cats == cats[..m] + [cats[m]];
      assert after(c, cats[m]) == before(c, cats[m]) + if (c, cats[m]) == (x, y) then 1 else 0;
    }
  }

  lemma {:induction false} CellsBump(w: Weight, before: Table, after: Table, x: int, y: int, rows: seq<int>,
      cats: seq<int>)
    requires CellBumped(before, after, x, y) && Increasing(cats) && Increasing(rows)
    ensures Cells(w, after, rows, cats)
         == Cells(w, before, rows, cats) + if x in rows && y in cats then w(x, y) else 0.0
  {
    if rows != [] {
      var m := |rows| - 1;
      CellsBump(w, before, after, x, y, rows[..m], cats);
      RowBump(w, before, after, x, y, rows[m], cats);
      assert rows == rows[..m] + [rows[m]];
    }
  }

  lemma {:induction false} EmptyCells(w: Weight, o: Table, rows: seq<int>, cats: seq<int>)
    requires forall c, d :: o(c, d) == 0
    ensures Cells(w, o, rows, cats) == 0.0
  {
    if rows != [] {
      EmptyCells(w, o, rows[..|rows| - 1], cats);
      EmptyRow(w, o, rows[|rows| - 1], cats);
    }
  }

  lemma {:induction false} EmptyRow(w: Weight, o: Table, c: int, cats: seq<int>)
    requires forall c, d :: o(c, d) == 0
    ensures Row(w, o, c, cats) == 0.0
  {
    if cats != [] {
      EmptyRow(w, o, c, cats[..|cats| - 1]);
      assert o(c, cats[|cats| - 1]) == 0;
    }
  }

  /** Summing the weighted table is summing over the pairs. */
  lemma {:induction false} CellsAreObserved(w: Weight, pairs: seq<Pair>, cats: seq<int>)
    requires Increasing(cats)
    requires forall i :: 0 <= i < |pairs| ==> pairs[i].0 in cats && pairs[i].1 in cats
    ensures Cells(w, BothOf(pairs), cats, cats) == Observed(w, pairs)
  {
    if pairs == [] {
      EmptyCells(w, BothOf(pairs), cats, cats);
    } else {
      var n := |pairs| - 1;
      CellsAreObserved(w, pairs[..n], cats);
      CellsBump(w, BothOf(pairs[..n]), BothOf(pairs), pairs[n].0, pairs[n].1, cats, cats);
    }
  }

  /** The weighted column totals `g`, seen from row `c`. */
  function ColumnSums(w: Weight, g: Margin, c: int, cats: seq<int>): real {
    if cats == [] then 0.0
    else ColumnSums(w, g, c, cats[..|cats| - 1]) + Times(w(c, cats[|cats| - 1]), g(cats[|cats| - 1]))
  }

  /** `after` is `before` with one more at `x`. */
  ghost predicate Bumped(before: Margin, after: Margin, x: int) {
    forall c :: after(c) == before(c) + if c == x then 1 else 0
  }

  lemma {:induction false} ColumnSumsBump(w: Weight, before: Margin, after: Margin, x: int, c: int, cats: seq<int>)
    requires Bumped(before, after, x) && Increasing(cats)
    ensures ColumnSums(w, after, c, cats) == ColumnSums(w, before, c, cats) + if x in cats then w(c, x) else 0.0
  {
    if cats != [] {
      var m := |cats| - 1;
      ColumnSumsBump(w, before, after, x, c, cats[..m]);
      assert cats == cats[..m] + [cats[m]];
      assert after(cats[m]) == before(cats[m]) + if cats[m] == x then 1 else 0;
    }
  }

  lemma {:induction false} EmptyColumnSums(w: Weight, g: Margin, c: int, cats: seq<int>)
    requires forall d :: g(d) == 0
    ensures ColumnSums(w, g, c, cats) == 0.0
  {
    if cats != [] {
      EmptyColumnSums(w, g, c, cats[..|cats| - 1]);
      assert g(cats[|cats| - 1]) == 0;
    }
  }

  lemma {:induction false} ColumnSumsAreAgainst(w: Weight, c: int, all: seq<Pair>, cats: seq<int>)
    requires Increasing(cats) && forall i :: 0 <= i < |all| ==> all[i].1 in cats
    ensures ColumnSums(w, SecondOf(all), c, cats) == Against(w, c, all)
  {
    if all == [] {
      EmptyColumnSums(w, SecondOf(all), c, cats);
    } else {
      var n := |all| - 1;
      ColumnSumsAreAgainst(w, c, all[..n], cats);
      ColumnSumsBump(w, SecondOf(all[..n]), SecondOf(all), all[n].1, c, cats);
    }
  }

  function Over(q: int -> real, rows: seq<int>): real {
    if rows == [] then 0.0 else Over(q, rows[..|rows| - 1]) + q(rows[|rows| - 1])
  }

  /** The quantity `h`, taken as often as `f` counts. */
  function Repeated(f: Margin, h: int -> real): int -> real { (c: int) => Times(h(c), f(c)) }

  lemma RepeatedAt(f: Margin, h: int -> real, c: int)
    ensures Repeated(f, h)(c) == Times(h(c), f(c))
  {
  }

  lemma {:induction false} RepeatedBump(before: Margin, after: Margin, h: int -> real, x: int, rows: seq<int>)
    requires Bumped(before, after, x) && Increasing(rows)
    ensures Over(Repeated(after, h), rows) == Over(Repeated(before, h), rows) + if x in rows then h(x) else 0.0
  {
    if rows != [] {
      var m := |rows| - 1;
      RepeatedBump(before, after, h, x, rows[..m]);
      assert rows == rows[..m] + [rows[m]];
      assert after(rows[m]) == before(rows[m]) + if rows[m] == x then 1 else 0;
    }
  }

  lemma {:induction false} EmptyRepeated(f: Margin, h: int -> real, rows: seq<int>)
    requires forall c :: f(c) == 0
    ensures Over(Repeated(f, h), rows) == 0.0
  {
    if rows != [] {
      EmptyRepeated(f, h, rows[..|rows| - 1]);
      var c := rows[|rows| - 1];
      assert f(c) == 0 && Repeated(f, h)(c) == Times(h(c), f(c));
    }
  }

  /** Summing over row totals is summing over all pairs of pairs. */
  lemma {:induction false} RowsAreExpected(w: Weight, pairs: seq<Pair>, all: seq<Pair>, rows: seq<int>)
    requires Increasing(rows) && forall i :: 0 <= i < |pairs| ==> pairs[i].0 in rows
    ensures Over(Repeated(FirstOf(pairs), AgainstOf(w, all)), rows) == Expected(w, pairs, all)
  {
    var h := AgainstOf(w, all);
    if pairs == [] {
      EmptyRepeated(FirstOf(pairs), h, rows);
    } else {
      var n := |pairs| - 1;
      RowsAreExpected(w, pairs[..n], all, rows);
      RepeatedBump(FirstOf(pairs[..n]), FirstOf(pairs), h, pairs[n].0, rows);
      assert h(pairs[n].0) == Against(w, pairs[n].0, all);
    }
  }

  /** The counts of row `c` over the columns `cats`, unweighted. */
  function RowTotal(pairs: seq<Pair>, c: int, cats: seq<int>): nat {
    if cats == [] then 0 else RowTotal(pairs, c, cats[..|cats| - 1]) + Both(pairs, c, cats[|cats| - 1])
  }

  function ColumnTotal(pairs: seq<Pair>, d: int, cats: seq<int>): nat {
    if cats == [] then 0 else ColumnTotal(pairs, d, cats[..|cats| - 1]) + Both(pairs, cats[|cats| - 1], d)
  }

  lemma {:induction false} TotalsGrow(pairs: seq<Pair>, c: int, cats: seq<int>)
    requires pairs != [] && Increasing(cats)
    ensures var p := pairs[|pairs| - 1];
            && RowTotal(pairs, c, cats)
               == RowTotal(pairs[..|pairs| - 1], c, cats) + (if p.0 == c && p.1 in cats then 1 else 0)
            && ColumnTotal(pairs, c, cats)
               == ColumnTotal(pairs[..|pairs| - 1], c, cats) + (if p.1 == c && p.0 in cats then 1 else 0)
  {
    if cats != [] {
      var m := |cats| - 1;
      TotalsGrow(pairs, c, cats[..m]);
      assert cats == cats[..m] + [cats[m]];
    }
  }

  lemma {:induction false} EmptyTotals(c: int, cats: seq<int>)
    ensures RowTotal([], c, cats) == 0 && ColumnTotal([], c, cats) == 0
  {
    if cats != [] {
      EmptyTotals(c, cats[..|cats| - 1]);
    }
  }

  lemma {:induction false} TotalsAreMarginals(pairs: seq<Pair>, c: int, cats: seq<int>)
    requires Increasing(cats) && forall i :: 0 <= i < |pairs| ==> pairs[i].0 in cats && pairs[i].1 in cats
    ensures RowTotal(pairs, c, cats) == First(pairs, c) && ColumnTotal(pairs, c, cats) == Second(pairs, c)
  {
    if pairs == [] {
      EmptyTotals(c, cats);
    } else {
      TotalsAreMarginals(pairs[..|pairs| - 1], c, cats);
      TotalsGrow(pairs, c, cats);
    }
  }

  function Share(x: real, n: real): real
    requires n != 0.0
  {
    x / n
  }

  /** What the program adds up for `po` in row `c`, and over the rows `rows`. */
  function ObservedRow(w: Weight, o: Table, n: real, c: int, cats: seq<int>): real
    requires n != 0.0
  {
    if cats == [] then 0.0
    else ObservedRow(w, o, n, c, cats[..|cats| - 1]) + Share(w(c, cats[|cats| - 1]) * o(c, cats[|cats| - 1]) as real, n)
  }

  function ObservedCells(w: Weight, o: Table, n: real, rows: seq<int>, cats: seq<int>): real
    requires n != 0.0
  {
    if rows == [] then 0.0
    else ObservedCells(w, o, n, rows[..|rows| - 1], cats) + ObservedRow(w, o, n, rows[|rows| - 1], cats)
  }

  /** What the program adds up for `pe` in row `c`, and over the rows `rows`. */
  function ExpectedRow(w: Weight, f: int -> real, g: int -> real, c: int, cats: seq<int>): real {
    if cats == [] then 0.0
    else ExpectedRow(w, f, g, c, cats[..|cats| - 1]) + w(c, cats[|cats| - 1]) * f(c) * g(cats[|cats| - 1])
  }

  function ExpectedRowOf(w: Weight, f: int -> real, g: int -> real, cats: seq<int>): int -> real {
    (c: int) => ExpectedRow(w, f, g, c, cats)
  }

  function ExpectedCells(w: Weight, f: int -> real, g: int -> real, rows: seq<int>, cats: seq<int>): real {
    Over(ExpectedRowOf(w, f, g, cats), rows)
  }

  lemma CountedTerm(sum: real, x: real, k: nat, n: real)
    requires n != 0.0
    ensures (sum + Share(x * k as real, n)) * n == sum * n + Times(x, k)
  {
    TimesIsProduct(x, k);
    var y := x * k as real;
    assert y / n * n == y;
  }

  lemma {:induction false} ObservedRowScales(w: Weight, o: Table, n: real, c: int, cats: seq<int>)
    requires n != 0.0
    ensures ObservedRow(w, o, n, c, cats) * n == Row(w, o, c, cats)
  {
    if cats != [] {
      var m := |cats| - 1;
      ObservedRowScales(w, o, n, c, cats[..m]);
      CountedTerm(ObservedRow(w, o, n, c, cats[..m]), w(c, cats[m]), o(c, cats[m]), n);
    }
  }

  lemma {:induction false} ObservedCellsScale(w: Weight, o: Table, n: real, rows: seq<int>, cats: seq<int>)
    requires n != 0.0
    ensures ObservedCells(w, o, n, rows, cats) * n == Cells(w, o, rows, cats)
  {
    if rows != [] {
      hide ObservedRow, Row;
      var m := |rows| - 1;
      ObservedCellsScale(w, o, n, rows[..m], cats);
      ObservedRowScales(w, o, n, rows[m], cats);
      ScaledSum(ObservedCells(w, o, n, rows[..m], cats), ObservedRow(w, o, n, rows[m], cats), n,
                Cells(w, o, rows[..m], cats), Row(w, o, rows[m], cats));
    }
  }

  /** The weighted column shares, seen from row `c`. */
  function ColumnShares(w: Weight, g: int -> real, c: int, cats: seq<int>): real {
    if cats == [] then 0.0
    else ColumnShares(w, g, c, cats[..|cats| - 1]) + w(c, cats[|cats| - 1]) * g(cats[|cats| - 1])
  }

  lemma {:induction false} ExpectedRowFactors(w: Weight, f: int -> real, g: int -> real, c: int, cats: seq<int>)
    ensures ExpectedRow(w, f, g, c, cats) == f(c) * ColumnShares(w, g, c, cats)
  {
    if cats != [] {
      var m := |cats| - 1;
      ExpectedRowFactors(w, f, g, c, cats[..m]);
      Factor(w(c, cats[m]), f(c), g(cats[m]), ColumnShares(w, g, c, cats[..m]));
    }
  }

  /** `share` is `count`, as a share of `n`. */
  ghost predicate Shares(share: int -> real, count: Margin, n: real) {
    forall c :: share(c) * n == count(c) as real
  }

  lemma SharedTerm(sum: real, w: real, share: real, n: real, sum': real, k: nat)
    requires sum * n == sum' && share * n == k as real
    ensures (sum + w * share) * n == sum' + Times(w, k)
  {
    TimesIsProduct(w, k);
    calc {
      (sum + w * share) * n;
      sum * n + w * (share * n);
      sum' + w * k as real;
    }
  }

  lemma {:induction false} ColumnSharesScale(w: Weight, share: int -> real, count: Margin, n: real, c: int,
      cats: seq<int>)
    requires Shares(share, count, n)
    ensures ColumnShares(w, share, c, cats) * n == ColumnSums(w, count, c, cats)
  {
    if cats != [] {
      var m := |cats| - 1;
      var d := cats[m];
      ColumnSharesScale(w, share, count, n, c, cats[..m]);
      assert share(d) * n == count(d) as real;
      SharedTerm(ColumnShares(w, share, c, cats[..m]), w(c, d), share(d), n, ColumnSums(w, count, c, cats[..m]),
        count(d));
    }
  }

  lemma SharedRow(row: real, share: real, shares: real, n: real, k: nat)
    requires row == share * shares && share * n == k as real
    ensures row * n == Times(shares, k)
  {
    TimesIsProduct(shares, k);
    calc {
      (share * shares) * n;
      (share * n) * shares;
      k as real * shares;
    }
  }

  lemma {:induction false} TimesScales(x: real, y: real, n: real, k: nat)
    requires x * n == y
    ensures Times(x, k) * n == Times(y, k)
  {
    if k > 0 {
      TimesScales(x, y, n, k - 1);
      ScaledSum(Times(x, k - 1), x, n, Times(y, k - 1), y);
    }
  }

  function ColumnSharesOf(w: Weight, g: int -> real, cats: seq<int>): int -> real {
    (c: int) => ColumnShares(w, g, c, cats)
  }

  /** `q` is `k` times `r`, at every category. */
  ghost predicate Scales(r: int -> real, q: int -> real, k: real) {
    forall c :: r(c) * k == q(c)
  }

  lemma {:induction false} OverScales(r: int -> real, q: int -> real, k: real, rows: seq<int>)
    requires Scales(r, q, k)
    ensures Over(r, rows) * k == Over(q, rows)
  {
    if rows != [] {
      var m := |rows| - 1;
      OverScales(r, q, k, rows[..m]);
      var c := rows[m];
      assert r(c) * k == q(c);
      ScaledSum(Over(r, rows[..m]), r(c), k, Over(q, rows[..m]), q(c));
    }
  }

  /** Two scalings by `n` are one quotient by its square. */
  lemma OverQuotient(r: int -> real, q: int -> real, q': int -> real, n: real, n2: real, rows: seq<int>, total: real)
    requires Scales(r, q, n) && Scales(q, q', n) && n2 == n * n && n2 != 0.0 && Over(q', rows) == total
    ensures Over(r, rows) == total / n2
  {
    OverScales(r, q, n, rows);
    OverScales(q, q', n, rows);
    TwoQuotients(Over(r, rows), Over(q, rows), total, n, n2);
  }

  function FirstShares(pairs: seq<Pair>): int -> real
    requires pairs != []
  {
    (c: int) => First(pairs, c) as real / |pairs| as real
  }

  function SecondShares(pairs: seq<Pair>): int -> real
    requires pairs != []
  {
    (d: int) => Second(pairs, d) as real / |pairs| as real
  }

  lemma SharesHold(pairs: seq<Pair>)
    requires pairs != []
    ensures Shares(FirstShares(pairs), FirstOf(pairs), |pairs| as real)
    ensures Shares(SecondShares(pairs), SecondOf(pairs), |pairs| as real)
  {
    forall c
      ensures FirstShares(pairs)(c) * |pairs| as real == FirstOf(pairs)(c) as real
      ensures SecondShares(pairs)(c) * |pairs| as real == SecondOf(pairs)(c) as real
    {
      ShareAt(First(pairs, c) as real, |pairs| as real);
      ShareAt(Second(pairs, c) as real, |pairs| as real);
    }
  }

  lemma RowSharesScale(w: Weight, f: int -> real, g: int -> real, f': Margin, n: real, cats: seq<int>)
    requires Shares(f, f', n)
    ensures Scales(ExpectedRowOf(w, f, g, cats), Repeated(f', ColumnSharesOf(w, g, cats)), n)
  {
    forall c
      ensures ExpectedRowOf(w, f, g, cats)(c) * n == Repeated(f', ColumnSharesOf(w, g, cats))(c)
    {
      assert f(c) * n == f'(c) as real;
      RowSharesAt(w, f, g, f', n, c, cats);
    }
  }

  lemma RowSharesAt(w: Weight, f: int -> real, g: int -> real, f': Margin, n: real, c: int, cats: seq<int>)
    requires f(c) * n == f'(c) as real
    ensures ExpectedRowOf(w, f, g, cats)(c) * n == Repeated(f', ColumnSharesOf(w, g, cats))(c)
  {
    ExpectedRowFactors(w, f, g, c, cats);
    SharedRow(ExpectedRow(w, f, g, c, cats), f(c), ColumnShares(w, g, c, cats), n, f'(c));
    RepeatedAt(f', ColumnSharesOf(w, g, cats), c);
  }

  lemma RepeatedScales(f: Margin, h: int -> real, h': int -> real, n: real)
    requires Scales(h, h', n)
    ensures Scales(Repeated(f, h), Repeated(f, h'), n)
  {
    forall c
      ensures Repeated(f, h)(c) * n == Repeated(f, h')(c)
    {
      assert h(c) * n == h'(c);
      TimesScales(h(c), h'(c), n, f(c));
    }
  }

  lemma ColumnSharesAreAgainst(w: Weight, pairs: seq<Pair>, cats: seq<int>, g: int -> real, n: real)
    requires Increasing(cats) && Shares(g, SecondOf(pairs), n)
    requires forall i :: 0 <= i < |pairs| ==> pairs[i].1 in cats
    ensures Scales(ColumnSharesOf(w, g, cats), AgainstOf(w, pairs), n)
  {
    forall c
      ensures ColumnSharesOf(w, g, cats)(c) * n == AgainstOf(w, pairs)(c)
    {
      ColumnSharesScale(w, g, SecondOf(pairs), n, c, cats);
      ColumnSumsAreAgainst(w, c, pairs, cats);
    }
  }
}
