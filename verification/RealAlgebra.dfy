/** Facts about a few real numbers at a time.

    Every product and quotient the statistics need is reasoned about here, in lemmas small enough
    for a solver of nonlinear arithmetic; elsewhere products are only named. */
module RealAlgebra {
  function Square(x: real): real { x * x }

  lemma SquareNonNegative(x: real)
    ensures Square(x) >= 0.0 && (Square(x) == 0.0 <==> x == 0.0)
  {
    var y := x * x;
    assert Square(x) == y;
    if x < 0.0 {
      PositiveProduct(-x, -x, y);
    } else if x > 0.0 {
      PositiveProduct(x, x, y);
    }
  }

  lemma PositiveProduct(x: real, y: real, z: real)
    requires x > 0.0 && y > 0.0 && z == x * y
    ensures z > 0.0
  {
  }

  /** `p*p*c - 2*p*q*b + q*q*a`: the sum of the squares of `p*y - q*x`. */
  function Form(p: real, q: real, a: real, b: real, c: real): real {
    p * p * c - 2.0 * p * q * b + q * q * a
  }

  lemma FormStep(p: real, q: real, x: real, y: real, a: real, b: real, c: real)
    requires Form(p, q, a, b, c) >= 0.0
    ensures Form(p, q, x * x + a, x * y + b, y * y + c) >= 0.0
  {
    SquareNonNegative(p * y - q * x);
    calc {
      Form(p, q, x * x + a, x * y + b, y * y + c);
      Form(p, q, a, b, c) + (p * p * (y * y) - 2.0 * p * q * (x * y) + q * q * (x * x));
      Form(p, q, a, b, c) + Square(p * y - q * x);
    }
  }

  lemma Discriminant(a: real, b: real, c: real)
    requires a > 0.0 && Form(a, b, a, b, c) >= 0.0
    ensures b * b <= a * c
  {
    calc {
      Form(a, b, a, b, c);
      a * a * c - 2.0 * a * b * b + b * b * a;
      a * (a * c - b * b);
    }
    PositiveFactor(a, a * c - b * b);
  }

  lemma PositiveFactor(a: real, z: real)
    requires a > 0.0 && a * z >= 0.0
    ensures z >= 0.0
  {
    var q := a * z / a;
    assert q == z;
  }

  lemma SameFactor(a: real, x: real, y: real)
    requires a > 0.0 && a * x == a * y
    ensures x == y
  {
    var q, r := a * x / a, a * y / a;
    assert q == x && r == y;
  }

  lemma Cancel(a: real, x: real, y: real)
    requires a != 0.0 && x * a == y * a
    ensures x == y
  {
    var q, r := x * a / a, y * a / a;
    assert q == x && r == y;
  }

  lemma ProductOfDifferences(x: real, y: real, a: real, b: real)
    ensures (x - a) * (y - b) == x * y - a * y - b * x + a * b
  {
  }

  lemma Collect(d: real, x: real, y: real, a: real, b: real, sx: real, sy: real, n: real, d': real, sx': real,
      sy': real, n': real)
    requires d' == d - a * sy - b * sx + n * (a * b)
    requires sx' == x + sx && sy' == y + sy && n' == n + 1.0
    ensures (x - a) * (y - b) + d' == x * y + d - a * sy' - b * sx' + n' * (a * b)
  {
    ProductOfDifferences(x, y, a, b);
    assert a * (y + sy) == a * y + a * sy;
    assert b * (x + sx) == b * x + b * sx;
    assert (n + 1.0) * (a * b) == n * (a * b) + a * b;
  }

  lemma MeansCancel(n: real, a: real, b: real, sx: real, sy: real, d: real, d': real)
    requires n * a == sx && n * b == sy && d' == d - a * sy - b * sx + n * (a * b)
    ensures n * d' == n * d - sx * sy
  {
    calc {
      n * d';
      n * (d - a * sy - b * sx + n * (a * b));
      n * d - (n * a) * sy - (n * b) * sx + (n * a) * (n * b);
      n * d - sx * sy - sy * sx + sx * sy;
      n * d - sx * sy;
    }
  }

  lemma Distribute(a: real, x: real, y: real)
    ensures a * (x + y) == a * x + a * y
  {
  }

  lemma PositiveQuotient(x: real, n: real)
    requires x > 0.0 && n > 0.0
    ensures n * n > 0.0 && x / (n * n) > 0.0
  {
    var q := x / (n * n);
    assert q * (n * n) == x;
  }

  lemma Quotient(q: real, x: real, n: real)
    requires n != 0.0 && q * n == x
    ensures q == x / n
  {
    assert x / n * n == x;
  }

  lemma ScaledSum(x: real, y: real, k: real, x': real, y': real)
    requires x * k == x' && y * k == y'
    ensures (x + y) * k == x' + y'
  {
  }

  lemma Factor(w: real, f: real, s: real, sum: real)
    ensures f * sum + w * f * s == f * (sum + w * s)
  {
    Distribute(f, sum, w * s);
  }

  lemma TwoQuotients(x: real, y: real, z: real, n: real, n2: real)
    requires x * n == y && y * n == z && n2 == n * n && n2 != 0.0
    ensures x == z / n2
  {
    calc {
      x * (n * n);
      (x * n) * n;
      z;
    }
    Quotient(x, z, n2);
  }

  lemma ShareAt(x: real, n: real)
    requires n != 0.0
    ensures x / n * n == x
  {
  }

  lemma SquareOfDifference(x: real, y: real)
    ensures Square(x - y) == x * x - 2.0 * (x * y) + y * y
  {
  }

  lemma AgainstStep(n: real, p: real, p2: real, s: real, q: real, y: real, y2: real, py: real)
    requires py == p * y
    ensures n * p2 - 2.0 * (p * s) + q + (p2 - 2.0 * py + y2) == (n + 1.0) * p2 - 2.0 * (p * (s + y)) + (q + y2)
  {
    Distribute(p, s, y);
    assert (n + 1.0) * p2 == n * p2 + p2;
  }

  lemma ExpectedStep(m: real, x2: real, sx: real, sy: real, n: real, y2: real, p: real, p2: real)
    ensures m * x2 - 2.0 * (sx * sy) + n * y2 + (m * p2 - 2.0 * (p * sy) + y2)
         == m * (x2 + p2) - 2.0 * ((sx + p) * sy) + (n + 1.0) * y2
  {
    Distribute(m, x2, p2);
    assert (sx + p) * sy == sx * sy + p * sy;
    assert (n + 1.0) * y2 == n * y2 + y2;
  }

  /** A product, named so that it can be hidden. */
  function Product(x: real, y: real): real { x * y }

  lemma SquareInProducts(x: real, y: real)
    ensures Square(x - y) == Product(x, x) - 2.0 * Product(x, y) + Product(y, y)
  {
    SquareOfDifference(x, y);
  }

  lemma ProductOfThree(n: real, a: real, b: real, c: real)
    ensures Product(n, a - 2.0 * b + c) == Product(n, a) - 2.0 * Product(n, b) + Product(n, c)
  {
    DistributeThree(n, a, b, c);
  }

  lemma DistributeThree(n: real, a: real, b: real, c: real)
    ensures n * (a - 2.0 * b + c) == n * a - 2.0 * (n * b) + n * c
  {
  }

  lemma NonNegativeProduct(x: real, y: real)
    requires x >= 0.0 && y >= 0.0
    ensures x * y >= 0.0
  {
  }

  lemma UnitForm(a: real, b: real, c: real)
    ensures Form(1.0, -1.0, a, b, c) == a + 2.0 * b + c
  {
  }

  lemma QuadraticScales(a: real, b: real, r: real)
    requires r > 0.0
    ensures Square(a - b) == Square(r) * Square((a - b) / r)
  {
    var q := (a - b) / r;
    assert q * r == a - b;
    calc {
      Square(a - b);
      (q * r) * (q * r);
      (r * r) * (q * q);
    }
  }

  lemma ScaledBound(n: real, r: real, d: real, e: real)
    requires r > 0.0 && n * (r * d) <= 2.0 * (r * e)
    ensures n * d <= 2.0 * e
  {
    calc {
      n * (r * d);
      r * (n * d);
    }
    Distribute(r, 2.0 * e, -(n * d));
    PositiveFactor(r, 2.0 * e - n * d);
  }

  lemma AtLeastMinusOne(k: real, e: real, d: real, n: real)
    requires e > 0.0 && k * e == e - d * n && n * d <= 2.0 * e
    ensures k >= -1.0
  {
    assert (k + 1.0) * e == k * e + e;
    PositiveFactor(e, k + 1.0);
  }

  /** From `k * e == e - n * d`, with `e` and `n * d` in terms of sums, to means and variances. */
  lemma ClosedForm(k: real, e: real, d: real, n: real, xx: real, yy: real, xy: real, sx: real, sy: real)
    requires n > 0.0 && k * e == e - n * d
    requires e == n * xx + n * yy + Square(sx - sy) && e - n * d == 2.0 * (n * xy)
    ensures k * (xx / n + yy / n + Square(sx / n - sy / n)) == 2.0 * (xy / n)
  {
    var vx, vy, c, mx, my := xx / n, yy / n, xy / n, sx / n, sy / n;
    assert vx * n == xx && vy * n == yy && c * n == xy && mx * n == sx && my * n == sy;
    var n2 := n * n;
    PositiveProduct(n, n, n2);
    var v := vx + vy + Square(mx - my);
    InUnitsOfSquares(n, n2, vx, vy, c, mx, my, xx, yy, xy, sx, sy);
    assert e == n2 * v && e - n * d == n2 * (2.0 * c);
    CancelSquare(k, n2, v, 2.0 * c, e);
  }

  lemma InUnitsOfSquares(n: real, n2: real, vx: real, vy: real, c: real, mx: real, my: real, xx: real, yy: real,
      xy: real, sx: real, sy: real)
    requires n2 == n * n && vx * n == xx && vy * n == yy && c * n == xy && mx * n == sx && my * n == sy
    ensures n * xx + n * yy + Square(sx - sy) == n2 * (vx + vy + Square(mx - my))
    ensures 2.0 * (n * xy) == n2 * (2.0 * c)
  {
    SquareUnits(n, mx, my, sx, sy);
    Unit(n, n2, vx, xx);
    Unit(n, n2, vy, yy);
    Unit(n, n2, c, xy);
    DistributeSum(n2, vx, vy, Square(mx - my));
  }

  lemma Unit(n: real, n2: real, v: real, x: real)
    requires n2 == n * n && v * n == x
    ensures n * x == n2 * v
  {
  }

  lemma SquareUnits(n: real, mx: real, my: real, sx: real, sy: real)
    requires mx * n == sx && my * n == sy
    ensures Square(sx - sy) == (n * n) * Square(mx - my)
  {
    var d := mx - my;
    assert sx - sy == d * n;
    calc {
      (d * n) * (d * n);
      (n * n) * (d * d);
    }
  }

  lemma DistributeSum(n: real, a: real, b: real, c: real)
    ensures n * (a + b + c) == n * a + n * b + n * c
  {
  }

  lemma CancelSquare(k: real, n2: real, v: real, c: real, e: real)
    requires n2 > 0.0 && e == n2 * v && k * e == n2 * c
    ensures k * v == c
  {
    calc {
      n2 * (k * v);
      k * (n2 * v);
      n2 * c;
    }
    SameFactor(n2, k * v, c);
  }

  lemma ScaledEquation(k: real, e: real, d: real, n: real, r: real)
    requires k * e == e - d * n
    ensures k * (r * e) == r * e - n * (r * d)
  {
    calc {
      k * (r * e);
      r * (k * e);
      r * (e - d * n);
    }
    Distribute(r, e, -(d * n));
  }

  lemma ScaleIsPositive(n: real, xx: real, yy: real, sx: real, sy: real, e: real)
    requires n > 0.0 && e > 0.0 && e == n * xx + n * yy + Square(sx - sy)
    ensures xx / n + yy / n + Square(sx / n - sy / n) > 0.0
  {
    var vx, vy, mx, my := xx / n, yy / n, sx / n, sy / n;
    assert vx * n == xx && vy * n == yy && mx * n == sx && my * n == sy;
    var n2 := n * n;
    PositiveProduct(n, n, n2);
    var v := vx + vy + Square(mx - my);
    InUnitsOfSquares(n, n2, vx, vy, 0.0, mx, my, xx, yy, 0.0, sx, sy);
    assert n2 * v == e;
    PositiveFactor(n2, v);
  }

  lemma CrossMultiply(q: real, pe: real, po: real, n: real, n2: real, d: real, e: real)
    requires q * pe == po && po * n == d && pe * n2 == e && n2 == n * n
    ensures q * e == d * n
  {
    calc {
      q * e;
      q * (pe * n2);
      (q * pe) * (n * n);
      (po * n) * n;
    }
  }

  lemma FactorOfOne(k: real, e: real, d: real, n: real)
    requires e > 0.0 && n > 0.0 && k * e == e - d * n
    ensures k == 1.0 <==> d == 0.0
    ensures d >= 0.0 ==> k <= 1.0
  {
    var x := d * n;
    if d > 0.0 {
      PositiveProduct(d, n, x);
    }
    if k > 1.0 {
      PositiveProduct(k - 1.0, e, (k - 1.0) * e);
      Distribute(e, k, -1.0);
    }
  }

  lemma ZeroFactor(k: real, e: real)
    requires e > 0.0 && k * e == 0.0
    ensures k == 0.0
  {
  }

  lemma RootsMultiply(x: real, y: real, r: real, a: real, b: real, c: real, p: real)
    requires x * x == a && y * y == b && r * (x * y) == c && p == a * b
    ensures Square(c) == Square(r) * p
  {
    var xy := x * y;
    calc {
      c * c;
      (r * xy) * (r * xy);
      (r * r) * (xy * xy);
    }
    calc {
      xy * xy;
      (x * x) * (y * y);
    }
  }

  lemma UnitSquare(r: real, p: real)
    requires p > 0.0 && Square(r) * p <= p
    ensures -1.0 <= r <= 1.0
  {
    var s := Square(r);
    PositiveFactor(p, 1.0 - s) by {
      assert p * (1.0 - s) == p - s * p;
    }
    assert r * r <= 1.0;
    if r > 1.0 {
      PositiveProduct(r - 1.0, r + 1.0, (r - 1.0) * (r + 1.0));
    } else if r < -1.0 {
      PositiveProduct(-r - 1.0, 1.0 - r, (-r - 1.0) * (1.0 - r));
    }
  }

  lemma BoundedRatio(a: real, b: real, c: real, p: real, x: real, y: real, r: real)
    requires x > 0.0 && y > 0.0 && x * x == a && y * y == b && r * (x * y) == c
    requires p == a * b && Square(c) <= p
    ensures -1.0 <= r <= 1.0
  {
    RootsMultiply(x, y, r, a, b, c, p);
    PositiveProduct(x, x, a);
    PositiveProduct(y, y, b);
    PositiveProduct(a, b, p);
    UnitSquare(r, p);
  }

  lemma Proportions(h: real, s: real, n: real)
    requires s != 0.0 && n != 0.0
    ensures h / n == (h / s) * (s / n)
  {
    var p, q := h / s, s / n;
    assert p * s == h && q * n == s;
    assert (p * q) * n == p * (q * n);
    var r := h / n;
    assert r * n == h;
    Cancel(n, r, p * q);
  }

  lemma SmallerShare(a: real, b: real, n: real)
    requires a <= b && n > 0.0
    ensures a / n <= b / n
  {
  }
}
