/** Least-squares line fitting, over the reals. */
module LinearFit {

  /** The outcome of a fit; Undefined stands for the division by a zero denominator. */
  datatype Fit = SizeMismatch | NoData | Undefined | Line(c0: real, c1: real)

  // ---------- Sums ----------

  function Sum(x: seq<real>): real {
    if x == [] then 0.0 else Sum(x[..|x| - 1]) + x[|x| - 1]
  }

  function Times(a: real, b: real): real {
    a * b
  }

  function SumProducts(x: seq<real>, y: seq<real>): real
    requires |x| == |y|
  {
    if x == [] then 0.0 else SumProducts(x[..|x| - 1], y[..|y| - 1]) + Times(x[|x| - 1], y[|y| - 1])
  }

  function Denominator(x: seq<real>): real {
    Times(|x| as real, SumProducts(x, x)) - Times(Sum(x), Sum(x))
  }

  method LinearFit(x: seq<real>, y: seq<real>) returns (fit: Fit)
    ensures fit.SizeMismatch? <==> |x| != |y|
    ensures fit.NoData? <==> |x| == |y| == 0
    ensures fit.Undefined? <==> |x| == |y| > 0 && AllEqual(x)
    ensures fit.Line? ==> |x| == |y| && forall c0, c1 :: SquaredError(x, y, fit.c0, fit.c1) <= SquaredError(x, y, c0, c1)
    ensures fit.Line? ==> forall c0, c1 :: SquaredError(x, y, c0, c1) <= SquaredError(x, y, fit.c0, fit.c1) ==> c0 == fit.c0 && c1 == fit.c1
  {
    hide SquaredError, AllEqual, Sum, SumProducts;
    var size := |x|;
    if size != |y| {
      return SizeMismatch;
    }
    if size == 0 {
      return NoData;
    }
    var sx, sy, sxx := Sum(x), Sum(y), SumProducts(x, x);
    var sxy := CrossSum(x, y);
    var n := size as real;
    DenominatorExact(x);
    assert n * sxx - sx * sx == Denominator(x);
    hide Times, Denominator;
    if n * sxx - sx * sx == 0.0 {
      return Undefined;
    }
    var c1 := (n * sxy - sx * sy) / (n * sxx - sx * sx);
    var c0 := (sy - c1 * sx) / n;
    NormalEquations(n, sx, sy, sxx, sxy, c0, c1);
    BestLine(x, y, c0, c1);
    return Line(c0, c1);
  }

  method CrossSum(x: seq<real>, y: seq<real>) returns (sxy: real)
    requires |x| == |y|
    ensures sxy == SumProducts(x, y)
  {
    hide Times;
    sxy := 0.0;
    var i := 0;
    assert x[..0] == [] && y[..0] == [];
    while i < |x|
      invariant i <= |x| && sxy == SumProducts(x[..i], y[..i])
    {
      assert x[..i + 1][..i] == x[..i] && y[..i + 1][..i] == y[..i];
      sxy := sxy + Times(x[i], y[i]);
      i := i + 1;
    }
    assert x[..i] == x && y[..i] == y;
  }

  // ---------- What a best fit is ----------

  function Square(a: real): real {
    a * a
  }

  function Error(x: real, y: real, c0: real, c1: real): real {
    y - (c1 * x + c0)
  }

  function SquaredError(x: seq<real>, y: seq<real>, c0: real, c1: real): real
    requires |x| == |y|
  {
    if x == [] then 0.0
    else SquaredError(x[..|x| - 1], y[..|y| - 1], c0, c1) + Square(Error(x[|x| - 1], y[|y| - 1], c0, c1))
  }

  ghost predicate AllEqual(x: seq<real>) {
    forall i, j :: 0 <= i < |x| && 0 <= j < |x| ==> x[i] == x[j]
  }

  /** The squared error as a quadratic form in the sums. */
  function Form(n: real, sx: real, sy: real, sxx: real, sxy: real, syy: real, c0: real, c1: real): real {
    syy - 2.0 * (c1 * sxy) - 2.0 * (c0 * sy) + (c1 * c1) * sxx + 2.0 * ((c0 * c1) * sx) + (c0 * c0) * n
  }

  lemma FormGrows(n: real, sx: real, sy: real, sxx: real, sxy: real, syy: real, x: real, y: real, c0: real, c1: real)
    ensures Form(n + 1.0, sx + x, sy + y, sxx + Times(x, x), sxy + Times(x, y), syy + Times(y, y), c0, c1)
         == Form(n, sx, sy, sxx, sxy, syy, c0, c1) + Square(Error(x, y, c0, c1))
  {
    SquareOfError(x, y, c0, c1);
    hide Square, Error;
  }

  lemma SquareOfError(x: real, y: real, c0: real, c1: real)
    ensures Square(Error(x, y, c0, c1))
         == y * y - 2.0 * (c1 * (x * y)) - 2.0 * (c0 * y) + (c1 * c1) * (x * x) + 2.0 * ((c0 * c1) * x) + c0 * c0
  {
  }

  lemma {:induction false} Expand(x: seq<real>, y: seq<real>, c0: real, c1: real)
    requires |x| == |y|
    ensures SquaredError(x, y, c0, c1)
         == Form(|x| as real, Sum(x), Sum(y), SumProducts(x, x), SumProducts(x, y), SumProducts(y, y), c0, c1)
  {
    if x != [] {
      hide Form, Square, Error, Times;
      var n := |x| - 1;
      var p, q := x[..n], y[..n];
      Expand(p, q, c0, c1);
      FormGrows(n as real, Sum(p), Sum(q), SumProducts(p, p), SumProducts(p, q), SumProducts(q, q), x[n], y[n], c0, c1);
    }
  }

  lemma ProductPositive(a: real, b: real)
    requires a > 0.0 && b > 0.0
    ensures Times(a, b) > 0.0
  {
  }

  lemma ProductOfNegatives(a: real, b: real)
    ensures Times(-a, -b) == Times(a, b) && Times(0.0, b) == 0.0
  {
  }

  lemma SquareSign(e: real)
    ensures Square(e) >= 0.0 && (Square(e) == 0.0 <==> e == 0.0)
  {
    hide Times;
    assert Square(e) == Times(e, e) by { SquareIsProduct(e); }
    hide Square;
    ProductOfNegatives(e, e);
    if e > 0.0 {
      ProductPositive(e, e);
    } else if e < 0.0 {
      ProductPositive(-e, -e);
    }
  }

  lemma SquareIsProduct(e: real)
    ensures Square(e) == Times(e, e)
  {
  }

  lemma {:induction false} ErrorNonNegative(x: seq<real>, y: seq<real>, c0: real, c1: real)
    requires |x| == |y|
    ensures SquaredError(x, y, c0, c1) >= 0.0
    ensures SquaredError(x, y, c0, c1) == 0.0 <==> forall i :: 0 <= i < |x| ==> Error(x[i], y[i], c0, c1) == 0.0
  {
    hide Square;
    if x != [] {
      var n := |x| - 1;
      var p, q := x[..n], y[..n];
      ErrorNonNegative(p, q, c0, c1);
      SquareSign(Error(x[n], y[n], c0, c1));
      hide Error;
      assert forall i :: 0 <= i < n ==> p[i] == x[i] && q[i] == y[i];
      assert SquaredError(x, y, c0, c1) == SquaredError(p, q, c0, c1) + Square(Error(x[n], y[n], c0, c1));
    }
  }

  /** The denominator is n times the squared deviation from the mean. */
  lemma DenominatorExact(x: seq<real>)
    ensures Denominator(x) >= 0.0
    ensures |x| > 0 ==> (Denominator(x) == 0.0 <==> AllEqual(x))
  {
    if x != [] {
      hide Form, Square, SquaredError, Sum, SumProducts, Times, Error;
      var n, s, q := |x| as real, Sum(x), SumProducts(x, x);
      var m := s / n;
      Expand(x, x, m, 0.0);
      ErrorNonNegative(x, x, m, 0.0);
      Deviation(n, q, s, m);
      Spread(x, m);
      if AllEqual(x) {
        SumOfEqual(x, x[0]);
        MeanOfEqual(n, s, x[0]);
      }
    }
  }

  lemma Spread(x: seq<real>, m: real)
    ensures forall i :: 0 <= i < |x| ==> Error(x[i], x[i], m, 0.0) == x[i] - m
  {
  }

  lemma MeanOfEqual(n: real, s: real, v: real)
    requires n > 0.0 && s == Times(n, v)
    ensures s / n == v
  {
  }

  lemma Deviation(n: real, q: real, s: real, m: real)
    requires n > 0.0 && m == s / n
    ensures var e := Form(n, s, s, q, q, q, m, 0.0);
            var d := Times(n, q) - Times(s, s);
            (e >= 0.0 ==> d >= 0.0) && (d == 0.0 <==> e == 0.0)
  {
    var e := Form(n, s, s, q, q, q, m, 0.0);
    assert m * n == s;
    assert e == q - 2.0 * (m * s) + (m * m) * n;
    assert (m * m) * n == m * s;
    assert n * (m * s) == s * s;
    assert n * e == n * q - n * (m * s);
    Scale(n, e);
  }

  lemma Scale(n: real, e: real)
    requires n > 0.0
    ensures (e >= 0.0 ==> n * e >= 0.0) && (n * e == 0.0 <==> e == 0.0)
  {
  }

  lemma {:induction false} SumOfEqual(x: seq<real>, v: real)
    requires forall i :: 0 <= i < |x| ==> x[i] == v
    ensures Sum(x) == Times(|x| as real, v)
  {
    if x != [] {
      SumOfEqual(x[..|x| - 1], v);
      var n := (|x| - 1) as real;
      assert |x| as real == n + 1.0;
      assert (n + 1.0) * v == n * v + v;
    }
  }

  lemma NormalEquations(n: real, sx: real, sy: real, sxx: real, sxy: real, c0: real, c1: real)
    requires n != 0.0 && n * sxx - sx * sx != 0.0
    requires c1 == (n * sxy - sx * sy) / (n * sxx - sx * sx) && c0 == (sy - c1 * sx) / n
    ensures c1 * sx + n * c0 == sy
    ensures c1 * sxx + c0 * sx == sxy
  {
    var d := n * sxx - sx * sx;
    Quotient(n * sxy - sx * sy, d, c1);
    Quotient(sy - c1 * sx, n, c0);
    SecondEquation(n, sx, sy, sxx, sxy, c0, c1);
  }

  lemma Quotient(a: real, b: real, q: real)
    requires b != 0.0 && q == a / b
    ensures q * b == a
  {
  }

  lemma SecondEquation(n: real, sx: real, sy: real, sxx: real, sxy: real, c0: real, c1: real)
    requires n != 0.0 && c1 * (n * sxx - sx * sx) == n * sxy - sx * sy && c0 * n == sy - c1 * sx
    ensures c1 * sxx + c0 * sx == sxy
  {
    assert n * (c1 * sxx) - c1 * (sx * sx) == n * sxy - sx * sy;
    assert (c0 * n) * sx == sy * sx - (c1 * sx) * sx;
    assert n * (c1 * sxx + c0 * sx - sxy) == 0.0;
  }

  /** How much worse another line is, given the normal equations. */
  lemma FormDifference(n: real, sx: real, sy: real, sxx: real, sxy: real, syy: real, c0: real, c1: real, e0: real, e1: real)
    requires c1 * sx + n * c0 == sy && c1 * sxx + c0 * sx == sxy
    ensures Form(n, sx, sy, sxx, sxy, syy, c0 + e0, c1 + e1)
         == Form(n, sx, sy, sxx, sxy, syy, c0, c1) + Form(n, sx, 0.0, sxx, 0.0, 0.0, e0, e1)
  {
    assert e1 * sxy == e1 * (c1 * sxx + c0 * sx);
    assert e0 * sy == e0 * (c1 * sx + n * c0);
  }

  function Zeros(n: nat): (z: seq<real>)
    ensures |z| == n
  {
    seq(n, _ => 0.0)
  }

  lemma {:induction false} ZeroSums(x: seq<real>)
    ensures var z := Zeros(|x|); Sum(z) == 0.0 && SumProducts(x, z) == 0.0 && SumProducts(z, z) == 0.0
  {
    if x != [] {
      var n := |x| - 1;
      ZeroSums(x[..n]);
      assert Zeros(n + 1)[..n] == Zeros(n);
    }
  }

  lemma BestLine(x: seq<real>, y: seq<real>, c0: real, c1: real)
    requires |x| == |y| > 0 && !AllEqual(x)
    requires c1 * Sum(x) + |x| as real * c0 == Sum(y)
    requires c1 * SumProducts(x, x) + c0 * Sum(x) == SumProducts(x, y)
    ensures forall d0, d1 :: SquaredError(x, y, c0, c1) <= SquaredError(x, y, d0, d1)
    ensures forall d0, d1 :: SquaredError(x, y, d0, d1) <= SquaredError(x, y, c0, c1) ==> d0 == c0 && d1 == c1
  {
    forall d0: real, d1: real
      ensures SquaredError(x, y, c0, c1) <= SquaredError(x, y, d0, d1)
      ensures SquaredError(x, y, d0, d1) <= SquaredError(x, y, c0, c1) ==> d0 == c0 && d1 == c1
    {
      hide SquaredError, AllEqual, Sum, SumProducts;
      Optimal(x, y, c0, c1, d0, d1);
    }
  }

  /** A line that solves the normal equations beats every other line. */
  lemma Optimal(x: seq<real>, y: seq<real>, c0: real, c1: real, d0: real, d1: real)
    requires |x| == |y| > 0 && !AllEqual(x)
    requires c1 * Sum(x) + |x| as real * c0 == Sum(y)
    requires c1 * SumProducts(x, x) + c0 * Sum(x) == SumProducts(x, y)
    ensures SquaredError(x, y, c0, c1) <= SquaredError(x, y, d0, d1)
    ensures SquaredError(x, y, d0, d1) == SquaredError(x, y, c0, c1) ==> d0 == c0 && d1 == c1
  {
    hide Form, SquaredError, Zeros, Sum, SumProducts;
    var z, e0, e1 := Zeros(|x|), d0 - c0, d1 - c1;
    Expand(x, y, c0, c1);
    Expand(x, y, d0, d1);
    Expand(x, z, e0, e1);
    ZeroSums(x);
    FormDifference(|x| as real, Sum(x), Sum(y), SumProducts(x, x), SumProducts(x, y), SumProducts(y, y), c0, c1, e0, e1);
    ErrorNonNegative(x, z, e0, e1);
    if SquaredError(x, z, e0, e1) == 0.0 {
      ZeroLine(x, e0, e1);
    }
  }

  /** Only the zero line vanishes at two different places. */
  lemma ZeroLine(x: seq<real>, e0: real, e1: real)
    requires !AllEqual(x) && forall i :: 0 <= i < |x| ==> Error(x[i], Zeros(|x|)[i], e0, e1) == 0.0
    ensures e0 == 0.0 && e1 == 0.0
  {
    var i, j :| 0 <= i < |x| && 0 <= j < |x| && x[i] != x[j];
    assert Error(x[i], Zeros(|x|)[i], e0, e1) == 0.0 == Error(x[j], Zeros(|x|)[j], e0, e1);
    TwoZeros(x[i], x[j], e0, e1);
  }

  lemma TwoZeros(a: real, b: real, e0: real, e1: real)
    requires a != b && e1 * a + e0 == 0.0 && e1 * b + e0 == 0.0
    ensures e0 == 0.0 && e1 == 0.0
  {
    assert e1 * (a - b) == 0.0;
  }
}
