/** Exact-arithmetic counterparts of the numeric built-ins the services rely on. */
module Numeric {
  function Abs(x: real): real { if x < 0.0 then -x else x }

  function Min(x: real, y: real): real { if x <= y then x else y }

  function Max(x: real, y: real): real { if x >= y then x else y }

  /** A product under a name, so that proofs can treat it as one number. */
  function Times(x: real, y: real): real { x * y }

  /** Python's `round(x)`: nearest integer, ties to the even one. */
  function RoundInt(x: real): (n: int)
    ensures n as real - 0.5 <= x <= n as real + 0.5
    ensures x == n as real + 0.5 || x == n as real - 0.5 ==> n % 2 == 0
  {
    var below := x.Floor;
    var rest := x - below as real;
    if rest < 0.5 || (rest == 0.5 && below % 2 == 0) then below else below + 1
  }

  lemma {:induction false} RoundIntMonotone(x: real, y: real)
    requires x <= y
    ensures RoundInt(x) <= RoundInt(y)
  {
  }

  /** x is a whole number of units of size 1/scale. */
  predicate OnGrid(x: real, scale: real) {
    x * scale == (x * scale).Floor as real
  }

  /** Python's `round(x, n)` with `scale == 10 ** n`. */
  function RoundTo(x: real, scale: real): real
    requires scale > 0.0
  {
    RoundInt(x * scale) as real / scale
  }

  lemma {:induction false} CancelRight(x: real, y: real, scale: real)
    requires scale != 0.0 && x * scale == y * scale
    ensures x == y
  {
    assert (x - y) * scale == 0.0;
  }

  lemma {:induction false} RoundToError(x: real, scale: real)
    requires scale > 0.0
    ensures -0.5 / scale <= RoundTo(x, scale) - x <= 0.5 / scale
  {
    var y := x * scale;
    var n := RoundInt(y) as real;
    var r, d := RoundTo(x, scale), (n - y) / scale;
    assert r * scale == n && d * scale == n - y;
    DivideBounds(-0.5, n - y, 0.5, scale);
    hide RoundInt, RoundTo;
    CancelRight(r - x, d, scale);
  }

  lemma {:induction false} DivideBounds(lo: real, x: real, hi: real, scale: real)
    requires scale > 0.0 && lo <= x <= hi
    ensures lo / scale <= x / scale <= hi / scale
  {
    Scaled(lo, x, scale);
    Scaled(x, hi, scale);
  }

  lemma {:induction false} Scaled(x: real, y: real, scale: real)
    requires scale > 0.0 && x <= y
    ensures x / scale <= y / scale
  {
    var d := (y - x) / scale;
    assert d * scale == y - x;
    assert d >= 0.0;
    assert y / scale == x / scale + d;
  }

  lemma {:induction false} ProductOrder(x: real, y: real, scale: real)
    requires scale >= 0.0 && x <= y
    ensures x * scale <= y * scale
  {
    assert (y - x) * scale >= 0.0;
  }

  lemma {:induction false} TimesDifference(x: real, y: real, z: real)
    ensures Times(x, z) - Times(y, z) == Times(x - y, z)
  {
  }

  lemma {:induction false} TimesOrder(x: real, y: real, z: real)
    requires z >= 0.0 && x <= y
    ensures Times(x, z) <= Times(y, z)
  {
    ProductOrder(x, y, z);
  }

  lemma {:induction false} TimesOpposite(x: real, z: real)
    ensures Times(-x, z) == -Times(x, z)
  {
  }

  /** An error of at most e in a factor is one of at most e times the other in the product. */
  lemma {:induction false} TimesError(x: real, y: real, e: real, z: real)
    requires z >= 0.0 && -e <= x - y <= e
    ensures Abs(Times(x, z) - Times(y, z)) <= Times(e, z)
  {
    hide Times;
    TimesDifference(x, y, z);
    TimesOrder(-e, x - y, z);
    TimesOrder(x - y, e, z);
    TimesOpposite(e, z);
  }

  lemma {:induction false} ProductPositive(x: real, y: real)
    requires x > 0.0 && y > 0.0
    ensures x * y > 0.0
  {
  }

  lemma {:induction false} QuotientPositive(x: real, y: real)
    requires x > 0.0 && y > 0.0
    ensures x / y > 0.0
  {
    var q := x / y;
    assert q * y == x;
  }

  lemma {:induction false} RoundToMonotone(x: real, y: real, scale: real)
    requires scale > 0.0 && x <= y
    ensures RoundTo(x, scale) <= RoundTo(y, scale)
  {
    ProductOrder(x, y, scale);
    RoundIntMonotone(x * scale, y * scale);
    Scaled(RoundInt(x * scale) as real, RoundInt(y * scale) as real, scale);
  }

  lemma {:induction false} OnGridFrom(x: real, scale: real, n: int)
    requires x * scale == n as real
    ensures OnGrid(x, scale)
  {
    assert (n as real).Floor == n;
  }

  /** Rounding leaves x alone exactly when x is already on the grid, and always lands on the grid. */
  lemma {:induction false} RoundToExact(x: real, scale: real)
    requires scale > 0.0
    ensures RoundTo(x, scale) == x <==> OnGrid(x, scale)
    ensures OnGrid(RoundTo(x, scale), scale)
  {
    var n := RoundInt(x * scale);
    var r := RoundTo(x, scale);
    OnGridFrom(r, scale, n);
    if OnGrid(x, scale) {
      assert n == (x * scale).Floor;
      assert r == (x * scale) / scale == x;
    }
  }

  /** Sums and differences of grid values stay on the grid. */
  lemma {:induction false} GridClosed(x: real, y: real, scale: real)
    requires OnGrid(x, scale) && OnGrid(y, scale)
    ensures OnGrid(x + y, scale) && OnGrid(x - y, scale)
  {
    var m, n := (x * scale).Floor, (y * scale).Floor;
    assert (x + y) * scale == x * scale + y * scale;
    assert (x - y) * scale == x * scale - y * scale;
    hide OnGrid;
    OnGridFrom(x + y, scale, m + n);
    OnGridFrom(x - y, scale, m - n);
  }

  function Sum(xs: seq<real>): real {
    if xs == [] then 0.0 else Sum(xs[..|xs| - 1]) + xs[|xs| - 1]
  }

  lemma {:induction false} SumConcat(xs: seq<real>, ys: seq<real>)
    ensures Sum(xs + ys) == Sum(xs) + Sum(ys)
  {
    if ys == [] {
      assert xs + ys == xs;
    } else {
      SumConcat(xs, ys[..|ys| - 1]);
      assert (xs + ys)[..|xs + ys| - 1] == xs + ys[..|ys| - 1];
    }
  }
}
