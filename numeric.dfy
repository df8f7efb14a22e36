/**
 * Exact stand-ins for the numeric conversions the Python code relies on:
 * `int(x)` and numpy's `astype(int16)` on in-range values truncate toward
 * zero, Python's `round` and `np.round` round half to even, `np.clip`
 * clamps. Floats are modelled as exact reals.
 */
module Numeric {

  function Abs(x: real): (r: real)
    ensures r >= 0.0 && (r == x || r == -x)
  {
    if x < 0.0 then -x else x
  }

  function IntAbs(n: int): (r: nat)
    ensures r == n || r == -n
  {
    if n < 0 then -n else n
  }

  /** Truncation toward zero, as Python's `int()` on a float. */
  function Trunc(x: real): (r: int)
    ensures 0.0 <= x ==> r as real <= x < r as real + 1.0
    ensures x < 0.0 ==> r as real - 1.0 < x <= r as real
  {
    if x >= 0.0 then x.Floor else -((-x).Floor)
  }

  /** Round half to even, as Python's `round` and numpy's `round`. */
  function RoundHalfEven(x: real): (r: int)
    ensures Abs(r as real - x) <= 0.5
    ensures Abs(r as real - x) == 0.5 ==> r % 2 == 0
  {
    var f := x.Floor;
    var frac := x - f as real;
    if frac < 0.5 then f
    else if frac > 0.5 then f + 1
    else if f % 2 == 0 then f
    else f + 1
  }

  /** `np.clip(x, lo, hi)` for lo <= hi. */
  function Clip(x: real, lo: real, hi: real): (r: real)
    requires lo <= hi
    ensures lo <= r <= hi
    ensures lo <= x <= hi ==> r == x
    ensures x < lo ==> r == lo
    ensures hi < x ==> r == hi
  {
    if x < lo then lo else if x > hi then hi else x
  }

  function Pow2(n: nat): (r: nat)
    ensures r >= 1
  {
    if n == 0 then 1 else 2 * Pow2(n - 1)
  }

  lemma {:induction false} Pow2Add(a: nat, b: nat)
    ensures Pow2(a + b) == Pow2(a) * Pow2(b)
  {
    if a > 0 {
      Pow2Add(a - 1, b);
      assert Pow2(a + b) == 2 * Pow2(a - 1 + b);
    }
  }

  function Max(a: int, b: int): int
  {
    if a < b then b else a
  }

  function Min(a: int, b: int): int
  {
    if a < b then a else b
  }

  /** Truncation is the identity on whole numbers. */
  lemma TruncOfInt(n: int)
    ensures Trunc(n as real) == n
  {
  }

  /** Truncation never moves a value away from zero. */
  lemma TruncShrinks(x: real)
    ensures Abs(Trunc(x) as real) <= Abs(x)
    ensures x >= 0.0 ==> Trunc(x) >= 0
    ensures x <= 0.0 ==> Trunc(x) <= 0
  {
  }

  /** Truncation is monotone. */
  lemma TruncMonotone(x: real, y: real)
    requires x <= y
    ensures Trunc(x) <= Trunc(y)
  {
    if 0.0 <= x {
    } else if y < 0.0 {
      assert (-y).Floor <= (-x).Floor;
    } else {
    }
  }

  /** On non-negative values, adding one whole unit adds one to the truncation. */
  lemma TruncAddOne(x: real)
    requires 0.0 <= x
    ensures Trunc(x + 1.0) == Trunc(x) + 1
  {
  }

  /** Steps of at least one unit give strictly increasing truncations. */
  lemma TruncStrictStep(x: real, y: real)
    requires 0.0 <= x && x + 1.0 <= y
    ensures Trunc(x) < Trunc(y)
  {
    TruncAddOne(x);
    TruncMonotone(x + 1.0, y);
  }

  /** Truncation of a whole number of units plus a fraction below one. */
  lemma TruncBetween(x: real, n: int)
    requires n as real <= x < n as real + 1.0 && 0 <= n
    ensures Trunc(x) == n
  {
  }

  /** Round half to even is the identity on whole numbers. */
  lemma RoundOfInt(n: int)
    ensures RoundHalfEven(n as real) == n
  {
  }

  /** A whole number closer than one half to `x` is what round-half-even returns. */
  lemma RoundUnique(x: real, n: int)
    requires Abs(n as real - x) < 0.5
    ensures RoundHalfEven(x) == n
  {
    var r := RoundHalfEven(x);
    assert Abs(r as real - n as real) < 1.0;
  }

  /** Rounding a value between two whole numbers stays between them. */
  lemma RoundWithin(x: real, lo: int, hi: int)
    requires lo as real <= x <= hi as real
    ensures lo <= RoundHalfEven(x) <= hi
  {
    var r := RoundHalfEven(x);
    assert r as real - x <= 0.5 && x - r as real <= 0.5;
  }

  /** A quotient and remainder with the remainder below the divisor are the ones `/` and `%` give. */
  lemma DivModUnique(k: int, m: int, q: int, r: int)
    requires 0 < m && 0 <= r < m && k == q * m + r
    ensures k / m == q && k % m == r
  {
    var q' := k / m;
    var r' := k % m;
    assert k == q' * m + r';
    var d := q - q';
    assert d * m == r' - r;
  }

  /** Multiplying by a non-negative factor keeps the order. */
  lemma MulMonotone(a: real, x: real, y: real)
    requires 0.0 <= a && x <= y
    ensures a * x <= a * y
  {
  }

  /** A larger positive divisor gives a smaller quotient of a non-negative number. */
  lemma DivAntitone(n: real, s: real, f: real)
    requires 0.0 <= n && 0.0 < s <= f
    ensures n / f <= n / s
  {
    var q := n / f;
    assert q * f == n;
    assert q >= 0.0;
    MulMonotone(q, s, f);
    assert q * s <= n;
    assert n / s * s == n;
  }

  /** Truncating two non-negative parts separately loses less than one. */
  lemma TruncSplit(x: real, y: real)
    requires 0.0 <= x && 0.0 <= y
    ensures Trunc(x) + Trunc(y) <= Trunc(x + y) <= Trunc(x) + Trunc(y) + 1
  {
    var a := Trunc(x);
    var b := Trunc(y);
    assert (a + b) as real <= x + y < (a + b) as real + 2.0;
    TruncMonotone((a + b) as real, x + y);
    TruncOfInt(a + b);
    assert Trunc(x + y) as real <= x + y;
  }

  /** Any whole number at most a non-negative value is at most its truncation. */
  lemma TruncAtLeast(x: real, n: int)
    requires 0.0 <= x && n as real <= x
    ensures n <= Trunc(x)
  {
    TruncMonotone(n as real, x);
    TruncOfInt(n);
  }

  /** `k` truncated copies of a non-negative value never exceed the truncated whole. */
  lemma TruncRepeat(x: real, k: nat)
    requires 0.0 <= x
    ensures k * Trunc(x) <= Trunc(k as real * x)
  {
    var t := Trunc(x);
    MulMonotone(k as real, t as real, x);
    MulMonotone(x, 0.0, k as real);
    assert (k * t) as real == k as real * t as real;
    TruncAtLeast(k as real * x, k * t);
  }

  /** Multiplying by a positive number keeps the sign. */
  lemma MulSign(a: real, b: real)
    requires 0.0 < b
    ensures a * b > 0.0 <==> a > 0.0
    ensures a * b < 0.0 <==> a < 0.0
    ensures a * b == 0.0 <==> a == 0.0
  {
    if a > 0.0 { MulMonotone(b, 0.0, a); assert b * a != 0.0; }
    if a < 0.0 { MulMonotone(b, a, 0.0); assert b * a != 0.0; }
  }

  /** Dividing by a positive number keeps the sign. */
  lemma DivNonneg(n: real, d: real)
    requires 0.0 <= n && 0.0 < d
    ensures 0.0 <= n / d
  {
  }

  /**
   * `int(n * unit)`: `n` units of a length, truncated. Kept as a function of
   * its own so that facts about it are matched by name, not by re-deriving
   * products.
   */
  function TruncMul(n: real, unit: real): int
  {
    Trunc(n * unit)
  }

  /** More units never give a shorter length. */
  lemma TruncMulMonotone(n1: real, n2: real, unit: real)
    requires 0.0 <= unit && n1 <= n2
    ensures TruncMul(n1, unit) <= TruncMul(n2, unit)
  {
    MulMonotone(unit, n1, n2);
    assert n1 * unit == unit * n1 && n2 * unit == unit * n2;
    TruncMonotone(n1 * unit, n2 * unit);
  }

  /** A longer unit never gives a shorter length. */
  lemma TruncMulUnitMonotone(n: real, u1: real, u2: real)
    requires 0.0 <= n && u1 <= u2
    ensures TruncMul(n, u1) <= TruncMul(n, u2)
  {
    MulMonotone(n, u1, u2);
    TruncMonotone(n * u1, n * u2);
  }

  /** A non-negative count of non-negative units is non-negative. */
  lemma TruncMulNonneg(n: real, unit: real)
    requires 0.0 <= n && 0.0 <= unit
    ensures 0 <= TruncMul(n, unit)
    ensures 0.0 <= n * unit
  {
    MulMonotone(unit, 0.0, n);
    assert unit * n == n * unit;
  }

  /** Truncating two parts separately loses less than one unit against the whole. */
  lemma TruncMulSplit(a: real, b: real, unit: real)
    requires 0.0 <= a && 0.0 <= b && 0.0 <= unit
    ensures TruncMul(a, unit) + TruncMul(b, unit) <= TruncMul(a + b, unit) <= TruncMul(a, unit) + TruncMul(b, unit) + 1
  {
    TruncMulNonneg(a, unit);
    TruncMulNonneg(b, unit);
    assert (a + b) * unit == a * unit + b * unit;
    TruncSplit(a * unit, b * unit);
  }

  /** `k` truncated copies never exceed the truncation of `k` times as many units. */
  lemma TruncMulRepeat(n: real, k: nat, unit: real)
    requires 0.0 <= n && 0.0 <= unit
    ensures k * TruncMul(n, unit) <= TruncMul(k as real * n, unit)
  {
    TruncMulNonneg(n, unit);
    TruncRepeat(n * unit, k);
    assert k as real * (n * unit) == (k as real * n) * unit;
  }

  /** `k * s` steps of a unit `s` times smaller make `k` whole units. */
  lemma TruncMulSteps(k: int, s: int, step: real, unit: real)
    requires s > 0 && step * s as real == unit
    ensures TruncMul((k * s) as real, step) == TruncMul(k as real, unit)
  {
    assert (k * s) as real == k as real * s as real;
    assert (k * s) as real * step == k as real * (step * s as real);
  }

  /** Scaling by `u` and dividing by `u` again gives back the whole number. */
  lemma MulDivCancel(a: real, u: real)
    requires u != 0.0
    ensures a * u / u == a
  {
  }

  /** Counting the units as `n * k` or scaling the unit by `k` is the same. */
  lemma TruncMulRegroup(n: real, k: real, unit: real)
    ensures TruncMul(n * k, unit) == TruncMul(n, unit * k)
  {
    assert n * k * unit == n * (unit * k);
  }

  /** The truncated length is less than one away from the exact one. */
  lemma TruncMulClose(n: real, unit: real)
    ensures Abs(TruncMul(n, unit) as real - n * unit) < 1.0
  {
  }

  /** A value less than one away from `k` units is less than half a unit's count away from `k`, for units of two or more. */
  lemma NearMultiple(y: real, k: int, u: real)
    requires u >= 2.0 && Abs(y - k as real * u) < 1.0
    ensures Abs(k as real - y / u) < 0.5
  {
    var q := y / u;
    var e := q - k as real;
    assert q * u == y;
    assert e * u == y - k as real * u;
    if e >= 0.5 {
      MulMonotone(u, 0.5, e);
      assert false;
    }
    if e <= -0.5 {
      MulMonotone(u, e, -0.5);
      assert false;
    }
  }
}
