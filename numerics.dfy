/** Real-number stand-ins for the `System.Math` calls and C# numeric casts used
    by the engine. `double` is modelled as `real`; the operations whose result
    depends on the representation (rounding, truncation, `%`) are written out. */
module Numerics {

  function Min(a: real, b: real): (r: real)
    ensures r <= a && r <= b && (r == a || r == b)
  {
    if a <= b then a else b
  }

  function Max(a: real, b: real): (r: real)
    ensures r >= a && r >= b && (r == a || r == b)
  {
    if a >= b then a else b
  }

  function Abs(x: real): (r: real)
    ensures r >= 0.0 && (r == x || r == -x)
  {
    if x < 0.0 then -x else x
  }

  /** `Math.Round(x)`: the nearest integer, ties to the even neighbour
      (the .NET default, "banker's rounding"). */
  function RoundHalfEven(x: real): (r: int)
    ensures x - 0.5 <= r as real <= x + 0.5
    ensures (r as real == x - 0.5 || r as real == x + 0.5) ==> r % 2 == 0
  {
    var f := x.Floor;
    var d := x - f as real;
    if d < 0.5 then f
    else if d > 0.5 then f + 1
    else if f % 2 == 0 then f
    else f + 1
  }

  /** A value with at most two decimals. */
  predicate IsCents(c: real) {
    (c * 100.0).Floor as real == c * 100.0
  }

  /** `Math.Round(x, 2)`: banker's rounding to two decimals. */
  function Round2(x: real): real {
    RoundHalfEven(x * 100.0) as real / 100.0
  }

  /** The rounded value has two decimals and lies within half a cent of the
      value rounded. */
  lemma Round2Spec(x: real)
    ensures IsCents(Round2(x))
    ensures x - 0.005 <= Round2(x) <= x + 0.005
  {
  }

  /** A value with at most one decimal. */
  predicate IsTenths(c: real) {
    (c * 10.0).Floor as real == c * 10.0
  }

  /** `Math.Round(x, 1)`: banker's rounding to one decimal. */
  function Round1(x: real): (r: real)
    ensures IsTenths(r)
    ensures x - 0.05 <= r <= x + 0.05
  {
    RoundHalfEven(x * 10.0) as real / 10.0
  }

  lemma RoundHalfEvenMonotone(x: real, y: real)
    requires x <= y
    ensures RoundHalfEven(x) <= RoundHalfEven(y)
  {
    var fx, fy := x.Floor, y.Floor;
    if fx < fy {
      assert RoundHalfEven(x) <= fx + 1;
      assert fy <= RoundHalfEven(y);
    }
  }

  lemma RoundHalfEvenOfInt(k: int)
    ensures RoundHalfEven(k as real) == k
  {
    assert (k as real).Floor == k;
  }

  /** Rounding never reorders two values. */
  lemma Round2Monotone(x: real, y: real)
    requires x <= y
    ensures Round2(x) <= Round2(y)
  {
    RoundHalfEvenMonotone(x * 100.0, y * 100.0);
  }

  /** A value that already has two decimals is left as it is. */
  lemma Round2OfCents(c: real)
    requires IsCents(c)
    ensures Round2(c) == c
  {
    var k := (c * 100.0).Floor;
    RoundHalfEvenOfInt(k);
  }

  /** Rounding a value below a two-decimal bound stays below the bound:
      used for the caps at 100 and at zero. */
  lemma Round2AtMost(x: real, c: real)
    requires x <= c && IsCents(c)
    ensures Round2(x) <= c
  {
    Round2Monotone(x, c);
    Round2OfCents(c);
  }

  lemma Round2AtLeast(x: real, c: real)
    requires c <= x && IsCents(c)
    ensures c <= Round2(x)
  {
    Round2Monotone(c, x);
    Round2OfCents(c);
  }

  /** The C# cast `(int)x` of a double: truncation toward zero. */
  function Truncate(x: real): (r: int)
    ensures x >= 0.0 ==> 0 <= r && r as real <= x < r as real + 1.0
    ensures x < 0.0 ==> r <= 0 && r as real - 1.0 < x <= r as real
  {
    if x >= 0.0 then x.Floor else -((-x).Floor)
  }

  function IntAbs(n: int): (r: nat)
    ensures r == n || r == -n
  {
    if n < 0 then -n else n
  }

  /** C# integer division `a / b`: the quotient truncated toward zero, so the
      remainder `a - q * b` has the sign of `a` and is smaller than `b` in size. */
  function DivTrunc(a: int, b: int): (q: int)
    requires b != 0
    ensures a >= 0 ==> 0 <= a - q * b < IntAbs(b)
    ensures a < 0 ==> -(IntAbs(b) as int) < a - q * b <= 0
  {
    if a >= 0 then (if b > 0 then a / b else -(a / -b))
    else (if b > 0 then -((-a) / b) else (-a) / (-b))
  }

  lemma MulMonotone(m: real, a: real, b: real)
    requires m > 0.0 && a <= b
    ensures m * a <= m * b
    ensures a < b ==> m * a < m * b
  {
  }

  function Same(x: real): real { x }

  /** `Math.Pow(x, 2)`. The second factor is written `Same(x)` because the
      solver loses track of a product whose two factors are the same term. */
  function Square(x: real): (r: real)
    ensures r >= 0.0
    ensures r == 0.0 <==> x == 0.0
  {
    if x > 0.0 then MulMonotone(x, 0.0, Same(x)); x * Same(x)
    else if x < 0.0 then MulMonotone(-x, 0.0, -Same(x)); x * Same(x)
    else x * Same(x)
  }

  lemma MulNonNegative(a: real, b: real)
    requires a >= 0.0 && b >= 0.0
    ensures a * b >= 0.0
  {
    if a > 0.0 { MulMonotone(a, 0.0, b); }
  }

  lemma DivMonotone(a: real, b: real, s: real)
    requires s > 0.0 && a <= b
    ensures a / s <= b / s
  {
    var p, q := a / s, b / s;
    assert s * p == a && s * q == b;
    if p > q { MulMonotone(s, q, p); }
  }

  /** A quotient of a non-negative number shrinks as its positive divisor
      grows. */
  lemma DivAntitone(a: real, p: real, q: real)
    requires a >= 0.0 && 0.0 < p <= q
    ensures a / q <= a / p
  {
    var x, y := a / p, a / q;
    assert x * p == a && y * q == a;
    assert y >= 0.0;
    assert y * p <= y * q by {
      if y > 0.0 { MulMonotone(y, p, q); }
    }
    DivMonotone(y * p, x * p, p);
  }

  lemma DivNonNegative(a: real, s: real)
    requires s > 0.0 && a >= 0.0
    ensures a / s >= 0.0
  {
    DivMonotone(0.0, a, s);
  }

  lemma DivZeroIff(a: real, s: real)
    requires s > 0.0
    ensures a / s == 0.0 <==> a == 0.0
  {
    var q := a / s;
    assert q * s == a;
  }

  lemma DivSum4(a: real, b: real, c: real, d: real, s: real)
    requires s != 0.0
    ensures a / s + b / s + c / s + d / s == (a + b + c + d) / s
  {
    var p, q, u, v := a / s, b / s, c / s, d / s;
    assert p * s == a && q * s == b && u * s == c && v * s == d;
    assert (p + q + u + v) * s == a + b + c + d;
  }

  /** What the model knows of `Math.Pow(x, e)` for a fixed exponent `e > 1`,
      as a function of `x` on `[0, 1]`: it fixes 0 and 1, stays between 0 and
      `x`, and keeps order. */
  ghost predicate IsUnitPower(pow: real -> real) {
    pow(0.0) == 0.0 && pow(1.0) == 1.0 &&
    (forall x :: 0.0 <= x <= 1.0 ==> 0.0 <= pow(x) <= x) &&
    (forall x, y :: 0.0 <= x <= y <= 1.0 ==> pow(x) <= pow(y))
  }

  /** `Math.Sqrt` on the non-negative reals: the non-negative number whose
      square is the argument. */
  ghost predicate IsSqrt(sqrt: real -> real) {
    forall x :: x >= 0.0 ==> sqrt(x) >= 0.0 && Square(sqrt(x)) == x
  }

  lemma SqrtZero(sqrt: real -> real)
    requires IsSqrt(sqrt)
    ensures sqrt(0.0) == 0.0
  {
    assert Square(sqrt(0.0)) == 0.0;
  }

  /** What the model knows of `Math.Pow(x, e)` for a fixed exponent `e > 1`
      on all of the non-negative reals: it fixes 0 and 1, is never negative
      and keeps order. */
  ghost predicate IsPower(pow: real -> real) {
    pow(0.0) == 0.0 && pow(1.0) == 1.0 &&
    (forall x :: x >= 0.0 ==> pow(x) >= 0.0) &&
    (forall x, y :: 0.0 <= x <= y ==> pow(x) <= pow(y))
  }

  /** What the model knows of `Math.Log10` on the positive reals: it is 0 at
      1 and strictly increasing. */
  ghost predicate IsLog10(log10: real -> real) {
    log10(1.0) == 0.0 &&
    (forall x, y :: 0.0 < x < y ==> log10(x) < log10(y))
  }

  /** Above 1 a logarithm is positive; between 0 and 1 it is negative. */
  lemma LogSign(log10: real -> real, x: real)
    requires IsLog10(log10) && x > 0.0
    ensures x > 1.0 ==> log10(x) > 0.0
    ensures x < 1.0 ==> log10(x) < 0.0
  {
  }
}
