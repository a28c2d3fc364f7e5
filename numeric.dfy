/** Arithmetic shared by the money computations: powers, the rounding rules
    of Python's `round` and JavaScript's `Math.round`, on exact reals. */
module Numeric {

  function Pow(b: real, n: nat): real {
    if n == 0 then 1.0 else b * Pow(b, n - 1)
  }

  function Pow10(n: nat): (r: real)
    ensures r >= 1.0
  {
    if n == 0 then 1.0 else 10.0 * Pow10(n - 1)
  }

  function MinReal(a: real, b: real): real { if a <= b then a else b }
  function MaxReal(a: real, b: real): real { if a >= b then a else b }
  function MinInt(a: int, b: int): int { if a <= b then a else b }

  /** Python `round(x)`: nearest integer, ties to the even neighbour. */
  function RoundHalfEven(x: real): int {
    var f := x.Floor;
    var d := x - f as real;
    if d < 0.5 then f
    else if d > 0.5 then f + 1
    else if f % 2 == 0 then f
    else f + 1
  }

  /** JavaScript `Math.round(x)`: nearest integer, ties towards +infinity. */
  function RoundHalfUp(x: real): int {
    (x + 0.5).Floor
  }

  /** Python `round(x, places)` on an exact real. */
  function RoundTo(x: real, places: nat): real {
    RoundHalfEven(x * Pow10(places)) as real / Pow10(places)
  }

  lemma {:induction false} PowAtLeastOne(b: real, n: nat)
    requires b >= 1.0
    ensures Pow(b, n) >= 1.0
  {
    if n > 0 {
      PowAtLeastOne(b, n - 1);
    }
  }

  lemma {:induction false} PowPositive(b: real, n: nat)
    requires b > 0.0
    ensures Pow(b, n) > 0.0
  {
    if n > 0 {
      PowPositive(b, n - 1);
    }
  }

  lemma {:induction false} PowNonZero(b: real, n: nat)
    requires b != 0.0
    ensures Pow(b, n) != 0.0
  {
    if n > 0 {
      PowNonZero(b, n - 1);
    }
  }

  /** Rounding to the nearest integer never moves past an integer bound. */
  lemma {:induction false} RoundHalfEvenBetween(x: real, lo: int, hi: int)
    requires lo as real <= x <= hi as real
    ensures lo <= RoundHalfEven(x) <= hi
  {
    var f := x.Floor;
    assert lo <= f;
    if x < hi as real {
      assert f < hi;
    } else {
      assert f == hi;
    }
  }

  /** Python's `round` is monotone. */
  lemma {:induction false} RoundHalfEvenMonotone(x: real, y: real)
    requires x <= y
    ensures RoundHalfEven(x) <= RoundHalfEven(y)
  {
    var fx, fy := x.Floor, y.Floor;
    assert fx <= fy;
    if fx == fy {
      assert x - fx as real <= y - fy as real;
    } else {
      assert fx + 1 <= fy;
    }
  }

  /** `round(x, places)` of a non-negative value is non-negative. */
  lemma {:induction false} RoundToNonNegative(x: real, places: nat)
    requires x >= 0.0
    ensures RoundTo(x, places) >= 0.0
  {
    var p := Pow10(places);
    assert x * p >= 0.0;
    RoundHalfEvenBetween(x * p, 0, (x * p).Floor + 1);
  }

  /** `Math.round` lands within half a unit of its argument. */
  lemma {:induction false} RoundHalfUpNear(x: real)
    ensures x - 0.5 < RoundHalfUp(x) as real <= x + 0.5
  {
  }

  /** `Math.round` never moves past an integer bound. */
  lemma {:induction false} RoundHalfUpBetween(x: real, lo: int, hi: int)
    requires lo as real <= x <= hi as real
    ensures lo <= RoundHalfUp(x) <= hi
  {
    RoundHalfUpNear(x);
  }

  /** `Math.round` is monotone. */
  lemma {:induction false} RoundHalfUpMonotone(x: real, y: real)
    requires x <= y
    ensures RoundHalfUp(x) <= RoundHalfUp(y)
  {
  }

  /** Python's `round` and `Math.round` agree except on a tie with an even
      floor, where Python's result is one lower. */
  lemma {:induction false} HalfEvenBelowHalfUp(x: real)
    ensures RoundHalfUp(x) - 1 <= RoundHalfEven(x) <= RoundHalfUp(x)
    ensures RoundHalfEven(x) != RoundHalfUp(x) <==> x - x.Floor as real == 0.5 && x.Floor % 2 == 0
  {
    var f := x.Floor;
    if x - f as real < 0.5 {
      assert (x + 0.5).Floor == f;
    } else {
      assert (x + 0.5).Floor == f + 1;
    }
  }
}
