/** The amortised monthly instalment of backend/app/services/emi.py. */
module Emi {
  import opened Numeric

  /** `(annual / 100) / 12`. */
  function MonthlyRate(annualRatePercent: real): real {
    (annualRatePercent / 100.0) / 12.0
  }

  /** `calculate_emi(principal, annual_rate_percent, tenure_months)`. */
  function CalculateEmi(principal: real, annualRatePercent: real, tenureMonths: int): (emi: real)
    requires annualRatePercent >= 0.0
    ensures principal <= 0.0 || tenureMonths <= 0 ==> emi == 0.0
    ensures principal > 0.0 && tenureMonths > 0 ==> emi > 0.0
  {
    if principal <= 0.0 || tenureMonths <= 0 then 0.0
    else
      var r := MonthlyRate(annualRatePercent);
      if r == 0.0 then principal / tenureMonths as real
      else
        GrowthAboveOne(r, tenureMonths);
        PowPositive(1.0 + r, tenureMonths);
        AmortisationPositive(principal, r, tenureMonths);
        principal * r * Pow(1.0 + r, tenureMonths) / (Pow(1.0 + r, tenureMonths) - 1.0)
  }

  /** Bernoulli's inequality: `(1 + r)^n >= 1 + n r` for `r >= 0`. */
  lemma {:induction false} Bernoulli(r: real, n: nat)
    requires r >= 0.0
    ensures Pow(1.0 + r, n) >= 1.0 + n as real * r
  {
    if n > 0 {
      Bernoulli(r, n - 1);
      var p := Pow(1.0 + r, n - 1);
      assert Pow(1.0 + r, n) == (1.0 + r) * p;
      assert (1.0 + r) * p == p + r * p;
      PowAtLeastOne(1.0 + r, n - 1);
      assert r * p >= r;
    }
  }

  /** With a positive rate and a positive tenure the amortisation denominator is positive. */
  lemma {:induction false} GrowthAboveOne(r: real, n: nat)
    requires r > 0.0 && n > 0
    ensures Pow(1.0 + r, n) - 1.0 > 0.0
  {
    Bernoulli(r, n);
    assert n as real * r > 0.0;
  }

  lemma {:induction false} AmortisationPositive(p: real, r: real, n: nat)
    requires p > 0.0 && r > 0.0 && n > 0
    ensures Pow(1.0 + r, n) - 1.0 > 0.0
    ensures p * r * Pow(1.0 + r, n) / (Pow(1.0 + r, n) - 1.0) > 0.0
  {
    GrowthAboveOne(r, n);
    PowPositive(1.0 + r, n);
    var x := Pow(1.0 + r, n);
    assert p * r > 0.0;
    assert p * r * x > 0.0;
  }

  /** A zero rate spreads the principal evenly over the tenure. */
  lemma {:induction false} ZeroRateIsEvenSplit(principal: real, tenureMonths: int)
    requires principal > 0.0 && tenureMonths > 0
    ensures CalculateEmi(principal, 0.0, tenureMonths) * tenureMonths as real == principal
  {
  }

  /** The instalment is linear in the principal: scaling the principal by `k`
      scales the instalment by `k`. */
  lemma {:induction false} LinearInPrincipal(principal: real, k: real, annualRatePercent: real, tenureMonths: int)
    requires annualRatePercent >= 0.0 && principal > 0.0 && k > 0.0
    ensures CalculateEmi(k * principal, annualRatePercent, tenureMonths)
         == k * CalculateEmi(principal, annualRatePercent, tenureMonths)
  {
    if tenureMonths > 0 {
      var r := MonthlyRate(annualRatePercent);
      assert k * principal > 0.0;
      if r != 0.0 {
        GrowthAboveOne(r, tenureMonths);
        var x := Pow(1.0 + r, tenureMonths);
        var d := x - 1.0;
        assert (k * principal) * r * x / d == k * (principal * r * x / d);
      } else {
        assert (k * principal) / tenureMonths as real == k * (principal / tenureMonths as real);
      }
    }
  }

  /** For a fixed rate and tenure, a larger principal never gives a smaller instalment. */
  lemma {:induction false} MonotoneInPrincipal(p1: real, p2: real, annualRatePercent: real, tenureMonths: int)
    requires annualRatePercent >= 0.0 && p1 <= p2
    ensures CalculateEmi(p1, annualRatePercent, tenureMonths) <= CalculateEmi(p2, annualRatePercent, tenureMonths)
  {
    if p1 > 0.0 && tenureMonths > 0 {
      if MonthlyRate(annualRatePercent) != 0.0 {
        AmortisedMonotone(p1, p2, annualRatePercent, tenureMonths);
      } else {
        EvenSplitMonotone(p1, p2, tenureMonths as real);
      }
    }
  }

  lemma {:induction false} AmortisedMonotone(p1: real, p2: real, annualRatePercent: real, tenureMonths: int)
    requires annualRatePercent >= 0.0 && 0.0 < p1 <= p2 && tenureMonths > 0
    requires MonthlyRate(annualRatePercent) != 0.0
    ensures CalculateEmi(p1, annualRatePercent, tenureMonths) <= CalculateEmi(p2, annualRatePercent, tenureMonths)
  {
    var r := MonthlyRate(annualRatePercent);
    var x := Pow(1.0 + r, tenureMonths);
    AmortisedFormula(p1, annualRatePercent, tenureMonths);
    AmortisedFormula(p2, annualRatePercent, tenureMonths);
    assert CalculateEmi(p1, annualRatePercent, tenureMonths) == p1 * (r * x) / (x - 1.0);
    assert CalculateEmi(p2, annualRatePercent, tenureMonths) == p2 * (r * x) / (x - 1.0);
    ScaledQuotientMonotone(p1, p2, r * x, x - 1.0);
  }

  /** With a non-zero rate the instalment is the annuity formula, over a
      positive denominator and a positive growth factor. */
  lemma {:induction false} AmortisedFormula(p: real, annualRatePercent: real, tenureMonths: int)
    requires annualRatePercent >= 0.0 && p > 0.0 && tenureMonths > 0
    requires MonthlyRate(annualRatePercent) != 0.0
    ensures var r := MonthlyRate(annualRatePercent);
      var x := Pow(1.0 + r, tenureMonths);
      r > 0.0 && x - 1.0 > 0.0 && r * x > 0.0
      && CalculateEmi(p, annualRatePercent, tenureMonths) == p * (r * x) / (x - 1.0)
  {
    var r := MonthlyRate(annualRatePercent);
    GrowthAboveOne(r, tenureMonths);
    PowPositive(1.0 + r, tenureMonths);
    var x := Pow(1.0 + r, tenureMonths);
    assert p * r * x == p * (r * x);
  }

  lemma {:induction false} EvenSplitMonotone(p1: real, p2: real, n: real)
    requires p1 <= p2 && n > 0.0
    ensures p1 / n <= p2 / n
  {
    assert p2 / n - p1 / n == (p2 - p1) / n;
  }

  lemma {:induction false} ScaledQuotientMonotone(p1: real, p2: real, a: real, d: real)
    requires p1 <= p2 && a > 0.0 && d > 0.0
    ensures p1 * a / d <= p2 * a / d
  {
    assert p1 * a <= p2 * a;
    assert p2 * a / d - p1 * a / d == (p2 * a - p1 * a) / d;
  }

  lemma {:induction false} QuotientAtLeast(p: real, a: real, d: real)
    requires p > 0.0 && d > 0.0 && a >= d
    ensures p * a / d >= p
  {
    assert p * a >= p * d;
    assert p * a / d >= p * d / d;
  }

  lemma {:induction false} GrowthStep(x: real, r: real, m: real)
    requires x >= 1.0 && r >= 0.0 && m >= 0.0 && x - 1.0 <= m * r * x
    ensures x * (1.0 + r) - 1.0 <= (m + 1.0) * r * (x * (1.0 + r))
  {
    var k := (m + 1.0) * r * x;
    assert r * x >= 0.0;
    assert k == (m + 1.0) * (r * x);
    assert k >= 0.0;
    assert x * (1.0 + r) - 1.0 == (x - 1.0) + r * x;
    assert k == m * r * x + r * x;
    assert (m + 1.0) * r * (x * (1.0 + r)) == k + k * r;
    assert k * r >= 0.0;
  }

  /** `(1 + r)^n - 1 <= n r (1 + r)^n`: each of the `n` instalments pays at
      least the interest share of the growth. */
  lemma {:induction false} GrowthBound(r: real, n: nat)
    requires r >= 0.0
    ensures Pow(1.0 + r, n) - 1.0 <= n as real * r * Pow(1.0 + r, n)
  {
    if n > 0 {
      GrowthBound(r, n - 1);
      var x := Pow(1.0 + r, n - 1);
      PowAtLeastOne(1.0 + r, n - 1);
      assert Pow(1.0 + r, n) == x * (1.0 + r);
      var m := (n - 1) as real;
      GrowthStep(x, r, m);
      assert m + 1.0 == n as real;
    }
  }

  /** For a positive rate, the instalments over the whole tenure repay at
      least the principal. */
  lemma {:induction false} RepaysPrincipal(principal: real, annualRatePercent: real, tenureMonths: int)
    requires principal > 0.0 && annualRatePercent > 0.0 && tenureMonths > 0
    ensures CalculateEmi(principal, annualRatePercent, tenureMonths) * tenureMonths as real >= principal
  {
    var r := MonthlyRate(annualRatePercent);
    var n := tenureMonths;
    assert r > 0.0;
    GrowthAboveOne(r, n);
    GrowthBound(r, n);
    var x := Pow(1.0 + r, n);
    var d := x - 1.0;
    var emi := principal * r * x / d;
    assert CalculateEmi(principal, annualRatePercent, tenureMonths) == emi;
    assert emi * n as real == principal * (n as real * r * x) / d;
    QuotientAtLeast(principal, n as real * r * x, d);
  }
}
