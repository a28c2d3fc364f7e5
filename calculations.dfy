/** The offer arithmetic of lib/loan-flow/calculations.ts. JavaScript numbers
    are exact reals here; a computation that would give `NaN` or an infinity
    yields `None`. */
module Calculations {
  import opened Wrappers
  import opened Numeric
  import opened LoanFlowTypes
  import Emi

  /** `annualRate / 12 / 100`. */
  function MonthlyRate(annualRate: real): real {
    annualRate / 12.0 / 100.0
  }

  /** The amortised instalment before rounding, defined when the balance
      grows over the tenure. */
  function Instalment(principal: real, r: real, n: nat): real
    requires Pow(1.0 + r, n) != 1.0
  {
    principal * r * Pow(1.0 + r, n) / (Pow(1.0 + r, n) - 1.0)
  }

  /** `calculateEMI(principal, annualRate, tenureMonths)`: the amortised
      instalment, rounded by `Math.round`. When `(1 + r)^n` is 1 (a zero
      rate or a zero tenure) the division is by zero and the result is not
      a finite number. */
  function CalculateEmi(principal: real, annualRate: real, tenureMonths: nat): (emi: Option<int>)
    ensures emi.None? <==> Pow(1.0 + MonthlyRate(annualRate), tenureMonths) == 1.0
    ensures annualRate > 0.0 && tenureMonths > 0 ==> emi.Some?
  {
    PositiveRateGrows(annualRate, tenureMonths);
    if Pow(1.0 + MonthlyRate(annualRate), tenureMonths) == 1.0 then None
    else Some(RoundHalfUp(Instalment(principal, MonthlyRate(annualRate), tenureMonths)))
  }

  /** A positive rate over a positive tenure grows the balance. */
  lemma {:induction false} PositiveRateGrows(annualRate: real, tenureMonths: nat)
    ensures annualRate > 0.0 && tenureMonths > 0 ==> Pow(1.0 + MonthlyRate(annualRate), tenureMonths) > 1.0
  {
    if annualRate > 0.0 && tenureMonths > 0 {
      Emi.GrowthAboveOne(MonthlyRate(annualRate), tenureMonths);
    }
  }

  /** For a positive principal, rate and tenure the instalment is the back
      end's amortised instalment rounded to the nearest rupee. */
  lemma {:induction false} EmiMatchesBackend(principal: real, annualRate: real, tenureMonths: nat)
    requires principal > 0.0 && annualRate > 0.0 && tenureMonths > 0
    ensures CalculateEmi(principal, annualRate, tenureMonths)
            == Some(RoundHalfUp(Emi.CalculateEmi(principal, annualRate, tenureMonths)))
    ensures CalculateEmi(principal, annualRate, tenureMonths).value >= 0
  {
    var r := MonthlyRate(annualRate);
    assert Emi.MonthlyRate(annualRate) == r;
    PositiveRateGrows(annualRate, tenureMonths);
    var e := Emi.CalculateEmi(principal, annualRate, tenureMonths);
    assert e == Instalment(principal, r, tenureMonths);
    RoundHalfUpBetween(e, 0, e.Floor + 1);
  }

  /** Unlike the back end, which splits the principal evenly, a zero rate
      gives no finite instalment. */
  lemma {:induction false} ZeroRateHasNoEmi(principal: real, tenureMonths: nat)
    ensures CalculateEmi(principal, 0.0, tenureMonths).None?
  {
    PowOfOne(tenureMonths);
  }

  lemma {:induction false} PowOfOne(n: nat)
    ensures Pow(1.0, n) == 1.0
  {
    if n > 0 { PowOfOne(n - 1); }
  }

  /** `calculateProcessingFee(loanAmount)`: 1.5% of the amount, clamped to
      [1000, 10000] and rounded. */
  function CalculateProcessingFee(loanAmount: real): (fee: int)
    ensures 1000 <= fee <= 10000
  {
    var f := MinReal(MaxReal(loanAmount * 1.5 / 100.0, 1000.0), 10000.0);
    RoundHalfUpBetween(f, 1000, 10000);
    RoundHalfUp(f)
  }

  /** Inside the clamp band the fee is 1.5% of the amount, rounded; below
      it the fee is the minimum and above it the maximum. */
  lemma {:induction false} ProcessingFeeBands(loanAmount: real)
    ensures loanAmount <= 200000.0 / 3.0 ==> CalculateProcessingFee(loanAmount) == 1000
    ensures loanAmount >= 2000000.0 / 3.0 ==> CalculateProcessingFee(loanAmount) == 10000
    ensures 200000.0 / 3.0 <= loanAmount <= 2000000.0 / 3.0
            ==> CalculateProcessingFee(loanAmount) == RoundHalfUp(loanAmount * 1.5 / 100.0)
  {
  }

  /** A larger loan never has a smaller fee. */
  lemma {:induction false} ProcessingFeeMonotone(a1: real, a2: real)
    requires a1 <= a2
    ensures CalculateProcessingFee(a1) <= CalculateProcessingFee(a2)
  {
    var f1 := MinReal(MaxReal(a1 * 1.5 / 100.0, 1000.0), 10000.0);
    var f2 := MinReal(MaxReal(a2 * 1.5 / 100.0, 1000.0), 10000.0);
    RoundHalfUpMonotone(f1, f2);
  }

  /** `calculateAPR(loanAmount, interestRate, tenure, processingFee)`: the
      interest and fee per rupee per year, as a percentage rounded to two
      decimals. A zero amount or a missing instalment gives no finite value. */
  function CalculateApr(loanAmount: real, interestRate: real, tenure: nat, processingFee: real): (apr: Option<real>)
    ensures apr.Some? <==> CalculateEmi(loanAmount, interestRate, tenure).Some? && loanAmount != 0.0
    ensures apr.Some? ==>
      var emi := CalculateEmi(loanAmount, interestRate, tenure).value;
      var exact := ((emi * tenure) as real - loanAmount + processingFee) / loanAmount / (tenure as real / 12.0) * 100.0;
      exact - 0.005 < apr.value <= exact + 0.005
      && (apr.value * 100.0).Floor as real == apr.value * 100.0
  {
    match CalculateEmi(loanAmount, interestRate, tenure)
    case None => None
    case Some(emi) =>
      if loanAmount == 0.0 then None
      else
        var totalInterest := (emi * tenure) as real - loanAmount;
        var totalCost := totalInterest + processingFee;
        var apr := totalCost / loanAmount / (tenure as real / 12.0) * 100.0;
        RoundHalfUpNear(apr * 100.0);
        Some(RoundHalfUp(apr * 100.0) as real / 100.0)
  }

  /** `determineInterestRate(creditScore, employmentType)`: a band by score,
      one point more for the self-employed. */
  function DetermineInterestRate(creditScore: real, employmentType: EmploymentType): (rate: real)
    ensures employmentType == Salaried ==> rate in {10.5, 11.0, 11.5, 12.5, 14.0}
    ensures employmentType == SelfEmployed ==> rate in {11.5, 12.0, 12.5, 13.5, 15.0}
  {
    var baseRate :=
      if creditScore >= 800.0 then 10.5
      else if creditScore >= 750.0 then 11.0
      else if creditScore >= 700.0 then 11.5
      else if creditScore >= 650.0 then 12.5
      else 14.0;
    if employmentType == SelfEmployed then baseRate + 1.0 else baseRate
  }

  /** A better score never raises the rate, and self-employment costs
      exactly one point at every score. */
  lemma {:induction false} RateNonIncreasingInScore(s1: real, s2: real, e: EmploymentType)
    requires s1 <= s2
    ensures DetermineInterestRate(s2, e) <= DetermineInterestRate(s1, e)
    ensures DetermineInterestRate(s1, SelfEmployed) == DetermineInterestRate(s1, Salaried) + 1.0
  {
  }

  /** The band boundaries: each threshold score earns its band. */
  lemma {:induction false} RateBands(score: real)
    ensures score >= 800.0 ==> DetermineInterestRate(score, Salaried) == 10.5
    ensures 750.0 <= score < 800.0 ==> DetermineInterestRate(score, Salaried) == 11.0
    ensures 700.0 <= score < 750.0 ==> DetermineInterestRate(score, Salaried) == 11.5
    ensures 650.0 <= score < 700.0 ==> DetermineInterestRate(score, Salaried) == 12.5
    ensures score < 650.0 ==> DetermineInterestRate(score, Salaried) == 14.0
  {
  }

  /** `generateLoanOffer(loanAmount, tenure, creditScore, employmentType)`.
      The rate is at least 10.5 and the tenure at least 12 months, so the
      instalment is always a finite number. */
  function GenerateLoanOffer(loanAmount: real, tenure: Tenure, creditScore: real,
                             employmentType: EmploymentType): (o: LoanOffer)
    ensures o.amount == loanAmount && o.tenure == tenure as real
    ensures o.totalPayable == o.emi * o.tenure && o.totalInterest == o.totalPayable - o.amount
    ensures o.interestRate == DetermineInterestRate(creditScore, employmentType)
    ensures 1000.0 <= o.processingFee <= 10000.0
    ensures o.apr.Some? <==> loanAmount != 0.0
  {
    var interestRate := DetermineInterestRate(creditScore, employmentType);
    var emi := CalculateEmi(loanAmount, interestRate, tenure).value;
    var processingFee := CalculateProcessingFee(loanAmount);
    var totalPayable := (emi * tenure) as real;
    LoanOffer(loanAmount, interestRate, emi as real, tenure as real, processingFee as real,
              CalculateApr(loanAmount, interestRate, tenure, processingFee as real),
              totalPayable - loanAmount, totalPayable)
  }

  /** For a positive amount the offer's instalment is the back end's
      instalment at the offered rate, rounded, and it is positive. */
  lemma {:induction false} OfferUsesBackendInstalment(loanAmount: real, tenure: Tenure, creditScore: real,
                                                      employmentType: EmploymentType)
    requires loanAmount > 0.0
    ensures var o := GenerateLoanOffer(loanAmount, tenure, creditScore, employmentType);
      o.emi == RoundHalfUp(Emi.CalculateEmi(loanAmount, o.interestRate, tenure)) as real && o.emi >= 0.0
  {
    var rate := DetermineInterestRate(creditScore, employmentType);
    EmiMatchesBackend(loanAmount, rate, tenure);
  }
}
