/** The helpers of lib/loan-flow/utils.ts: a second fee and interest-rate
    rule, the mock credit score and risk band, and boolean format checks
    that differ from the validators in how much formatting they tolerate.
    `calculateEMI` here is the same expression as in calculations.ts and is
    modelled once, as `Calculations.CalculateEmi`. */
module LoanUtils {
  import opened Wrappers
  import opened Numeric
  import opened Strings
  import opened LoanFlowTypes
  import Calculations
  import Emi
  import Validators
  import DocumentVerification

  /** `calculateTotalPayable(emi, tenure)`. */
  function CalculateTotalPayable(emi: real, tenure: real): real {
    emi * tenure
  }

  /** For a positive amount and rate, the rounded instalments repay the
      principal to within half a rupee per month. */
  lemma {:induction false} InstalmentsRepayPrincipal(principal: real, annualRate: real, tenureMonths: nat)
    requires principal > 0.0 && annualRate > 0.0 && tenureMonths > 0
    ensures var emi := Calculations.CalculateEmi(principal, annualRate, tenureMonths).value;
      CalculateTotalPayable(emi as real, tenureMonths as real) >= principal - 0.5 * tenureMonths as real
  {
    Calculations.EmiMatchesBackend(principal, annualRate, tenureMonths);
    var exact := Emi.CalculateEmi(principal, annualRate, tenureMonths);
    Emi.RepaysPrincipal(principal, annualRate, tenureMonths);
    RoundHalfUpNear(exact);
    var emi := RoundHalfUp(exact) as real;
    assert Calculations.CalculateEmi(principal, annualRate, tenureMonths).value as real == emi;
    ScaledBound(emi, exact, principal, tenureMonths as real);
  }

  lemma {:induction false} ScaledBound(emi: real, exact: real, principal: real, n: real)
    requires emi >= exact - 0.5 && exact * n >= principal && n >= 0.0
    ensures emi * n >= principal - 0.5 * n
  {
    var d := emi - (exact - 0.5);
    assert d >= 0.0;
    assert d * n >= 0.0;
    assert emi * n == (exact - 0.5) * n + d * n;
    assert (exact - 0.5) * n == exact * n - 0.5 * n;
  }

  /** `calculateProcessingFee(loanAmount)`: 1.5%, rounded, with no clamp. */
  function CalculateProcessingFee(loanAmount: real): (fee: int)
    ensures loanAmount >= 0.0 ==> fee >= 0
  {
    RoundHalfUpNear(loanAmount * 1.5 / 100.0);
    RoundHalfUp(loanAmount * 1.5 / 100.0)
  }

  /** The two fee rules agree inside the clamp band of calculations.ts;
      below it this one charges less, above it more. */
  lemma {:induction false} FeesAgreeInBand(loanAmount: real)
    ensures 200000.0 / 3.0 <= loanAmount <= 2000000.0 / 3.0
            ==> CalculateProcessingFee(loanAmount) == Calculations.CalculateProcessingFee(loanAmount)
    ensures CalculateProcessingFee(loanAmount) <= Calculations.CalculateProcessingFee(loanAmount)
            || loanAmount > 2000000.0 / 3.0
    ensures Calculations.CalculateProcessingFee(loanAmount) <= CalculateProcessingFee(loanAmount)
            || loanAmount < 200000.0 / 3.0
  {
    Calculations.ProcessingFeeBands(loanAmount);
    var f := loanAmount * 1.5 / 100.0;
    if loanAmount < 200000.0 / 3.0 {
      RoundHalfUpMonotone(f, 1000.0);
    } else if loanAmount > 2000000.0 / 3.0 {
      RoundHalfUpMonotone(10000.0, f);
    }
  }

  /** `determineInterestRate(employmentType, monthlyIncome, loanAmount)`:
      10.5 less the discounts for salaried work, income and a large loan,
      never below 8.5. */
  function DetermineInterestRate(employmentType: EmploymentType, monthlyIncome: real, loanAmount: real): (rate: real)
    ensures 8.5 <= rate <= 10.5
  {
    var afterEmployment := if employmentType == Salaried then 10.5 - 0.5 else 10.5;
    var afterIncome :=
      if monthlyIncome >= 100000.0 then afterEmployment - 1.0
      else if monthlyIncome >= 50000.0 then afterEmployment - 0.5
      else afterEmployment;
    var afterAmount := if loanAmount >= 500000.0 then afterIncome - 0.5 else afterIncome;
    MaxReal(8.5, afterAmount)
  }

  /** The discounts add up to at most 2, so the 8.5 floor never binds: the
      rate is exactly 10.5 less the discounts that apply. */
  lemma {:induction false} RateFloorNeverBinds(e: EmploymentType, income: real, amount: real)
    ensures DetermineInterestRate(e, income, amount)
            == 10.5 - (if e == Salaried then 0.5 else 0.0)
               - (if income >= 100000.0 then 1.0 else if income >= 50000.0 then 0.5 else 0.0)
               - (if amount >= 500000.0 then 0.5 else 0.0)
    ensures DetermineInterestRate(Salaried, 100000.0, 500000.0) == 8.5
  {
  }

  /** A higher income or a larger loan never raises the rate, and salaried
      work never costs more. */
  lemma {:induction false} RateNonIncreasing(e: EmploymentType, i1: real, i2: real, a1: real, a2: real)
    requires i1 <= i2 && a1 <= a2
    ensures DetermineInterestRate(e, i2, a2) <= DetermineInterestRate(e, i1, a1)
    ensures DetermineInterestRate(Salaried, i1, a1) <= DetermineInterestRate(SelfEmployed, i1, a1)
  {
  }

  /** `loanAmount / (monthlyIncome * 12) < bound` in JavaScript: dividing by
      zero gives an infinity of the amount's sign, or `NaN` for `0 / 0`, and
      `NaN` compares false. */
  predicate RatioBelow(loanAmount: real, monthlyIncome: real, bound: real) {
    if monthlyIncome * 12.0 == 0.0 then loanAmount < 0.0
    else loanAmount / (monthlyIncome * 12.0) < bound
  }

  /** `calculateCreditScore(monthlyIncome, loanAmount, employmentType)`. */
  function CalculateCreditScore(monthlyIncome: real, loanAmount: real, employmentType: EmploymentType): (score: int)
    ensures 650 <= score <= 830
  {
    var incomeFactor := if monthlyIncome >= 100000.0 then 100 else if monthlyIncome >= 50000.0 then 50 else 0;
    var employmentFactor := if employmentType == Salaried then 30 else 0;
    var ratioFactor :=
      if RatioBelow(loanAmount, monthlyIncome, 2.0) then 50
      else if RatioBelow(loanAmount, monthlyIncome, 3.0) then 20
      else 0;
    MinInt(850, 650 + incomeFactor + employmentFactor + ratioFactor)
  }

  /** With no income a positive loan earns no ratio bonus, but a negative
      amount divides to minus infinity and earns the full one. */
  lemma {:induction false} ZeroIncomeRatio(loanAmount: real, e: EmploymentType)
    ensures loanAmount >= 0.0 ==> CalculateCreditScore(0.0, loanAmount, e) == 650 + (if e == Salaried then 30 else 0)
    ensures loanAmount < 0.0 ==> CalculateCreditScore(0.0, loanAmount, e) == 700 + (if e == Salaried then 30 else 0)
  {
  }

  /** The share of a year's income a loan represents shrinks as the income
      grows. */
  lemma {:induction false} RatioShrinks(loanAmount: real, i1: real, i2: real, bound: real)
    requires loanAmount >= 0.0 && 0.0 < i1 <= i2
    ensures RatioBelow(loanAmount, i1, bound) ==> RatioBelow(loanAmount, i2, bound)
  {
    var q1 := loanAmount / (i1 * 12.0);
    var q2 := loanAmount / (i2 * 12.0);
    assert q2 * (i2 * 12.0) == loanAmount && q1 * (i1 * 12.0) == loanAmount;
    assert q2 * i2 == q1 * i1;
    if q2 > q1 {
      assert q2 * i2 > q1 * i2;
      assert q1 * i2 >= q1 * i1;
    }
  }

  /** For a non-negative amount, a higher income never lowers the score. */
  lemma {:induction false} ScoreNonDecreasingInIncome(loanAmount: real, i1: real, i2: real, e: EmploymentType)
    requires loanAmount >= 0.0 && 0.0 < i1 <= i2
    ensures CalculateCreditScore(i1, loanAmount, e) <= CalculateCreditScore(i2, loanAmount, e)
  {
    RatioShrinks(loanAmount, i1, i2, 2.0);
    RatioShrinks(loanAmount, i1, i2, 3.0);
  }

  const LowRisk: string := "Low Risk"
  const MediumRisk: string := "Medium Risk"
  const HighRisk: string := "High Risk"

  /** `getRiskCategory(creditScore)`. */
  function GetRiskCategory(creditScore: real): (category: string)
    ensures category == LowRisk <==> creditScore >= 750.0
    ensures category == HighRisk <==> creditScore < 650.0
    ensures category in {LowRisk, MediumRisk, HighRisk}
  {
    if creditScore >= 750.0 then LowRisk
    else if creditScore >= 650.0 then MediumRisk
    else HighRisk
  }

  /** The mock score never falls into the high-risk band, and a salaried
      applicant earning 50000 or more with a small loan is low risk. */
  lemma {:induction false} MockScoresNeverHighRisk(income: real, amount: real, e: EmploymentType)
    ensures GetRiskCategory(CalculateCreditScore(income, amount, e) as real) != HighRisk
    ensures income >= 50000.0 && e == Salaried && 0.0 <= amount < 24.0 * income
            ==> GetRiskCategory(CalculateCreditScore(income, amount, e) as real) == LowRisk
  {
    if income >= 50000.0 && e == Salaried && 0.0 <= amount < 24.0 * income {
      assert amount / (income * 12.0) < 2.0;
    }
  }

  // ------------------------------------------------------------ format checks

  /** `validatePAN(pan)`: the same pattern as the PAN validator. */
  function ValidatePan(pan: string): (ok: bool)
    ensures ok == Validators.ValidatePan(pan).isValid
  {
    Validators.PanShape(ToUpper(pan))
  }

  /** `validateAadhaar(aadhaar)`: twelve digits once whitespace is removed. */
  function ValidateAadhaar(aadhaar: string): (ok: bool)
    ensures ok <==> |DocumentVerification.RemoveSpaces(aadhaar)| == 12 && AllDigits(DocumentVerification.RemoveSpaces(aadhaar))
  {
    var cleaned := DocumentVerification.RemoveSpaces(aadhaar);
    |cleaned| == 12 && AllDigits(cleaned)
  }

  /** `validateMobile(mobile)`: ten digits, the first 6 to 9, nothing else. */
  function ValidateMobile(mobile: string): (ok: bool)
    ensures ok <==> |mobile| == 10 && AllDigits(mobile) && Validators.MobileLead(mobile[0])
  {
    |mobile| == 10 && Validators.MobileLead(mobile[0]) && AllDigits(mobile[1..])
  }

  /** `validateEmail(email)`: the same pattern as the e-mail validator. */
  function ValidateEmail(email: string): (ok: bool)
    ensures ok <==> Validators.EmailPattern(email)
  {
    Validators.EmailShapeIsPattern(email);
    Validators.EmailShape(email)
  }

  /** Whitespace holds no digits. */
  lemma {:induction false} DigitsIgnoreSpaces(s: string)
    ensures DigitsOf(DocumentVerification.RemoveSpaces(s)) == DigitsOf(s)
  {
    if s != [] {
      DigitsIgnoreSpaces(s[1..]);
      if !IsSpace(s[0]) {
        assert ([s[0]] + DocumentVerification.RemoveSpaces(s[1..]))[1..] == DocumentVerification.RemoveSpaces(s[1..]);
      }
    }
  }

  /** These checks are stricter than the validators: what passes here
      passes there. */
  lemma {:induction false} StrictChecksImplyValidators(mobile: string, aadhaar: string)
    ensures ValidateMobile(mobile) ==> Validators.ValidateMobile(mobile).isValid
    ensures ValidateAadhaar(aadhaar) ==> Validators.ValidateAadhaar(aadhaar).isValid
  {
    if ValidateMobile(mobile) { DigitsOfAllDigits(mobile); }
    if ValidateAadhaar(aadhaar) {
      DigitsIgnoreSpaces(aadhaar);
      DigitsOfAllDigits(DocumentVerification.RemoveSpaces(aadhaar));
    }
  }

  /** The converse fails: a valid number split by a hyphen passes the
      validator but not this check. */
  lemma {:induction false} HyphenOnlyPassesValidator(a: string, b: string)
    requires ValidateMobile(a + b)
    ensures Validators.ValidateMobile(a + "-" + b).isValid && !ValidateMobile(a + "-" + b)
  {
    StrictChecksImplyValidators(a + b, "");
    Validators.HyphenAccepted(a, b);
  }
}
