/** The income-based credit evaluation of backend/app/services/credit_service.py. */
module Credit {
  import opened Numeric

  datatype CreditEvaluation = CreditEvaluation(status: string, score: int)

  const BaseScore: int := 600
  const ScoreCap: int := 850
  const ApprovalThreshold: int := 650

  /** `min(monthly_income / 50000, 2.0)`. */
  function IncomeMultiplier(monthlyIncome: real): (m: real)
    ensures m <= 2.0
    ensures monthlyIncome >= 0.0 ==> 0.0 <= m
  {
    MinReal(monthlyIncome / 50000.0, 2.0)
  }

  /** `evaluate_credit` (the PAN and Aadhaar are not consulted; the
      timestamp is left out). */
  function EvaluateCredit(monthlyIncome: real): (r: CreditEvaluation)
    ensures r.score <= ScoreCap
    ensures r.status == "approved" <==> r.score >= ApprovalThreshold
    ensures r.status == "approved" || r.status == "rejected"
  {
    var score := MinInt(ScoreCap, RoundHalfEven(BaseScore as real + IncomeMultiplier(monthlyIncome) * 100.0));
    CreditEvaluation(if score >= ApprovalThreshold then "approved" else "rejected", score)
  }

  /** For a non-negative income the score lies in [600, 800], so the cap of
      850 never binds. */
  lemma {:induction false} ScoreRange(monthlyIncome: real)
    requires monthlyIncome >= 0.0
    ensures 600 <= EvaluateCredit(monthlyIncome).score <= 800
    ensures EvaluateCredit(monthlyIncome).score
         == RoundHalfEven(600.0 + IncomeMultiplier(monthlyIncome) * 100.0)
  {
    var x := 600.0 + IncomeMultiplier(monthlyIncome) * 100.0;
    RoundHalfEvenBetween(x, 600, 800);
  }

  /** A larger income never lowers the score. */
  lemma {:induction false} ScoreMonotone(i1: real, i2: real)
    requires i1 <= i2
    ensures EvaluateCredit(i1).score <= EvaluateCredit(i2).score
  {
    var m1, m2 := IncomeMultiplier(i1), IncomeMultiplier(i2);
    assert i1 / 50000.0 <= i2 / 50000.0;
    assert m1 <= m2;
    RoundHalfEvenMonotone(600.0 + m1 * 100.0, 600.0 + m2 * 100.0);
  }

  /** From a monthly income of 25000 on, the evaluation approves. */
  lemma {:induction false} ApprovalFromTwentyFiveThousand(monthlyIncome: real)
    requires monthlyIncome >= 25000.0
    ensures EvaluateCredit(monthlyIncome).status == "approved"
  {
    ScoreMonotone(25000.0, monthlyIncome);
    assert IncomeMultiplier(25000.0) == 0.5;
    assert RoundHalfEven(650.0) == 650;
  }

  /** Below a monthly income of 24000, it rejects. */
  lemma {:induction false} RejectionBelowTwentyFourThousand(monthlyIncome: real)
    requires monthlyIncome < 24000.0
    ensures EvaluateCredit(monthlyIncome).status == "rejected"
  {
    var m := IncomeMultiplier(monthlyIncome);
    assert m < 0.48;
    var x := 600.0 + m * 100.0;
    assert x < 648.0;
    RoundHalfEvenMonotone(x, 648.0);
    assert RoundHalfEven(648.0) == 648;
  }
}
