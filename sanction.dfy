/** The sanction-letter figures of backend/app/services/sanction_service.py.
    The reference number's random part, the document hash and the clock are
    parameters; times are seconds. */
module SanctionService {
  import opened Wrappers
  import opened Strings
  import opened Numeric
  import Emi
  import opened LoanState

  datatype LoanOffer = LoanOffer(
    amount: real, interestRate: real, emi: real, tenure: int,
    processingFee: real, apr: real, totalInterest: real, totalPayable: real)

  datatype SanctionLetter = SanctionLetter(
    referenceNumber: string, generatedAt: int, validUntil: int, documentHash: string,
    applicantName: string, loanDetails: LoanOffer)

  const DefaultInterestRate: real := 12.5
  const ValidityDays: int := 30
  const SecondsPerDay: int := 86400

  /** The unrounded instalment, amount payable and interest. */
  datatype Figures = Figures(emi: real, totalPayable: real, totalInterest: real)

  /** The derivation from amount, rate and tenure: no tenure means no
      instalment and the amount itself payable; the interest is never negative. */
  function Derive(amount: real, interestRate: real, tenure: int): (f: Figures)
    requires interestRate >= 0.0
    ensures tenure == 0 ==> f.emi == 0.0 && f.totalPayable == amount
    ensures tenure != 0 ==> f.totalPayable == f.emi * tenure as real
    ensures f.totalInterest >= 0.0
    ensures f.totalInterest == MaxReal(f.totalPayable - amount, 0.0)
  {
    var emi := if tenure != 0 then Emi.CalculateEmi(amount, interestRate, tenure) else 0.0;
    var totalPayable := if tenure != 0 then emi * tenure as real else amount;
    Figures(emi, totalPayable, MaxReal(totalPayable - amount, 0.0))
  }

  /** The letter built from the applicant's name, the optional amount and
      tenure (a missing one counts as 0) and a rate. */
  function Letter(name: Option<string>, requestedAmount: Option<real>, tenureMonths: Option<int>,
                  interestRate: real, now: int, uuidHex: string, documentHash: string): (l: SanctionLetter)
    requires interestRate >= 0.0 && |uuidHex| >= 8
    ensures l.validUntil == l.generatedAt + ValidityDays * SecondsPerDay
    ensures l.applicantName == (if StrTruthy(name) then name.value else "Applicant")
    ensures l.loanDetails.processingFee == 0.0
    ensures l.loanDetails.apr == l.loanDetails.interestRate == interestRate
    ensures l.loanDetails.amount == RealOrZero(requestedAmount)
    ensures l.loanDetails.tenure == IntOrZero(tenureMonths)
    ensures l.loanDetails.totalInterest >= 0.0
    ensures l.referenceNumber == "SL-" + ToUpper(uuidHex[..8])
  {
    var amount := RealOrZero(requestedAmount);
    var tenure := IntOrZero(tenureMonths);
    var f := Derive(amount, interestRate, tenure);
    RoundToNonNegative(f.totalInterest, 2);
    SanctionLetter(
      "SL-" + ToUpper(uuidHex[..8]), now, now + ValidityDays * SecondsPerDay, documentHash,
      StrOr(name, "Applicant"),
      LoanOffer(amount, interestRate, RoundTo(f.emi, 2), tenure, 0.0, interestRate,
                RoundTo(f.totalInterest, 2), RoundTo(f.totalPayable, 2)))
  }

  /** `generate_sanction_letter_data(loan_data, interest_rate)`. */
  function GenerateSanctionLetterData(d: LoanData, interestRate: real, now: int, uuidHex: string, documentHash: string): (l: SanctionLetter)
    requires interestRate >= 0.0 && |uuidHex| >= 8
    ensures l.applicantName == (if StrTruthy(d.customerName) then d.customerName.value else "Applicant")
    ensures l.loanDetails.amount == RealOrZero(d.requestedAmount)
    ensures l.loanDetails.tenure == IntOrZero(d.tenureMonths)
    ensures l.loanDetails.interestRate == interestRate
  {
    Letter(d.customerName, d.requestedAmount, d.tenureMonths, interestRate, now, uuidHex, documentHash)
  }

  /** For a positive amount, tenure and rate the instalments cover the amount,
      so the interest is exactly what is paid beyond the amount. */
  lemma {:induction false} InterestIsPaidBeyondAmount(amount: real, interestRate: real, tenure: int)
    requires amount > 0.0 && interestRate > 0.0 && tenure > 0
    ensures Derive(amount, interestRate, tenure).totalPayable >= amount
    ensures Derive(amount, interestRate, tenure).totalInterest
         == Derive(amount, interestRate, tenure).totalPayable - amount
  {
    Emi.RepaysPrincipal(amount, interestRate, tenure);
  }

  /** Without a tenure nothing is borrowed at interest: the payable amount is
      the amount and the interest is zero. */
  lemma {:induction false} NoTenureNoInterest(amount: real, interestRate: real)
    requires interestRate >= 0.0
    ensures Derive(amount, interestRate, 0) == Figures(0.0, amount, 0.0)
  {
  }

  /** A negative tenure gets a zero instalment, so nothing is payable. */
  lemma {:induction false} NegativeTenurePaysNothing(amount: real, interestRate: real, tenure: int)
    requires interestRate >= 0.0 && tenure < 0
    ensures Derive(amount, interestRate, tenure).totalPayable == 0.0
  {
  }
}
