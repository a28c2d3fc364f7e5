/** The legacy sanction letter of backend/app/agents/sanction_agent.py: the
    figures of the graph's sanction service, taken from the session at the
    session's fixed rate. The clock, the random reference and the document
    hash are parameters. */
module SanctionAgent {
  import opened Wrappers
  import opened Numeric
  import opened SessionStore
  import SanctionService
  import LoanState

  /** `generate_sanction_letter(session)`. */
  function GenerateSanctionLetter(s: Session, now: int, uuidHex: string, documentHash: string)
    : (l: SanctionService.SanctionLetter)
    requires |uuidHex| >= 8
    ensures l.applicantName == StrOr(s.fullName, "Applicant")
    ensures l.loanDetails.amount == RealOrZero(s.requestedAmount)
    ensures l.loanDetails.tenure == IntOrZero(s.tenureMonths)
    ensures l.loanDetails.processingFee == 0.0
    ensures l.loanDetails.apr == l.loanDetails.interestRate == SessionInterestRate
    ensures l.validUntil == now + SanctionService.ValidityDays * SanctionService.SecondsPerDay
    ensures l.loanDetails.totalInterest >= 0.0
  {
    SanctionService.Letter(s.fullName, s.requestedAmount, s.tenureMonths, SessionInterestRate, now, uuidHex, documentHash)
  }

  /** The legacy letter is the graph's letter for the same name, amount and
      tenure at the session's rate. */
  lemma {:induction false} SameAsGraphLetter(s: Session, d: LoanState.LoanData, now: int, uuidHex: string, documentHash: string)
    requires |uuidHex| >= 8
    requires d.customerName == s.fullName && d.requestedAmount == s.requestedAmount && d.tenureMonths == s.tenureMonths
    ensures GenerateSanctionLetter(s, now, uuidHex, documentHash)
         == SanctionService.GenerateSanctionLetterData(d, SessionInterestRate, now, uuidHex, documentHash)
  {
  }

  /** Without a tenure the letter carries no instalment and no interest, and
      the amount (or 0) is what is payable. */
  lemma {:induction false} NoTenureNoInstalment(s: Session, now: int, uuidHex: string, documentHash: string)
    requires |uuidHex| >= 8 && IntOrZero(s.tenureMonths) == 0
    ensures var l := GenerateSanctionLetter(s, now, uuidHex, documentHash).loanDetails;
      l.emi == 0.0 && l.totalInterest == 0.0 && l.totalPayable == RoundTo(RealOrZero(s.requestedAmount), 2)
  {
    SanctionService.NoTenureNoInterest(RealOrZero(s.requestedAmount), SessionInterestRate);
    RoundZero();
  }

  /** `round(0, 2) == 0`. */
  lemma {:induction false} RoundZero()
    ensures RoundTo(0.0, 2) == 0.0
  {
    assert RoundHalfEven(0.0) == 0;
  }
}
