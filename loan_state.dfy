/** The loan application record of backend/app/models/state.py
    (`LoanApplicationDetails`), the chat messages and the tool-call log. */
module LoanState {
  import opened Wrappers

  /** A chat message: the user's (`HumanMessage`) or the assistant's (`AIMessage`). */
  datatype Message = Human(content: string) | Ai(content: string)

  /** One entry of the tool-call log (`ToolCall`); arguments, result text and
      timestamp are left out. */
  datatype ToolCall = ToolCall(toolName: string, success: bool)

  /** A value snapshot of the application record, as the checkpoint stores it.
      `documentsRequested` holds the requested document types and
      `documentsReceived` the `type` entry of each received document. */
  datatype LoanData = LoanData(
    customerId: Option<string>,
    customerName: Option<string>,
    email: Option<string>,
    mobile: Option<string>,
    pan: Option<string>,
    aadhaar: Option<string>,
    address: Option<string>,
    kycConsent: Option<bool>,
    otpVerified: Option<bool>,
    requestedAmount: Option<real>,
    loanPurpose: Option<string>,
    purposeCategory: Option<string>,
    tenureMonths: Option<int>,
    employmentType: Option<string>,
    monthlyIncome: Option<real>,
    creditScore: Option<int>,
    preapprovedLimit: Option<real>,
    existingEmis: Option<real>,
    dtiRatio: Option<real>,
    documentsRequested: seq<string>,
    documentsReceived: seq<Option<string>>,
    calculatedEmi: Option<real>,
    affordabilityRatio: Option<real>)

  const PurposeCategories: set<string> :=
    {"debt_consolidation", "medical", "wedding", "education", "business", "other"}
  const EmploymentTypes: set<string> := {"salaried", "self_employed", "freelancer", "unemployed"}

  /** The field constraints the record declares. They are checked when a
      record is built, not when a field is assigned. */
  predicate WithinBounds(d: LoanData) {
    (d.tenureMonths.Some? ==> 6 <= d.tenureMonths.value <= 84)
    && (d.monthlyIncome.Some? ==> d.monthlyIncome.value >= 0.0)
    && (d.creditScore.Some? ==> 300 <= d.creditScore.value <= 900)
    && (d.preapprovedLimit.Some? ==> d.preapprovedLimit.value >= 0.0)
    && (d.existingEmis.Some? ==> d.existingEmis.value >= 0.0)
    && (d.dtiRatio.Some? ==> 0.0 <= d.dtiRatio.value <= 100.0)
    && (d.purposeCategory.Some? ==> d.purposeCategory.value in PurposeCategories)
    && (d.employmentType.Some? ==> d.employmentType.value in EmploymentTypes)
  }

  /** `LoanApplicationDetails()`: every field unset, existing EMIs 0, no documents. */
  function DefaultLoanData(): (d: LoanData)
    ensures WithinBounds(d)
    ensures d.existingEmis == Some(0.0)
    ensures d.documentsRequested == [] && d.documentsReceived == []
    ensures d.requestedAmount.None? && d.monthlyIncome.None? && d.tenureMonths.None?
  {
    LoanData(None, None, None, None, None, None, None, None, None, None, None, None, None,
             None, None, None, None, Some(0.0), None, [], [], None, None)
  }

  /** `is_complete`: amount, income, purpose and employment type are all
      truthy; the tenure is not required. */
  predicate IsComplete(d: LoanData) {
    RealTruthy(d.requestedAmount) && RealTruthy(d.monthlyIncome)
    && StrTruthy(d.loanPurpose) && StrTruthy(d.employmentType)
  }

  /** The position of a risk indicator in the order `risk_indicators` tests them. */
  function RiskRank(name: string): int {
    if name == "high_dti" then 0
    else if name == "low_credit" then 1
    else if name == "no_income" then 2
    else if name == "high_leverage" then 3
    else 4
  }

  predicate HighDti(d: LoanData) { RealTruthy(d.dtiRatio) && d.dtiRatio.value > 50.0 }
  predicate LowCredit(d: LoanData) { IntTruthy(d.creditScore) && d.creditScore.value < 650 }
  predicate NoIncome(d: LoanData) { d.employmentType == Some("unemployed") }
  predicate HighLeverage(d: LoanData) {
    RealTruthy(d.monthlyIncome) && RealTruthy(d.requestedAmount)
    && d.requestedAmount.value / d.monthlyIncome.value > 10.0
  }

  /** `risk_indicators`: each indicator appears exactly when its condition
      holds, once, in the fixed order high_dti, low_credit, no_income,
      high_leverage. */
  function RiskIndicators(d: LoanData): (r: seq<string>)
    ensures "high_dti" in r <==> HighDti(d)
    ensures "low_credit" in r <==> LowCredit(d)
    ensures "no_income" in r <==> NoIncome(d)
    ensures "high_leverage" in r <==> HighLeverage(d)
    ensures forall i :: 0 <= i < |r| ==> RiskRank(r[i]) < 4
    ensures forall i, j :: 0 <= i < j < |r| ==> RiskRank(r[i]) < RiskRank(r[j])
  {
    (if HighDti(d) then ["high_dti"] else [])
    + (if LowCredit(d) then ["low_credit"] else [])
    + (if NoIncome(d) then ["no_income"] else [])
    + (if HighLeverage(d) then ["high_leverage"] else [])
  }

  /** A fresh record is not complete and shows no risk. */
  lemma {:induction false} DefaultIsEmpty()
    ensures !IsComplete(DefaultLoanData())
    ensures RiskIndicators(DefaultLoanData()) == []
  {
  }

  /** The mutable record the graph nodes update in place. */
  class LoanApplicationDetails {
    var customerId: Option<string>
    var customerName: Option<string>
    var email: Option<string>
    var mobile: Option<string>
    var pan: Option<string>
    var aadhaar: Option<string>
    var address: Option<string>
    var kycConsent: Option<bool>
    var otpVerified: Option<bool>
    var requestedAmount: Option<real>
    var loanPurpose: Option<string>
    var purposeCategory: Option<string>
    var tenureMonths: Option<int>
    var employmentType: Option<string>
    var monthlyIncome: Option<real>
    var creditScore: Option<int>
    var preapprovedLimit: Option<real>
    var existingEmis: Option<real>
    var dtiRatio: Option<real>
    var documentsRequested: seq<string>
    var documentsReceived: seq<Option<string>>
    var calculatedEmi: Option<real>
    var affordabilityRatio: Option<real>

    /** The record's current field values. */
    function Snapshot(): LoanData
      reads this
    {
      LoanData(customerId, customerName, email, mobile, pan, aadhaar, address, kycConsent,
               otpVerified, requestedAmount, loanPurpose, purposeCategory, tenureMonths,
               employmentType, monthlyIncome, creditScore, preapprovedLimit, existingEmis,
               dtiRatio, documentsRequested, documentsReceived, calculatedEmi, affordabilityRatio)
    }

    constructor ()
      ensures Snapshot() == DefaultLoanData()
    {
      customerId, customerName, email, mobile, pan, aadhaar, address := None, None, None, None, None, None, None;
      kycConsent, otpVerified := None, None;
      requestedAmount, loanPurpose, purposeCategory, tenureMonths := None, None, None, None;
      employmentType, monthlyIncome := None, None;
      creditScore, preapprovedLimit, existingEmis, dtiRatio := None, None, Some(0.0), None;
      documentsRequested, documentsReceived := [], [];
      calculatedEmi, affordabilityRatio := None, None;
    }
  }
}
