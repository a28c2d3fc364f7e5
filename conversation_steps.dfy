/** The step table of lib/loan-flow/conversationSteps.ts: how each step asks
    for input and which step follows it. The bot texts are display strings
    and are not modelled. */
module ConversationSteps {
  import opened Wrappers
  import opened LoanFlowTypes

  datatype StepInput = NoInput | Buttons | Text | Number | Otp | Modal

  datatype StepConfig = StepConfig(step: ConversationStep, inputType: StepInput,
                                   options: Option<seq<string>>, nextStep: Option<ConversationStep>,
                                   validateInput: bool)

  const TenureOptions: seq<string> := ["12 months", "24 months", "36 months", "48 months"]

  /** `getStepConfig(step)`: the entry of `conversationSteps` for `step`. */
  function GetStepConfig(s: ConversationStep): StepConfig {
    match s
    case Welcome => StepConfig(Welcome, NoInput, None, Some(Employment), false)
    case Employment => StepConfig(Employment, Buttons, Some(["Salaried", "Self-Employed"]), Some(MonthlyIncome), false)
    case MonthlyIncome => StepConfig(MonthlyIncome, Number, None, Some(LoanAmount), true)
    case LoanAmount => StepConfig(LoanAmount, Number, None, Some(TenureChoice), true)
    case TenureChoice => StepConfig(TenureChoice, Buttons, Some(TenureOptions), Some(FullName), false)
    case FullName => StepConfig(FullName, Text, None, Some(Mobile), true)
    case Mobile => StepConfig(Mobile, Text, None, Some(OtpVerification), true)
    case OtpVerification => StepConfig(OtpVerification, Otp, None, Some(Email), true)
    case Email => StepConfig(Email, Text, None, Some(Pan), true)
    case Pan => StepConfig(Pan, Text, None, Some(Aadhaar), true)
    case Aadhaar => StepConfig(Aadhaar, Text, None, Some(KycConsent), true)
    case KycConsent => StepConfig(KycConsent, Buttons, Some(["Yes, I consent", "No"]), Some(CreditCheck), false)
    case CreditCheck => StepConfig(CreditCheck, NoInput, None, Some(Offer), false)
    case Offer => StepConfig(Offer, Buttons, Some(["Accept Offer", "Reject Offer"]), Some(DocumentUploadPrompt), false)
    case DocumentUploadPrompt => StepConfig(DocumentUploadPrompt, Buttons, Some(["Upload Documents"]), Some(DocumentUpload), false)
    case DocumentUpload => StepConfig(DocumentUpload, Modal, None, Some(AwaitingUploadConfirmation), false)
    case AwaitingUploadConfirmation => StepConfig(AwaitingUploadConfirmation, Text, None, Some(ApprovalProcessing), false)
    case ApprovalProcessing => StepConfig(ApprovalProcessing, NoInput, None, Some(ApprovalSuccess), false)
    case ApprovalSuccess => StepConfig(ApprovalSuccess, Buttons, Some(["View Sanction Letter", "Download PDF"]), Some(Complete), false)
    case Complete => StepConfig(Complete, NoInput, None, None, false)
  }

  /** `getNextStep(step)`; `None` stands for `undefined`. */
  function GetNextStep(s: ConversationStep): Option<ConversationStep> {
    GetStepConfig(s).nextStep
  }

  /** Every entry is keyed by its own step; every step but the last is
      followed by the step declared after it, and the last by none. */
  lemma {:induction false} TableFollowsDeclarationOrder(s: ConversationStep)
    ensures GetStepConfig(s).step == s
    ensures s != Complete <==> GetNextStep(s).Some?
    ensures GetNextStep(s).Some? ==> Position(GetNextStep(s).value) == Position(s) + 1
  {
  }

  /** The steps visited by following `nextStep` from `s`. */
  function Walk(s: ConversationStep): seq<ConversationStep>
    decreases |AllSteps| - Position(s)
  {
    match GetNextStep(s)
    case None => [s]
    case Some(t) =>
      TableFollowsDeclarationOrder(s);
      [s] + Walk(t)
  }

  lemma {:induction false} SuffixUnfolds<T>(xs: seq<T>, i: nat)
    requires i < |xs|
    ensures xs[i..] == [xs[i]] + xs[i + 1..]
  {
  }

  /** Following `nextStep` from a step visits the steps declared from it on. */
  lemma {:induction false} WalkIsSuffix(s: ConversationStep)
    ensures Walk(s) == AllSteps[Position(s)..]
    decreases |AllSteps| - Position(s)
  {
    TableFollowsDeclarationOrder(s);
    if s != Complete {
      var t := GetNextStep(s).value;
      WalkIsSuffix(t);
      SuffixUnfolds(AllSteps, Position(s));
    }
  }

  /** From the welcome step the conversation visits all twenty steps, each
      exactly once, and ends at COMPLETE, which has no next step. */
  lemma {:induction false} ConversationVisitsEveryStepOnce()
    ensures |Walk(Welcome)| == 20
    ensures forall s :: s in Walk(Welcome)
    ensures forall i, j :: 0 <= i < j < |Walk(Welcome)| ==> Walk(Welcome)[i] != Walk(Welcome)[j]
    ensures Walk(Welcome)[19] == Complete && GetNextStep(Complete).None?
  {
    WalkIsSuffix(Welcome);
    TwentySteps();
  }

  /** OTP verification comes straight after the mobile number and straight
      before the e-mail address. */
  lemma {:induction false} OtpBetweenMobileAndEmail()
    ensures GetNextStep(Mobile) == Some(OtpVerification) && GetNextStep(OtpVerification) == Some(Email)
    ensures Position(Mobile) < Position(OtpVerification) < Position(Email)
  {
  }

  /** The tenure step offers the four tenures, one button each. */
  lemma {:induction false} TenureOptionsAreTheTenures()
    ensures GetStepConfig(TenureChoice).options == Some(TenureOptions) && |TenureOptions| == 4
  {
  }
}
