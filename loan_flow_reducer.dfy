/** `loanFlowReducer` of lib/loan-flow/loanFlowReducer.ts: each action gives
    a new state built from the old one by object spread. */
module LoanFlowReducer {
  import opened Wrappers
  import opened LoanFlowTypes

  /** The slot after a progress report: uploaded at 100, uploading before. */
  function WithProgress(d: DocumentFile, progress: real): DocumentFile {
    d.(progress := progress, status := if progress == 100.0 then Uploaded else Uploading)
  }

  /** `loanFlowReducer(state, action)`. CLEAR_MESSAGES has no case of its
      own and reaches the default branch. */
  function Reduce(s: LoanFlowState, a: LoanFlowAction): LoanFlowState {
    match a
    case SetStep(step) =>
      s.(currentStep := step,
         stepHistory := if s.currentStep != step then s.stepHistory + [s.currentStep] else s.stepHistory,
         error := None)
    case GoBack =>
      if |s.stepHistory| == 0 then s
      else s.(currentStep := s.stepHistory[|s.stepHistory| - 1],
              stepHistory := s.stepHistory[..|s.stepHistory| - 1],
              error := None)
    case AddMessage(m) => s.(messages := s.messages + [m])
    case SetEmploymentType(e) => s.(collectedData := s.collectedData.(employmentType := Some(e)))
    case SetMonthlyIncome(i) => s.(collectedData := s.collectedData.(monthlyIncome := Some(i)))
    case SetLoanAmount(x) => s.(collectedData := s.collectedData.(loanAmount := Some(x)))
    case SetTenure(t) => s.(collectedData := s.collectedData.(tenure := Some(t)))
    case SetPersonalDetail(f, v) =>
      s.(collectedData := s.collectedData.(personalDetails := s.collectedData.personalDetails.Set(f, v)))
    case SetOtpVerified(b) => s.(collectedData := s.collectedData.(otpVerified := Some(b)))
    case SetKycConsent(b) => s.(collectedData := s.collectedData.(kycConsent := Some(b)))
    case StartCreditEvaluation =>
      s.(isProcessing := true, creditEvaluation := Some(CreditEvaluation(Evaluating, None, None)))
    case SetCreditEvaluation(e) => s.(isProcessing := false, creditEvaluation := Some(e))
    case SetLoanOffer(o) => s.(loanOffer := Some(o))
    case SetOfferAccepted(b) => s.(offerAccepted := Some(b))
    case UploadDocument(k, d) => s.(documents := s.documents.Set(k, d))
    case UpdateDocumentProgress(k, p) => s.(documents := s.documents.Set(k, WithProgress(s.documents.Get(k), p)))
    case SetDocumentStatus(k, st) => s.(documents := s.documents.Set(k, s.documents.Get(k).(status := st)))
    case SetDocumentsComplete(b) => s.(documentsComplete := b)
    case SetUploadConfirmation(b) => s.(uploadConfirmationReceived := b)
    case StartApprovalProcessing => s.(isProcessing := true, approvalStatus := Some(ApprovalPending))
    case SetApprovalStatus(st) => s.(isProcessing := false, approvalStatus := Some(st))
    case GenerateSanctionLetter(l) => s.(sanctionLetter := Some(l))
    case SetProcessing(b) => s.(isProcessing := b)
    case SetError(e) => s.(error := e, isProcessing := false)
    case ResetFlow => InitialLoanFlowState().(messages := [])
    case LoadState(t) => t
    case ClearMessages => s
  }

  /** The state after dispatching `actions` in order. */
  function ReduceAll(s: LoanFlowState, actions: seq<LoanFlowAction>): LoanFlowState
    decreases |actions|
  {
    if actions == [] then s else ReduceAll(Reduce(s, actions[0]), actions[1..])
  }

  lemma {:induction false} ReduceAllAppend(s: LoanFlowState, xs: seq<LoanFlowAction>, ys: seq<LoanFlowAction>)
    ensures ReduceAll(s, xs + ys) == ReduceAll(ReduceAll(s, xs), ys)
    decreases |xs|
  {
    if xs != [] {
      assert (xs + ys)[1..] == xs[1..] + ys;
      ReduceAllAppend(Reduce(s, xs[0]), xs[1..], ys);
    } else {
      assert xs + ys == ys;
    }
  }

  // ------------------------------------------------------------ step history

  /** SET_STEP records the step it leaves only when the step changes, and
      clears the error. */
  lemma {:induction false} SetStepRecordsChange(s: LoanFlowState, step: ConversationStep)
    ensures var r := Reduce(s, SetStep(step));
      r.currentStep == step && r.error.None?
      && (s.currentStep != step ==> r.stepHistory == s.stepHistory + [s.currentStep])
      && (s.currentStep == step ==> r.stepHistory == s.stepHistory)
      && r.messages == s.messages && r.collectedData == s.collectedData && r.documents == s.documents
  {
  }

  /** GO_BACK with no history changes nothing; otherwise it returns to the
      last recorded step and forgets it. */
  lemma {:induction false} GoBackPops(s: LoanFlowState)
    ensures |s.stepHistory| == 0 ==> Reduce(s, GoBack) == s
    ensures |s.stepHistory| > 0 ==>
      var r := Reduce(s, GoBack);
      r.currentStep == s.stepHistory[|s.stepHistory| - 1]
      && r.stepHistory + [r.currentStep] == s.stepHistory && r.error.None?
  {
  }

  /** Moving to a different step and going back restores the step and its
      history; only the error is cleared. */
  lemma {:induction false} GoBackUndoesSetStep(s: LoanFlowState, step: ConversationStep)
    requires s.currentStep != step
    ensures Reduce(Reduce(s, SetStep(step)), GoBack) == s.(error := None)
  {
    var h := s.stepHistory + [s.currentStep];
    assert h[..|h| - 1] == s.stepHistory;
  }

  /** The steps reached by SET_STEP and GO_BACK: the current step and the
      history never hold the same step twice in a row. */
  predicate NoRepeats(s: LoanFlowState) {
    var h := s.stepHistory + [s.currentStep];
    forall i :: 0 <= i < |h| - 1 ==> h[i] != h[i + 1]
  }

  /** SET_STEP and GO_BACK keep the history free of immediate repeats. */
  lemma {:induction false} NavigationKeepsNoRepeats(s: LoanFlowState, a: LoanFlowAction)
    requires NoRepeats(s) && (a.SetStep? || a.GoBack?)
    ensures NoRepeats(Reduce(s, a))
  {
    var h := s.stepHistory + [s.currentStep];
    var r := Reduce(s, a);
    var g := r.stepHistory + [r.currentStep];
    if a.SetStep? && s.currentStep != a.step {
      assert g == h + [a.step];
    } else if a.GoBack? && |s.stepHistory| > 0 {
      assert g == h[..|h| - 1];
    }
  }

  // ------------------------------------------------------------ data

  /** ADD_MESSAGE appends the message and keeps the earlier ones. */
  lemma {:induction false} AddMessageAppends(s: LoanFlowState, m: Message)
    ensures var r := Reduce(s, AddMessage(m));
      |r.messages| == |s.messages| + 1 && r.messages[|s.messages|] == m
      && r.messages[..|s.messages|] == s.messages
  {
    assert (s.messages + [m])[..|s.messages|] == s.messages;
  }

  /** A progress report marks the slot uploaded exactly at 100 and leaves
      the other slots alone. */
  lemma {:induction false} ProgressMarksUploadedAtHundred(s: LoanFlowState, k: DocumentKind, p: real)
    ensures var r := Reduce(s, UpdateDocumentProgress(k, p));
      r.documents.Get(k).progress == p
      && (r.documents.Get(k).status == Uploaded <==> p == 100.0)
      && (r.documents.Get(k).status == Uploading <==> p != 100.0)
      && (forall j :: j != k ==> r.documents.Get(j) == s.documents.Get(j))
  {
  }

  /** SET_PERSONAL_DETAIL changes the named field and nothing else. */
  lemma {:induction false} PersonalDetailChangesOneField(s: LoanFlowState, f: PersonalField, v: string)
    ensures var r := Reduce(s, SetPersonalDetail(f, v));
      r.collectedData.personalDetails.Get(f) == Some(v)
      && (forall g :: g != f ==> r.collectedData.personalDetails.Get(g) == s.collectedData.personalDetails.Get(g))
      && r == s.(collectedData := r.collectedData)
      && r.collectedData == s.collectedData.(personalDetails := r.collectedData.personalDetails)
  {
  }

  /** An error report and a finished evaluation or approval stop the
      processing indicator. */
  lemma {:induction false} ResultsStopProcessing(s: LoanFlowState, a: LoanFlowAction)
    requires a.SetError? || a.SetCreditEvaluation? || a.SetApprovalStatus?
    ensures !Reduce(s, a).isProcessing
  {
  }

  /** RESET_FLOW returns to the initial state; CLEAR_MESSAGES, having no case
      of its own, returns the state unchanged, messages included. */
  lemma {:induction false} ResetAndClear(s: LoanFlowState)
    ensures Reduce(s, ResetFlow) == InitialLoanFlowState()
    ensures Reduce(s, ClearMessages) == s
  {
  }
}
