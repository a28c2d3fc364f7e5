/** The legacy underwriting handler of backend/app/agents/underwriting_agent.py.
    It caches a credit score, stores the debt-to-income ratio and maps the
    language model's decision (`None` when the call raised) onto the
    application status. The credit bureau's score is a parameter. */
module UnderwritingAgent {
  import opened Wrappers
  import opened Numeric
  import opened LlmJson
  import opened SessionStore
  import Emi
  import VerificationAgent

  /** The decision reply; an absent key reads as null. */
  datatype UwDecision = UwDecision(decision: Json, reply: Json, rejectionReason: Json)

  /** The handler's reply, the session it leaves and whether it asks for a
      salary slip (`requires_upload`). */
  datatype Underwritten = Underwritten(session: Session, reply: string, requiresUpload: bool)

  const NeedInputsReply: string := "I still need your income, loan amount, and tenure to complete underwriting."
  const UnavailableReply: string := "Underwriting is temporarily unavailable. Please try again shortly."
  const UploadReply: string := "Please upload your salary slip."
  const DefaultRejection: string := "Underwriting decision rejected the request."
  const ApprovedReply: string := "Great news! You are approved. Generating your sanction letter now."
  const RejectedReply: string := "We cannot approve this request based on the underwriting review."
  const ReviewReply: string := "Your application needs manual review. We will update you shortly."

  /** Income, amount and tenure are all known. */
  predicate HasInputs(s: Session) {
    s.monthlyIncome.Some? && s.requestedAmount.Some? && s.tenureMonths.Some?
  }

  /** The instalment at the session's rate. */
  function SessionEmi(s: Session): real
    requires HasInputs(s)
  {
    Emi.CalculateEmi(s.requestedAmount.value, SessionInterestRate, s.tenureMonths.value)
  }

  /** The bureau is asked only when no score is stored, so a score, once
      stored, is kept. */
  function CacheScore(s: Session, bureauScore: int): Session
  {
    if s.creditScore.None? then s.(creditScore := Some(bureauScore)) else s
  }

  /** `round(emi / income, 4)`, stored only for a non-zero income. */
  function StoreDti(s: Session): Session
    requires HasInputs(s)
  {
    if RealTruthy(s.monthlyIncome) then s.(dtiRatio := Some(RoundTo(SessionEmi(s) / s.monthlyIncome.value, 4)))
    else s
  }

  /** The status (and reason) the decision value sets. */
  function Decide(u: Session, decision: Json, reason: Option<string>): Session
  {
    if IsText(decision, "approved") then u.(applicationStatus := "approved")
    else if IsText(decision, "rejected") then
      u.(applicationStatus := "rejected", rejectionReason := Some(reason.GetOr(DefaultRejection)))
    else if IsText(decision, "manual_review") then u.(applicationStatus := "manual_review")
    else if IsText(decision, "needs_documents") then
      u.(applicationStatus := if u.salarySlipUploaded then "manual_review" else "in_progress")
    else u
  }

  /** Documents are asked for and no salary slip is on file. */
  predicate AsksUpload(u: Session, decision: Json) {
    IsText(decision, "needs_documents") && !u.salarySlipUploaded
  }

  /** The model's reply when it is non-blank, else one that fits. */
  function UwReply(v: Session, reply: Json, upload: bool): string
  {
    if IsNonBlankString(reply) then reply.s
    else if upload then UploadReply
    else if v.applicationStatus == "approved" then ApprovedReply
    else if v.applicationStatus == "rejected" then RejectedReply
    else ReviewReply
  }

  /** `handle_underwriting(session)`. */
  function HandleUnderwriting(s: Session, bureauScore: int, llm: Option<UwDecision>): Underwritten
  {
    if !HasInputs(s) then Underwritten(s, NeedInputsReply, false)
    else
      var u := StoreDti(CacheScore(s, bureauScore));
      match llm
      case None => Underwritten(u, UnavailableReply, false)
      case Some(d) =>
        var v := Decide(u, d.decision, CoerceStr(d.rejectionReason));
        var upload := AsksUpload(u, d.decision);
        Underwritten(v, UwReply(v, d.reply, upload), upload)
  }

  /** Without income, amount or tenure nothing is touched. */
  lemma {:induction false} NeedsInputsFirst(s: Session, bureauScore: int, llm: Option<UwDecision>)
    requires !HasInputs(s)
    ensures HandleUnderwriting(s, bureauScore, llm) == Underwritten(s, NeedInputsReply, false)
  {
  }

  /** The credit score is fetched only when none is stored: a stored score is
      kept and the bureau's answer then makes no difference. */
  lemma {:induction false} ScoreIsCached(s: Session, b1: int, b2: int, llm: Option<UwDecision>)
    requires HasInputs(s)
    ensures HandleUnderwriting(s, b1, llm).session.creditScore == (if s.creditScore.Some? then s.creditScore else Some(b1))
    ensures s.creditScore.Some? ==> HandleUnderwriting(s, b1, llm) == HandleUnderwriting(s, b2, llm)
  {
  }

  /** The debt-to-income ratio is the instalment over the income, rounded to
      four places, and is stored only for a non-zero income. */
  lemma {:induction false} DtiOnlyWithIncome(s: Session, bureauScore: int, llm: Option<UwDecision>)
    requires HasInputs(s)
    ensures var r := HandleUnderwriting(s, bureauScore, llm).session;
      (RealTruthy(s.monthlyIncome) ==> r.dtiRatio == Some(RoundTo(SessionEmi(s) / s.monthlyIncome.value, 4)))
      && (!RealTruthy(s.monthlyIncome) ==> r.dtiRatio == s.dtiRatio)
  {
  }

  /** A failed model call changes no status: nothing is approved without a
      decision. */
  lemma {:induction false} NoDecisionNoStatus(s: Session, bureauScore: int)
    ensures var r := HandleUnderwriting(s, bureauScore, None);
      r.session.applicationStatus == s.applicationStatus && r.session.rejectionReason == s.rejectionReason
      && !r.requiresUpload
  {
  }

  /** The decision mapping, including the upload request when documents are
      wanted and no salary slip is on file; an unknown decision keeps the
      status. */
  lemma {:induction false} DecisionMapping(s: Session, bureauScore: int, d: UwDecision)
    requires HasInputs(s)
    ensures var r := HandleUnderwriting(s, bureauScore, Some(d));
      (IsText(d.decision, "approved") ==> r.session.applicationStatus == "approved")
      && (IsText(d.decision, "rejected") ==>
            r.session.applicationStatus == "rejected"
            && r.session.rejectionReason == Some(CoerceStr(d.rejectionReason).GetOr(DefaultRejection)))
      && (IsText(d.decision, "manual_review") ==> r.session.applicationStatus == "manual_review")
      && (IsText(d.decision, "needs_documents") && s.salarySlipUploaded ==>
            r.session.applicationStatus == "manual_review" && !r.requiresUpload)
      && (IsText(d.decision, "needs_documents") && !s.salarySlipUploaded ==>
            r.session.applicationStatus == "in_progress" && r.requiresUpload)
      && ((!IsText(d.decision, "approved") && !IsText(d.decision, "rejected") && !IsText(d.decision, "manual_review")
           && !IsText(d.decision, "needs_documents")) ==> r.session.applicationStatus == s.applicationStatus)
  {
  }

  /** Only an "approved" decision approves, and an upload is requested only
      for "needs_documents" without a salary slip. */
  lemma {:induction false} ApprovalNeedsDecision(s: Session, bureauScore: int, llm: Option<UwDecision>)
    ensures var r := HandleUnderwriting(s, bureauScore, llm);
      (r.session.applicationStatus == "approved" && s.applicationStatus != "approved" ==>
         llm.Some? && IsText(llm.value.decision, "approved"))
      && (r.requiresUpload <==>
         HasInputs(s) && llm.Some? && IsText(llm.value.decision, "needs_documents") && !s.salarySlipUploaded)
  {
    if HasInputs(s) && llm.Some? {
      var u := StoreDti(CacheScore(s, bureauScore));
      assert u.applicationStatus == s.applicationStatus && u.salarySlipUploaded == s.salarySlipUploaded;
    }
  }

  /** Every path of the handler answers with a non-empty reply: the model's
      reply only when it is non-blank, a fixed text otherwise. */
  lemma {:induction false} ReplyNeverEmpty(s: Session, bureauScore: int, llm: Option<UwDecision>)
    ensures HandleUnderwriting(s, bureauScore, llm).reply != ""
  {
  }

  /** The handler writes only the score, ratio, status and reason. */
  lemma {:induction false} UnderwritingFrame(s: Session, bureauScore: int, llm: Option<UwDecision>)
    ensures OnlyUnderwritingFields(s, HandleUnderwriting(s, bureauScore, llm).session)
  {
    if HasInputs(s) {
      var c := CacheScore(s, bureauScore);
      var u := StoreDti(c);
      assert OnlyUnderwritingFields(s, u) by {
        CacheScoreFrame(s, bureauScore);
        StoreDtiFrame(c);
        StepsKeepFrame(s, c, u);
      }
      match llm
      case None =>
        assert HandleUnderwriting(s, bureauScore, llm).session == u;
      case Some(d) =>
        var v := Decide(u, d.decision, CoerceStr(d.rejectionReason));
        assert OnlyUnderwritingFields(s, v) by {
          DecideFrame(u, d.decision, CoerceStr(d.rejectionReason));
          StepsKeepFrame(s, u, v);
        }
        assert HandleUnderwriting(s, bureauScore, llm).session == v;
    }
  }

  lemma {:induction false} CacheScoreFrame(s: Session, bureauScore: int)
    ensures OnlyUnderwritingFields(s, CacheScore(s, bureauScore))
  {
  }

  lemma {:induction false} StoreDtiFrame(s: Session)
    requires HasInputs(s)
    ensures OnlyUnderwritingFields(s, StoreDti(s))
  {
  }

  lemma {:induction false} DecideFrame(u: Session, decision: Json, reason: Option<string>)
    ensures OnlyUnderwritingFields(u, Decide(u, decision, reason))
  {
  }

  /** Two steps that each write only the underwriting fields write only those. */
  lemma {:induction false} StepsKeepFrame(s: Session, t: Session, r: Session)
    requires OnlyUnderwritingFields(s, t) && OnlyUnderwritingFields(t, r)
    ensures OnlyUnderwritingFields(s, r)
  {
    assert r.(creditScore := t.creditScore, dtiRatio := t.dtiRatio,
              applicationStatus := t.applicationStatus, rejectionReason := t.rejectionReason) == t;
  }

  /** `r` differs from `s` at most in the score, ratio, status and reason. */
  predicate OnlyUnderwritingFields(s: Session, r: Session) {
    r.(creditScore := s.creditScore, dtiRatio := s.dtiRatio,
       applicationStatus := s.applicationStatus, rejectionReason := s.rejectionReason) == s
  }

  // ------------------------------------------------------------ in place

  /** The cached score and the ratio written to the record. */
  method PrepareInPlace(session: SessionState, bureauScore: int)
    requires HasInputs(session.Snapshot())
    modifies session`creditScore, session`dtiRatio
    ensures session.Snapshot() == StoreDti(CacheScore(old(session.Snapshot()), bureauScore))
  {
    if session.creditScore == None {
      session.creditScore := Some(bureauScore);
    }
    var emi := Emi.CalculateEmi(session.requestedAmount.value, session.interestRate, session.tenureMonths.value);
    if RealTruthy(session.monthlyIncome) {
      session.dtiRatio := Some(RoundTo(emi / session.monthlyIncome.value, 4));
    }
  }

  /** The decision's status and reason written to the record. */
  method DecideInPlace(session: SessionState, decision: Json, reason: Option<string>)
    modifies session`applicationStatus, session`rejectionReason
    ensures session.Snapshot() == Decide(old(session.Snapshot()), decision, reason)
  {
    if IsText(decision, "approved") {
      session.applicationStatus := "approved";
    } else if IsText(decision, "rejected") {
      session.applicationStatus := "rejected";
      session.rejectionReason := Some(reason.GetOr(DefaultRejection));
    } else if IsText(decision, "manual_review") {
      session.applicationStatus := "manual_review";
    } else if IsText(decision, "needs_documents") {
      session.applicationStatus := if session.salarySlipUploaded then "manual_review" else "in_progress";
    }
  }

  /** `handle_underwriting` on the session record. */
  method HandleUnderwritingInPlace(session: SessionState, bureauScore: int, llm: Option<UwDecision>)
    returns (reply: string, requiresUpload: bool)
    modifies session`creditScore, session`dtiRatio, session`applicationStatus, session`rejectionReason
    ensures Underwritten(session.Snapshot(), reply, requiresUpload)
         == HandleUnderwriting(old(session.Snapshot()), bureauScore, llm)
  {
    if session.monthlyIncome == None || session.requestedAmount == None || session.tenureMonths == None {
      return NeedInputsReply, false;
    }
    PrepareInPlace(session, bureauScore);
    if llm.None? {
      return UnavailableReply, false;
    }
    var d := llm.value;
    requiresUpload := AsksUpload(session.Snapshot(), d.decision);
    DecideInPlace(session, d.decision, CoerceStr(d.rejectionReason));
    reply := UwReply(session.Snapshot(), d.reply, requiresUpload);
  }
}
