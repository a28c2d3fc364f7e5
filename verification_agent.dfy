/** The legacy identity check of backend/app/agents/verification_agent.py. It
    takes the phone number, address and name a turn offers, asks for what is
    still missing, and otherwise scores fraud, checks KYC with the CRM and
    applies a decision: the language model's (`None` when the call raised)
    or the deterministic fallback's. The model's extraction (`None` when the
    call raised) and the fraud network's report are parameters. */
module VerificationAgent {
  import opened Wrappers
  import opened Strings
  import opened LlmJson
  import opened SessionStore
  import TextUtils
  import Neo4j
  import Fraud
  import Crm

  /** The extraction reply; an absent key reads as null. */
  datatype Extraction = Extraction(phoneNumber: Json, address: Json, fullName: Json, reply: Json)

  /** `extracted = {}` after a failed model call. */
  const NoExtraction: Extraction := Extraction(JNull, JNull, JNull, JNull)

  /** The decision reply; `rejectionReason` is a string or null. */
  datatype Decision = Decision(decision: Json, reply: Json, rejectionReason: Option<string>)

  /** The identity values a turn offers. */
  datatype Contact = Contact(phone: Option<string>, address: Option<string>, fullName: Option<string>)

  /** The extracted values, with the phone number read from the message by
      `extract_phone` when the extraction has none. */
  function ContactOf(e: Extraction, message: string): (c: Contact)
    ensures CoerceStr(e.phoneNumber).Some? ==> c.phone == CoerceStr(e.phoneNumber)
    ensures CoerceStr(e.phoneNumber).None? ==> c.phone == TextUtils.ExtractPhone(message)
    ensures c.address == CoerceStr(e.address) && c.fullName == CoerceStr(e.fullName)
  {
    var phone := CoerceStr(e.phoneNumber);
    Contact(if phone.Some? then phone else TextUtils.ExtractPhone(message),
            CoerceStr(e.address), CoerceStr(e.fullName))
  }

  /** Only non-empty values overwrite the session's. */
  function TakeContact(s: Session, c: Contact): Session
  {
    s.(phoneNumber := if StrTruthy(c.phone) then c.phone else s.phoneNumber,
       address := if StrTruthy(c.address) then c.address else s.address,
       fullName := if StrTruthy(c.fullName) then c.fullName else s.fullName)
  }

  /** The missing contact fields, phone number first. */
  function MissingContact(s: Session): (m: seq<string>)
    ensures m == [] <==> StrTruthy(s.phoneNumber) && StrTruthy(s.address)
    ensures "phone_number" in m <==> !StrTruthy(s.phoneNumber)
  {
    (if !StrTruthy(s.phoneNumber) then ["phone_number"] else [])
    + (if !StrTruthy(s.address) then ["address"] else [])
  }

  const AskPhone: string := "Please share your 10-digit mobile number for KYC."
  const AskAddress: string := "Please share your current address (street and city are enough)."
  const AskBoth: string := "Please share your mobile number and current address to continue."

  /** `_fallback_missing_prompt(missing)`. */
  function FallbackMissingPrompt(missing: seq<string>): string
  {
    if missing == ["phone_number"] then AskPhone
    else if missing == ["address"] then AskAddress
    else AskBoth
  }

  /** The three prompts match the three ways contact can be incomplete. */
  lemma {:induction false} PromptNamesWhatIsMissing(s: Session)
    requires MissingContact(s) != []
    ensures FallbackMissingPrompt(MissingContact(s)) ==
      if !StrTruthy(s.phoneNumber) && !StrTruthy(s.address) then AskBoth
      else if !StrTruthy(s.phoneNumber) then AskPhone
      else AskAddress
  {
    var m := MissingContact(s);
    if !StrTruthy(s.phoneNumber) && !StrTruthy(s.address) {
      assert |m| == 2;
    }
  }

  /** Contact incomplete: the model's reply when it is a non-empty string,
      else the fallback prompt; the expected input names the phone first. */
  function AskForContact(t: Session, e: Extraction, missing: seq<string>): Handled
  {
    var reply := if e.reply.JStr? && e.reply.s != "" then e.reply.s else FallbackMissingPrompt(missing);
    Handled(t.(expectedInput := Some(if "phone_number" in missing then "phone" else "address")), reply)
  }

  /** The fraud score and flags stored before the KYC call. */
  function RecordFraud(t: Session, fraud: Fraud.FraudReport): Session
  {
    t.(expectedInput := None, fraudRiskScore := Some(fraud.riskScore), fraudFlags := fraud.flags)
  }

  const KycFailedReason: string := "KYC verification failed."
  const HighRiskReason: string := "High fraud risk detected."
  const RiskFlagsReason: string := "Verification risk flags."
  const KycFailedReply: string := "We could not verify your KYC details. Please contact support."
  const HighRiskReply: string := "We cannot proceed due to risk signals in the verification checks."
  const ProceedReply: string := "Verification completed. Proceeding to underwriting."
  const RejectedReply: string := "We cannot proceed after verification checks."
  const ManualReviewReply: string := "Your application needs manual review. We will update you shortly."

  /** The decision without a model: KYC first, then the fraud score. */
  function FallbackDecision(u: Session, crm: Crm.KycResult, fraud: Fraud.FraudReport): Handled
  {
    if crm.status != "verified" then
      Handled(u.(applicationStatus := "rejected", rejectionReason := Some(crm.reason.GetOr(KycFailedReason))), KycFailedReply)
    else if fraud.riskScore > Fraud.RejectAbove then
      Handled(u.(applicationStatus := "rejected", rejectionReason := Some(HighRiskReason)), HighRiskReply)
    else Handled(u.(stage := "underwriting"), ProceedReply)
  }

  /** The model's decision mapped onto the session. */
  function ApplyDecision(u: Session, d: Decision): Session
  {
    if IsText(d.decision, "reject") then
      u.(applicationStatus := "rejected",
         rejectionReason := Some(if StrTruthy(d.rejectionReason) then d.rejectionReason.value else RiskFlagsReason))
    else if IsText(d.decision, "manual_review") then u.(applicationStatus := "manual_review")
    else u.(stage := "underwriting")
  }

  /** The model's reply when it is non-blank, else one by status. */
  function DecisionReply(v: Session, reply: Json): string
  {
    if IsNonBlankString(reply) then reply.s
    else if v.applicationStatus == "rejected" then RejectedReply
    else if v.applicationStatus == "manual_review" then ManualReviewReply
    else ProceedReply
  }

  /** `handle_verification(session, message, device_id, ip_address)`. */
  function HandleVerification(s: Session, message: string, ex: Option<Extraction>,
                              network: Neo4j.NetworkReport, llm: Option<Decision>): Handled
  {
    var e := ex.GetOr(NoExtraction);
    var t := TakeContact(s, ContactOf(e, message));
    var missing := MissingContact(t);
    if missing != [] then AskForContact(t, e, missing)
    else
      var fraud := Fraud.AnalyzeFraud(network);
      var u := RecordFraud(t, fraud);
      var crm := Crm.VerifyKyc(u.phoneNumber.value, u.address.value);
      match llm
      case None => FallbackDecision(u, crm, fraud)
      case Some(d) =>
        var v := ApplyDecision(u, d);
        Handled(v, DecisionReply(v, d.reply))
  }

  /** The session after the contact values of a turn. */
  function Contacted(s: Session, message: string, ex: Option<Extraction>): Session {
    TakeContact(s, ContactOf(ex.GetOr(NoExtraction), message))
  }

  /** The fields a verification turn may change, taken from `t`. */
  function WithVerificationFields(s: Session, t: Session): Session {
    s.(phoneNumber := t.phoneNumber, address := t.address, fullName := t.fullName,
       expectedInput := t.expectedInput, fraudRiskScore := t.fraudRiskScore, fraudFlags := t.fraudFlags,
       applicationStatus := t.applicationStatus, rejectionReason := t.rejectionReason, stage := t.stage)
  }

  /** Only non-empty values overwrite the contact fields; the phone number
      comes from the extraction, else from the digits of the message. */
  lemma {:induction false} ContactOnlyGrows(s: Session, message: string, ex: Option<Extraction>)
    ensures var t := Contacted(s, message, ex);
      (t.phoneNumber != s.phoneNumber ==> StrTruthy(t.phoneNumber))
      && (t.address != s.address ==> StrTruthy(t.address))
      && (t.fullName != s.fullName ==> StrTruthy(t.fullName))
      && (StrTruthy(s.phoneNumber) ==> StrTruthy(t.phoneNumber))
      && (StrTruthy(s.address) ==> StrTruthy(t.address))
      && (!IsNonBlankString(ex.GetOr(NoExtraction).phoneNumber) && TextUtils.ExtractPhone(message).Some?
          ==> t.phoneNumber == TextUtils.ExtractPhone(message))
  {
    var e := ex.GetOr(NoExtraction);
    var c := ContactOf(e, message);
    if !IsNonBlankString(e.phoneNumber) && TextUtils.ExtractPhone(message).Some? {
      assert c.phone == TextUtils.ExtractPhone(message);
      assert |c.phone.value| == 10;
    }
  }

  /** With the phone number or the address still missing, the turn asks for
      it and goes no further: neither the fraud report nor any decision
      matters, the status, stage and fraud fields are untouched, and the
      expected input is the phone when that is missing, else the address. */
  lemma {:induction false} MissingContactAsksFirst(s: Session, message: string, ex: Option<Extraction>,
                                                   n1: Neo4j.NetworkReport, n2: Neo4j.NetworkReport,
                                                   l1: Option<Decision>, l2: Option<Decision>)
    requires MissingContact(Contacted(s, message, ex)) != []
    ensures HandleVerification(s, message, ex, n1, l1) == HandleVerification(s, message, ex, n2, l2)
    ensures var r := HandleVerification(s, message, ex, n1, l1).session;
      r.applicationStatus == s.applicationStatus && r.stage == s.stage
      && r.fraudRiskScore == s.fraudRiskScore && r.fraudFlags == s.fraudFlags
      && r.expectedInput == Some(if !StrTruthy(r.phoneNumber) then "phone" else "address")
  {
  }

  /** With contact complete, the fraud score and flags are stored whatever
      is decided, and the expected input is cleared. */
  lemma {:induction false} FraudStoredBeforeDecision(s: Session, message: string, ex: Option<Extraction>,
                                                     network: Neo4j.NetworkReport, llm: Option<Decision>)
    requires MissingContact(Contacted(s, message, ex)) == []
    ensures var r := HandleVerification(s, message, ex, network, llm).session;
      r.fraudRiskScore == Some(Fraud.AnalyzeFraud(network).riskScore)
      && r.fraudFlags == Fraud.AnalyzeFraud(network).flags
      && r.expectedInput == None
  {
  }

  /** Without a model the check fails closed: a KYC status other than
      verified rejects with the CRM's reason, then a fraud score above 70
      rejects, and only otherwise does the stage move to underwriting. */
  lemma {:induction false} FallbackFailsClosed(s: Session, message: string, ex: Option<Extraction>,
                                               network: Neo4j.NetworkReport)
    requires MissingContact(Contacted(s, message, ex)) == []
    ensures var t := Contacted(s, message, ex);
      var crm := Crm.VerifyKyc(t.phoneNumber.value, t.address.value);
      var risk := Fraud.AnalyzeFraud(network).riskScore;
      var r := HandleVerification(s, message, ex, network, None).session;
      (crm.status != "verified" ==>
         r.applicationStatus == "rejected" && r.rejectionReason == Some(Crm.MismatchReason) && r.stage == s.stage)
      && (crm.status == "verified" && risk > 70 ==>
         r.applicationStatus == "rejected" && r.rejectionReason == Some(HighRiskReason) && r.stage == s.stage)
      && (crm.status == "verified" && risk <= 70 ==>
         r.stage == "underwriting" && r.applicationStatus == s.applicationStatus)
  {
  }

  /** The model's decision: "reject" rejects with its reason or a default,
      "manual_review" parks the application, anything else moves on to
      underwriting; the reply falls back to one that fits the outcome. */
  lemma {:induction false} DecisionMapping(s: Session, message: string, ex: Option<Extraction>,
                                           network: Neo4j.NetworkReport, d: Decision)
    requires MissingContact(Contacted(s, message, ex)) == []
    requires s.stage == "verification" && s.applicationStatus == "in_progress"
    ensures var r := HandleVerification(s, message, ex, network, Some(d));
      (IsText(d.decision, "reject") ==>
         r.session.applicationStatus == "rejected" && r.session.stage == s.stage
         && r.session.rejectionReason == Some(StrOr(d.rejectionReason, RiskFlagsReason)))
      && (IsText(d.decision, "manual_review") ==>
         r.session.applicationStatus == "manual_review" && r.session.stage == s.stage)
      && (!IsText(d.decision, "reject") && !IsText(d.decision, "manual_review") ==>
         r.session.stage == "underwriting" && r.session.applicationStatus == "in_progress")
      && (!IsNonBlankString(d.reply) && r.session.stage == "underwriting" ==> r.reply == ProceedReply)
  {
    var u := RecordFraud(Contacted(s, message, ex), Fraud.AnalyzeFraud(network));
    if IsText(d.decision, "reject") {
      assert d.decision != JStr("manual_review");
    }
    var v := ApplyDecision(u, d);
    if v.stage == "underwriting" {
      assert v.applicationStatus == "in_progress";
    }
  }

  /** The KYC rule is a fallback rule only: a model that answers "proceed"
      moves a failed KYC check on to underwriting. */
  lemma {:induction false} ModelCanOverrideFailedKyc(s: Session, message: string, ex: Option<Extraction>,
                                                     network: Neo4j.NetworkReport)
    requires MissingContact(Contacted(s, message, ex)) == []
    requires EndsWith(Contacted(s, message, ex).phoneNumber.value, "0000")
    ensures Crm.VerifyKyc(Contacted(s, message, ex).phoneNumber.value, Contacted(s, message, ex).address.value).status == "failed"
    ensures HandleVerification(s, message, ex, network, Some(Decision(JStr("proceed"), JNull, None))).session.stage == "underwriting"
  {
    assert JStr("proceed") != JStr("reject") && JStr("proceed") != JStr("manual_review");
  }

  /** A verification turn changes only the contact, expected-input, fraud,
      status, reason and stage fields, and its status is the old one or a
      rejection or manual review. */
  lemma {:induction false} VerificationFrame(s: Session, message: string, ex: Option<Extraction>,
                                             network: Neo4j.NetworkReport, llm: Option<Decision>)
    ensures var r := HandleVerification(s, message, ex, network, llm).session;
      WithVerificationFields(s, r) == r
      && (r.applicationStatus == s.applicationStatus || r.applicationStatus == "rejected"
          || r.applicationStatus == "manual_review")
      && (r.stage == s.stage || r.stage == "underwriting")
      && (r.stage != s.stage ==> r.applicationStatus == s.applicationStatus)
  {
    var e := ex.GetOr(NoExtraction);
    var c := ContactOf(e, message);
    var t := TakeContact(s, c);
    var missing := MissingContact(t);
    var r := HandleVerification(s, message, ex, network, llm).session;
    if missing != [] {
      assert r == AskForContact(t, e, missing).session;
      AskShape(s, c, e, missing);
    } else {
      var fraud := Fraud.AnalyzeFraud(network);
      var crm := Crm.VerifyKyc(t.phoneNumber.value, t.address.value);
      match llm
      case None =>
        assert r == FallbackDecision(RecordFraud(t, fraud), crm, fraud).session;
        FallbackShape(s, c, crm, fraud);
      case Some(d) =>
        assert r == ApplyDecision(RecordFraud(t, fraud), d);
        DecisionShape(s, c, fraud, d);
    }
  }

  /** `r` differs from `s` only in the fields a verification turn may
      change, with a status and stage it may reach; a move to underwriting
      keeps the status. */
  predicate VerificationShape(s: Session, r: Session) {
    WithVerificationFields(s, r) == r
    && (r.applicationStatus == s.applicationStatus || r.applicationStatus == "rejected"
        || r.applicationStatus == "manual_review")
    && (r.stage == s.stage || r.stage == "underwriting")
    && (r.stage != s.stage ==> r.applicationStatus == s.applicationStatus)
  }

  lemma {:induction false} AskShape(s: Session, c: Contact, e: Extraction, missing: seq<string>)
    ensures VerificationShape(s, AskForContact(TakeContact(s, c), e, missing).session)
  {
  }

  lemma {:induction false} FallbackShape(s: Session, c: Contact, crm: Crm.KycResult, fraud: Fraud.FraudReport)
    ensures VerificationShape(s, FallbackDecision(RecordFraud(TakeContact(s, c), fraud), crm, fraud).session)
  {
  }

  lemma {:induction false} DecisionShape(s: Session, c: Contact, fraud: Fraud.FraudReport, d: Decision)
    ensures VerificationShape(s, ApplyDecision(RecordFraud(TakeContact(s, c), fraud), d))
  {
  }

  // ------------------------------------------------------------ in place

  /** The contact values written to the record. */
  method TakeContactInPlace(session: SessionState, c: Contact)
    modifies session`phoneNumber, session`address, session`fullName
    ensures session.Snapshot() == TakeContact(old(session.Snapshot()), c)
  {
    if StrTruthy(c.phone) {
      session.phoneNumber := c.phone;
    }
    if StrTruthy(c.address) {
      session.address := c.address;
    }
    if StrTruthy(c.fullName) {
      session.fullName := c.fullName;
    }
  }

  /** The prompt for missing contact. */
  method AskForContactInPlace(session: SessionState, e: Extraction, missing: seq<string>) returns (reply: string)
    modifies session`expectedInput
    ensures Handled(session.Snapshot(), reply) == AskForContact(old(session.Snapshot()), e, missing)
  {
    if e.reply.JStr? && e.reply.s != "" {
      reply := e.reply.s;
    } else {
      reply := FallbackMissingPrompt(missing);
    }
    session.expectedInput := Some(if "phone_number" in missing then "phone" else "address");
  }

  /** The fraud report stored on the record. */
  method RecordFraudInPlace(session: SessionState, fraud: Fraud.FraudReport)
    modifies session`expectedInput, session`fraudRiskScore, session`fraudFlags
    ensures session.Snapshot() == RecordFraud(old(session.Snapshot()), fraud)
  {
    session.expectedInput := None;
    session.fraudRiskScore := Some(fraud.riskScore);
    session.fraudFlags := fraud.flags;
  }

  /** The fallback decision applied to the record. */
  method FallbackDecisionInPlace(session: SessionState, crm: Crm.KycResult, fraud: Fraud.FraudReport)
    returns (reply: string)
    modifies session`applicationStatus, session`rejectionReason, session`stage
    ensures Handled(session.Snapshot(), reply) == FallbackDecision(old(session.Snapshot()), crm, fraud)
  {
    if crm.status != "verified" {
      session.applicationStatus := "rejected";
      session.rejectionReason := Some(crm.reason.GetOr(KycFailedReason));
      return KycFailedReply;
    }
    if fraud.riskScore > Fraud.RejectAbove {
      session.applicationStatus := "rejected";
      session.rejectionReason := Some(HighRiskReason);
      return HighRiskReply;
    }
    session.stage := "underwriting";
    return ProceedReply;
  }

  /** The model's decision applied to the record. */
  method ApplyDecisionInPlace(session: SessionState, d: Decision)
    modifies session`applicationStatus, session`rejectionReason, session`stage
    ensures session.Snapshot() == ApplyDecision(old(session.Snapshot()), d)
  {
    if IsText(d.decision, "reject") {
      session.applicationStatus := "rejected";
      session.rejectionReason := Some(if StrTruthy(d.rejectionReason) then d.rejectionReason.value else RiskFlagsReason);
    } else if IsText(d.decision, "manual_review") {
      session.applicationStatus := "manual_review";
    } else {
      session.stage := "underwriting";
    }
  }

  /** `handle_verification` on the session record. */
  method HandleVerificationInPlace(session: SessionState, message: string, ex: Option<Extraction>,
                                   network: Neo4j.NetworkReport, llm: Option<Decision>)
    returns (reply: string)
    modifies session`phoneNumber, session`address, session`fullName, session`expectedInput,
             session`fraudRiskScore, session`fraudFlags, session`applicationStatus,
             session`rejectionReason, session`stage
    ensures Handled(session.Snapshot(), reply) == HandleVerification(old(session.Snapshot()), message, ex, network, llm)
  {
    var e := ex.GetOr(NoExtraction);
    TakeContactInPlace(session, ContactOf(e, message));
    var missing := MissingContact(session.Snapshot());
    if missing != [] {
      reply := AskForContactInPlace(session, e, missing);
      return;
    }
    var fraud := Fraud.AnalyzeFraud(network);
    RecordFraudInPlace(session, fraud);
    var crm := Crm.VerifyKyc(session.phoneNumber.value, session.address.value);
    if llm.None? {
      reply := FallbackDecisionInPlace(session, crm, fraud);
    } else {
      ApplyDecisionInPlace(session, llm.value);
      reply := DecisionReply(session.Snapshot(), llm.value.reply);
    }
  }
}
