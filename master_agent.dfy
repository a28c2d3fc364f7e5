/** The legacy stage dispatcher of backend/app/agents/master_agent.py. One
    turn strips the message, answers a closed application with a fixed reply,
    records the message, runs the handler of the session's stage (verification
    may run underwriting in the same turn) and stores the session. Every
    outside answer a turn may need, and the clock, are gathered in `Oracles`. */
module MasterAgent {
  import opened Wrappers
  import opened Strings
  import opened SessionStore
  import SalesAgent
  import VerificationAgent
  import UnderwritingAgent
  import SanctionAgent
  import SanctionService
  import Neo4j

  /** The response keys the dispatcher itself sets; the handlers' diagnostic
      keys are not modelled. `rejectionReason` is `Some(r)` when the key is
      present, with `r` the session's possibly null reason. */
  datatype Meta = Meta(requiresUpload: bool, applicationStatus: Option<string>,
                       rejectionReason: Option<Option<string>>,
                       sanctionLetter: Option<SanctionService.SanctionLetter>)

  const NoMeta: Meta := Meta(false, None, None, None)

  /** `AgentResponse(text, meta)`. */
  datatype AgentResponse = AgentResponse(text: string, meta: Meta)

  /** What the outside world answers during one turn. */
  datatype Oracles = Oracles(
    sales: Option<SalesAgent.SalesReply>, extraction: Option<VerificationAgent.Extraction>,
    network: Neo4j.NetworkReport, verification: Option<VerificationAgent.Decision>,
    bureauScore: int, underwriting: Option<UnderwritingAgent.UwDecision>,
    now: int, uuidHex: string, documentHash: string)

  /** The session a turn leaves, its response, and whether it stored the
      session with `update_session`. */
  datatype Turn = Turn(session: Session, response: AgentResponse, stored: bool)

  const ApprovedText: string := "You are already approved. Would you like me to resend your sanction letter?"
  const ReviewText: string := "Your application is under manual review. We will update you shortly."
  const ClosedPrefix: string := "Your application is already closed. Reason: "
  const AwaitingSalaryText: string := "Please upload your salary slip to proceed with the approval."
  const GenericText: string := "Lets continue. Could you share the required details to proceed?"

  /** Python's `str()` of an optional string inside an f-string. */
  function PyStr(o: Option<string>): string {
    if o.Some? then o.value else "None"
  }

  /** The fixed reply for a closed application. */
  function TerminalReply(s: Session): string {
    if s.applicationStatus == "approved" then ApprovedText
    else if s.applicationStatus == "manual_review" then ReviewText
    else ClosedPrefix + PyStr(s.rejectionReason)
  }

  /** A non-empty reply appended to the history, then `update_session`'s touch. */
  function Record(s: Session, reply: string, now: int): Session {
    (if reply != "" then s.(history := s.history + [Entry(Assistant, reply)]) else s).(lastUpdatedAt := now)
  }

  /** The keys set after underwriting: the status and a sanction letter on
      approval, the status and reason on rejection. */
  function OutcomeMeta(t: Session, requiresUpload: bool, o: Oracles): Meta
    requires |o.uuidHex| >= 8
  {
    Meta(requiresUpload,
         if t.applicationStatus == "approved" then Some("approved")
         else if t.applicationStatus == "rejected" then Some("rejected") else None,
         if t.applicationStatus == "rejected" then Some(t.rejectionReason) else None,
         if t.applicationStatus == "approved"
         then Some(SanctionAgent.GenerateSanctionLetter(t, o.now, o.uuidHex, o.documentHash)) else None)
  }

  /** Underwriting and what follows it; `parkOnUpload` says whether an upload
      request moves the stage to awaiting_salary (it does not after a slip
      arrived). */
  function UnderwritingTurn(s: Session, o: Oracles, parkOnUpload: bool): Turn
    requires |o.uuidHex| >= 8
  {
    var u := UnderwritingAgent.HandleUnderwriting(s, o.bureauScore, o.underwriting);
    var t := if parkOnUpload && u.requiresUpload then u.session.(stage := "awaiting_salary") else u.session;
    Turn(Record(t, u.reply, o.now), AgentResponse(u.reply, OutcomeMeta(t, u.requiresUpload, o)), true)
  }

  /** The verification stage: a rejection returns at once, a move to
      underwriting runs underwriting in the same turn. */
  function VerificationTurn(s: Session, m: string, o: Oracles): Turn
    requires |o.uuidHex| >= 8
  {
    var h := VerificationAgent.HandleVerification(s, m, o.extraction, o.network, o.verification);
    if h.session.applicationStatus == "rejected" then
      Turn(Record(h.session, h.reply, o.now),
           AgentResponse(h.reply, NoMeta.(applicationStatus := Some("rejected"), rejectionReason := Some(h.session.rejectionReason))),
           true)
    else if h.session.stage == "underwriting" then UnderwritingTurn(h.session, o, true)
    else Turn(Record(h.session, h.reply, o.now), AgentResponse(h.reply, NoMeta), true)
  }

  /** The handler of the session's stage, after the message was recorded. */
  function Dispatch(s: Session, m: string, o: Oracles): Turn
    requires |o.uuidHex| >= 8
  {
    if s.stage == "sales" then
      var h := SalesAgent.HandleSales(s, m, o.sales);
      Turn(Record(h.session, h.reply, o.now), AgentResponse(h.reply, NoMeta), true)
    else if s.stage == "verification" then VerificationTurn(s, m, o)
    else if s.stage == "underwriting" then UnderwritingTurn(s, o, true)
    else if s.stage == "awaiting_salary" then
      if s.salarySlipUploaded then UnderwritingTurn(s.(stage := "underwriting"), o, false)
      else Turn(Record(s, AwaitingSalaryText, o.now), AgentResponse(AwaitingSalaryText, NoMeta.(requiresUpload := true)), true)
    else Turn(s, AgentResponse(GenericText, NoMeta), false)
  }

  /** The session with the stripped message recorded when it is non-empty. */
  function WithUserMessage(s: Session, m: string): Session {
    if m != "" then s.(history := s.history + [Entry(User, m)]) else s
  }

  /** `MasterAgent.handle_message(session, message, ...)`. */
  function HandleMessageSpec(s: Session, message: string, o: Oracles): Turn
    requires |o.uuidHex| >= 8
  {
    if IsTerminal(s.applicationStatus) then Turn(s, AgentResponse(TerminalReply(s), NoMeta), false)
    else Dispatch(WithUserMessage(s, Strip(message)), Strip(message), o)
  }

  // ------------------------------------------------------------ properties

  /** A closed application gets its fixed reply: nothing is recorded, no
      handler runs and the session is not stored. */
  lemma {:induction false} ClosedApplicationShortCircuits(s: Session, message: string, o: Oracles)
    requires |o.uuidHex| >= 8 && IsTerminal(s.applicationStatus)
    ensures var t := HandleMessageSpec(s, message, o);
      t.session == s && !t.stored && t.response.meta == NoMeta
      && (s.applicationStatus == "approved" ==> t.response.text == ApprovedText)
      && (s.applicationStatus == "manual_review" ==> t.response.text == ReviewText)
      && (s.applicationStatus == "rejected" ==> t.response.text == ClosedPrefix + PyStr(s.rejectionReason))
  {
  }

  /** Underwriting and its bookkeeping only append to the history. */
  lemma {:induction false} UnderwritingTurnAppendsOnly(s: Session, o: Oracles, parkOnUpload: bool)
    requires |o.uuidHex| >= 8
    ensures s.history <= UnderwritingTurn(s, o, parkOnUpload).session.history
  {
    UnderwritingAgent.UnderwritingFrame(s, o.bureauScore, o.underwriting);
  }

  /** The verification turn, underwriting included, only appends to the history. */
  lemma {:induction false} VerificationTurnAppendsOnly(s: Session, m: string, o: Oracles)
    requires |o.uuidHex| >= 8
    ensures s.history <= VerificationTurn(s, m, o).session.history
  {
    VerificationAgent.VerificationFrame(s, m, o.extraction, o.network, o.verification);
    var h := VerificationAgent.HandleVerification(s, m, o.extraction, o.network, o.verification);
    if h.session.applicationStatus != "rejected" && h.session.stage == "underwriting" {
      UnderwritingTurnAppendsOnly(h.session, o, true);
    }
  }

  /** The handlers leave the history alone, so a turn only appends to it. */
  lemma {:induction false} DispatchAppendsOnly(s: Session, m: string, o: Oracles)
    requires |o.uuidHex| >= 8
    ensures s.history <= Dispatch(s, m, o).session.history
  {
    if s.stage == "sales" {
      SalesAgent.SalesFrame(s, m, o.sales);
    } else if s.stage == "verification" {
      VerificationTurnAppendsOnly(s, m, o);
    } else if s.stage == "underwriting" {
      UnderwritingTurnAppendsOnly(s, o, true);
    } else if s.stage == "awaiting_salary" && s.salarySlipUploaded {
      UnderwritingTurnAppendsOnly(s.(stage := "underwriting"), o, false);
    }
  }

  /** On an open application a non-empty stripped message is recorded as a
      user entry before anything the handlers add. */
  lemma {:induction false} UserMessageRecorded(s: Session, message: string, o: Oracles)
    requires |o.uuidHex| >= 8 && !IsTerminal(s.applicationStatus)
    ensures var h := HandleMessageSpec(s, message, o).session.history;
      (Strip(message) != "" ==> s.history + [Entry(User, Strip(message))] <= h)
      && s.history <= h
  {
    var m := Strip(message);
    DispatchAppendsOnly(WithUserMessage(s, m), m, o);
  }

  /** A rejection in verification ends the turn: underwriting does not run,
      so its answers make no difference, and the response carries the
      rejection and its reason. */
  lemma {:induction false} VerificationRejectionEndsTurn(s: Session, m: string, o: Oracles,
                                                         bureauScore: int, underwriting: Option<UnderwritingAgent.UwDecision>)
    requires |o.uuidHex| >= 8 && s.stage == "verification"
    requires VerificationAgent.HandleVerification(s, m, o.extraction, o.network, o.verification).session.applicationStatus == "rejected"
    ensures Dispatch(s, m, o) == Dispatch(s, m, o.(bureauScore := bureauScore, underwriting := underwriting))
    ensures var t := Dispatch(s, m, o);
      t.response.meta.applicationStatus == Some("rejected")
      && t.response.meta.rejectionReason == Some(t.session.rejectionReason)
      && t.session.applicationStatus == "rejected"
  {
  }

  /** When verification moves on, underwriting runs in the same turn: with
      income, amount and tenure known, the turn ends with a credit score on
      file. */
  lemma {:induction false} UnderwritingFollowsVerification(s: Session, m: string, o: Oracles)
    requires |o.uuidHex| >= 8 && s.stage == "verification" && s.applicationStatus == "in_progress"
    requires VerificationAgent.HandleVerification(s, m, o.extraction, o.network, o.verification).session.stage == "underwriting"
    requires UnderwritingAgent.HasInputs(s)
    ensures Dispatch(s, m, o).session.creditScore.Some?
  {
    var h := VerificationAgent.HandleVerification(s, m, o.extraction, o.network, o.verification);
    VerificationAgent.VerificationFrame(s, m, o.extraction, o.network, o.verification);
    assert h.session.applicationStatus != "rejected";
    assert UnderwritingAgent.HasInputs(h.session);
    UnderwritingTurnScores(h.session, o, true);
    assert Dispatch(s, m, o) == UnderwritingTurn(h.session, o, true);
  }

  lemma {:induction false} UnderwritingTurnScores(s: Session, o: Oracles, parkOnUpload: bool)
    requires |o.uuidHex| >= 8 && UnderwritingAgent.HasInputs(s)
    ensures UnderwritingTurn(s, o, parkOnUpload).session.creditScore.Some?
  {
    UnderwritingAgent.ScoreIsCached(s, o.bureauScore, o.bureauScore, o.underwriting);
  }

  /** A response that asks for an upload leaves the session awaiting the
      salary slip. */
  lemma {:induction false} UploadRequestParks(s: Session, m: string, o: Oracles)
    requires |o.uuidHex| >= 8
    ensures Dispatch(s, m, o).response.meta.requiresUpload ==> Dispatch(s, m, o).session.stage == "awaiting_salary"
  {
    if s.stage == "awaiting_salary" && s.salarySlipUploaded {
      var t := s.(stage := "underwriting");
      UnderwritingAgent.ApprovalNeedsDecision(t, o.bureauScore, o.underwriting);
    }
  }

  /** Awaiting the salary slip without one: a fixed prompt asking for the
      upload; with one, underwriting runs again from the underwriting stage. */
  lemma {:induction false} AwaitingSalary(s: Session, m: string, o: Oracles)
    requires |o.uuidHex| >= 8 && s.stage == "awaiting_salary"
    ensures !s.salarySlipUploaded ==>
      var t := Dispatch(s, m, o);
      t.response == AgentResponse(AwaitingSalaryText, NoMeta.(requiresUpload := true))
      && t.session.applicationStatus == s.applicationStatus && t.stored
      && t.session.history == s.history + [Entry(Assistant, AwaitingSalaryText)]
    ensures s.salarySlipUploaded ==>
      Dispatch(s, m, o).session.creditScore.Some? || !UnderwritingAgent.HasInputs(s)
  {
    if s.salarySlipUploaded && UnderwritingAgent.HasInputs(s) {
      var t := s.(stage := "underwriting");
      assert UnderwritingAgent.HasInputs(t);
      UnderwritingAgent.ScoreIsCached(t, o.bureauScore, o.bureauScore, o.underwriting);
      UnderwritingAgent.UnderwritingFrame(t, o.bureauScore, o.underwriting);
    }
  }

  /** After underwriting the response carries a sanction letter exactly
      when the session ends approved, and it is the letter of that session. */
  lemma {:induction false} UnderwritingTurnLetter(s: Session, o: Oracles, parkOnUpload: bool)
    requires |o.uuidHex| >= 8
    ensures var t := UnderwritingTurn(s, o, parkOnUpload);
      (t.response.meta.sanctionLetter.Some? <==> t.session.applicationStatus == "approved")
      && (t.response.meta.sanctionLetter.Some? ==>
            t.response.meta.sanctionLetter.value == SanctionAgent.GenerateSanctionLetter(t.session, o.now, o.uuidHex, o.documentHash))
  {
    var u := UnderwritingAgent.HandleUnderwriting(s, o.bureauScore, o.underwriting);
    var t := if parkOnUpload && u.requiresUpload then u.session.(stage := "awaiting_salary") else u.session;
    assert SanctionAgent.GenerateSanctionLetter(Record(t, u.reply, o.now), o.now, o.uuidHex, o.documentHash)
        == SanctionAgent.GenerateSanctionLetter(t, o.now, o.uuidHex, o.documentHash);
  }

  /** The same for the verification turn of an open application. */
  lemma {:induction false} VerificationTurnLetter(s: Session, m: string, o: Oracles)
    requires |o.uuidHex| >= 8 && !IsTerminal(s.applicationStatus)
    ensures var t := VerificationTurn(s, m, o);
      (t.response.meta.sanctionLetter.Some? <==> t.session.applicationStatus == "approved")
      && (t.response.meta.sanctionLetter.Some? ==>
            t.response.meta.sanctionLetter.value == SanctionAgent.GenerateSanctionLetter(t.session, o.now, o.uuidHex, o.documentHash))
  {
    VerificationAgent.VerificationFrame(s, m, o.extraction, o.network, o.verification);
    var h := VerificationAgent.HandleVerification(s, m, o.extraction, o.network, o.verification);
    if h.session.applicationStatus != "rejected" && h.session.stage == "underwriting" {
      UnderwritingTurnLetter(h.session, o, true);
    }
  }

  /** On an open application the response carries a sanction letter exactly
      when the turn ends approved, and it is the letter of that session. */
  lemma {:induction false} LetterExactlyOnApproval(s: Session, m: string, o: Oracles)
    requires |o.uuidHex| >= 8 && !IsTerminal(s.applicationStatus)
    ensures var t := Dispatch(s, m, o);
      (t.response.meta.sanctionLetter.Some? <==> t.session.applicationStatus == "approved")
      && (t.response.meta.sanctionLetter.Some? ==>
            t.response.meta.sanctionLetter.value == SanctionAgent.GenerateSanctionLetter(t.session, o.now, o.uuidHex, o.documentHash))
  {
    if s.stage == "sales" {
      SalesAgent.SalesFrame(s, m, o.sales);
    } else if s.stage == "verification" {
      VerificationTurnLetter(s, m, o);
    } else if s.stage == "underwriting" {
      UnderwritingTurnLetter(s, o, true);
    } else if s.stage == "awaiting_salary" && s.salarySlipUploaded {
      UnderwritingTurnLetter(s.(stage := "underwriting"), o, false);
    }
  }

  /** An unknown stage gets the generic reply and is not stored. */
  lemma {:induction false} UnknownStageNotStored(s: Session, m: string, o: Oracles)
    requires |o.uuidHex| >= 8
    requires s.stage != "sales" && s.stage != "verification" && s.stage != "underwriting" && s.stage != "awaiting_salary"
    ensures Dispatch(s, m, o) == Turn(s, AgentResponse(GenericText, NoMeta), false)
  {
  }

  // ------------------------------------------------------------ as written

  /** How `handle_message` ends as written. The dataclass at
      session_store.py:6-34 declares no `history`, so every read or append
      of `session.history` raises AttributeError, which no handler catches.
      `left` is the record as the exception leaves it: the store holds the
      same object, so what a handler changed before the raise stays, while
      nothing is recorded and `update_session` is not reached. */
  datatype AsWritten = Returned(turn: Turn) | HistoryAttributeError(left: Session)

  /** Underwriting as written: the append of a non-empty reply raises. */
  function UnderwritingTurnAsWritten(s: Session, o: Oracles, parkOnUpload: bool): AsWritten
    requires |o.uuidHex| >= 8
  {
    var u := UnderwritingAgent.HandleUnderwriting(s, o.bureauScore, o.underwriting);
    var t := if parkOnUpload && u.requiresUpload then u.session.(stage := "awaiting_salary") else u.session;
    if u.reply != "" then HistoryAttributeError(t)
    else Returned(Turn(Record(t, u.reply, o.now), AgentResponse(u.reply, OutcomeMeta(t, u.requiresUpload, o)), true))
  }

  /** `handle_message` on the dataclass as declared: the user message's
      append (master_agent.py:47), `handle_sales`'s read (sales_agent.py:71),
      `_extract_inputs_with_llm`'s read (verification_agent.py:19) and the
      stages' own appends (master_agent.py:102, 119, 123) all raise. */
  function HandleMessageAsWritten(s: Session, message: string, o: Oracles): AsWritten
    requires |o.uuidHex| >= 8
  {
    var m := Strip(message);
    if IsTerminal(s.applicationStatus) then Returned(Turn(s, AgentResponse(TerminalReply(s), NoMeta), false))
    else if m != "" then HistoryAttributeError(s)
    else if s.stage == "sales" || s.stage == "verification" then HistoryAttributeError(s)
    else if s.stage == "underwriting" then UnderwritingTurnAsWritten(s, o, true)
    else if s.stage == "awaiting_salary" then
      if s.salarySlipUploaded then UnderwritingTurnAsWritten(s.(stage := "underwriting"), o, false)
      else HistoryAttributeError(s)
    else Returned(Turn(s, AgentResponse(GenericText, NoMeta), false))
  }

  /** As written, a turn on an open application returns only for an empty
      message in an unknown stage; every other turn raises. */
  lemma {:induction false} AsWrittenOpenTurnRaises(s: Session, message: string, o: Oracles)
    requires |o.uuidHex| >= 8 && !IsTerminal(s.applicationStatus)
    ensures HandleMessageAsWritten(s, message, o).Returned? <==>
      Strip(message) == "" && s.stage != "sales" && s.stage != "verification"
      && s.stage != "underwriting" && s.stage != "awaiting_salary"
  {
    if Strip(message) == "" {
      if s.stage == "underwriting" {
        UnderwritingAgent.ReplyNeverEmpty(s, o.bureauScore, o.underwriting);
      } else if s.stage == "awaiting_salary" && s.salarySlipUploaded {
        UnderwritingAgent.ReplyNeverEmpty(s.(stage := "underwriting"), o.bureauScore, o.underwriting);
      }
    }
  }

  /** Where the turn as written returns, it is the corrected turn. */
  lemma {:induction false} AsWrittenReturnsAgree(s: Session, message: string, o: Oracles)
    requires |o.uuidHex| >= 8
    ensures HandleMessageAsWritten(s, message, o).Returned? ==>
      HandleMessageAsWritten(s, message, o).turn == HandleMessageSpec(s, message, o)
  {
    var m := Strip(message);
    if !IsTerminal(s.applicationStatus) && m == "" {
      assert WithUserMessage(s, m) == s;
      if s.stage == "underwriting" {
        UnderwritingAgent.ReplyNeverEmpty(s, o.bureauScore, o.underwriting);
      } else if s.stage == "awaiting_salary" && s.salarySlipUploaded {
        UnderwritingAgent.ReplyNeverEmpty(s.(stage := "underwriting"), o.bureauScore, o.underwriting);
      }
    }
  }

  /** The raise records nothing and stores nothing, yet the underwriting
      handler's changes stay on the record: the session is left as the
      corrected turn leaves it, history and update time aside, so the
      application may end approved or rejected by a turn that failed. */
  lemma {:induction false} AsWrittenRaiseKeepsDecision(s: Session, o: Oracles)
    requires |o.uuidHex| >= 8 && !IsTerminal(s.applicationStatus) && s.stage == "underwriting"
    ensures var r := HandleMessageAsWritten(s, "", o);
      r.HistoryAttributeError?
      && r.left == HandleMessageSpec(s, "", o).session.(history := s.history, lastUpdatedAt := s.lastUpdatedAt)
  {
    assert Strip("") == "";
    UnderwritingAgent.ReplyNeverEmpty(s, o.bureauScore, o.underwriting);
    UnderwritingAgent.UnderwritingFrame(s, o.bureauScore, o.underwriting);
  }

  /** A new session's first message: as written the turn raises before
      anything changes; the corrected turn records the message. */
  lemma {:induction false} AsWrittenFirstMessageFails(id: string, now: int, message: string, o: Oracles)
    requires |o.uuidHex| >= 8 && Strip(message) != ""
    ensures HandleMessageAsWritten(DefaultSession(id, now), message, o) == HistoryAttributeError(DefaultSession(id, now))
    ensures [Entry(User, Strip(message))] <= HandleMessageSpec(DefaultSession(id, now), message, o).session.history
  {
    FreshSessionIsOpen(id, now);
    UserMessageRecorded(DefaultSession(id, now), message, o);
  }

  // ------------------------------------------------------------ in place

  /** The reply recorded and the session stored. */
  method RecordInPlace(session: SessionState, store: Store, reply: string, now: int)
    requires store.Valid()
    modifies session`history, session`lastUpdatedAt, store
    ensures store.Valid() && store.sessions == old(store.sessions)[session.sessionId := session]
    ensures session.Snapshot() == Record(old(session.Snapshot()), reply, now)
  {
    if reply != "" {
      session.Append(Entry(Assistant, reply));
    }
    store.UpdateSession(session, now);
  }

  /** Underwriting and what follows it, on the session record. */
  method UnderwritingTurnInPlace(session: SessionState, store: Store, o: Oracles, parkOnUpload: bool)
    returns (r: AgentResponse)
    requires store.Valid() && |o.uuidHex| >= 8
    modifies session, store
    ensures store.Valid() && store.sessions == old(store.sessions)[session.sessionId := session]
    ensures (session.Snapshot(), r) == (UnderwritingTurn(old(session.Snapshot()), o, parkOnUpload).session,
                                        UnderwritingTurn(old(session.Snapshot()), o, parkOnUpload).response)
  {
    var reply, requiresUpload := UnderwritingAgent.HandleUnderwritingInPlace(session, o.bureauScore, o.underwriting);
    if parkOnUpload && requiresUpload {
      session.stage := "awaiting_salary";
    }
    var meta := OutcomeMeta(session.Snapshot(), requiresUpload, o);
    RecordInPlace(session, store, reply, o.now);
    r := AgentResponse(reply, meta);
  }

  /** The verification stage on the session record. */
  method VerificationTurnInPlace(session: SessionState, store: Store, m: string, o: Oracles)
    returns (r: AgentResponse)
    requires store.Valid() && |o.uuidHex| >= 8
    modifies session, store
    ensures store.Valid() && store.sessions == old(store.sessions)[session.sessionId := session]
    ensures (session.Snapshot(), r) == (VerificationTurn(old(session.Snapshot()), m, o).session,
                                        VerificationTurn(old(session.Snapshot()), m, o).response)
  {
    var reply := VerificationAgent.HandleVerificationInPlace(session, m, o.extraction, o.network, o.verification);
    if session.applicationStatus == "rejected" {
      var meta := NoMeta.(applicationStatus := Some("rejected"), rejectionReason := Some(session.rejectionReason));
      RecordInPlace(session, store, reply, o.now);
      return AgentResponse(reply, meta);
    }
    if session.stage == "underwriting" {
      r := UnderwritingTurnInPlace(session, store, o, true);
      return;
    }
    RecordInPlace(session, store, reply, o.now);
    r := AgentResponse(reply, NoMeta);
  }

  /** The handler of the session's stage, on the session record. */
  method DispatchInPlace(session: SessionState, store: Store, m: string, o: Oracles)
    returns (r: AgentResponse)
    requires store.Valid() && |o.uuidHex| >= 8
    modifies session, store
    ensures store.Valid()
    ensures var t := Dispatch(old(session.Snapshot()), m, o);
      session.Snapshot() == t.session && r == t.response
      && store.sessions == (if t.stored then old(store.sessions)[session.sessionId := session] else old(store.sessions))
  {
    if session.stage == "sales" {
      var reply := SalesAgent.HandleSalesInPlace(session, m, o.sales);
      RecordInPlace(session, store, reply, o.now);
      r := AgentResponse(reply, NoMeta);
    } else if session.stage == "verification" {
      r := VerificationTurnInPlace(session, store, m, o);
    } else if session.stage == "underwriting" {
      r := UnderwritingTurnInPlace(session, store, o, true);
    } else if session.stage == "awaiting_salary" {
      if session.salarySlipUploaded {
        session.stage := "underwriting";
        r := UnderwritingTurnInPlace(session, store, o, false);
      } else {
        RecordInPlace(session, store, AwaitingSalaryText, o.now);
        r := AgentResponse(AwaitingSalaryText, NoMeta.(requiresUpload := true));
      }
    } else {
      r := AgentResponse(GenericText, NoMeta);
    }
  }

  /** `handle_message` on the session record and the store. */
  method HandleMessage(session: SessionState, store: Store, message: string, o: Oracles)
    returns (r: AgentResponse)
    requires store.Valid() && |o.uuidHex| >= 8
    modifies session, store
    ensures store.Valid()
    ensures var t := HandleMessageSpec(old(session.Snapshot()), message, o);
      session.Snapshot() == t.session && r == t.response
      && store.sessions == (if t.stored then old(store.sessions)[session.sessionId := session] else old(store.sessions))
  {
    var m := Strip(message);
    if IsTerminal(session.applicationStatus) {
      r := AgentResponse(TerminalReply(session.Snapshot()), NoMeta);
      return;
    }
    if m != "" {
      session.Append(Entry(User, m));
    }
    r := DispatchInPlace(session, store, m, o);
  }
}
