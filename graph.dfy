/** The graph state of backend/app/models/state.py (`AgentState`) and the way
    a node's returned update is merged into it: messages are appended, every
    other key present in the update replaces the stored value, and a key the
    update lacks keeps its value. */
module Graph {
  import opened Wrappers
  import opened LoanState
  import opened SanctionService

  datatype Stage = Discovery | Consultation | Verification | Underwriting | Closure | Rejected

  datatype Status = Approved | Rejected | ManualReview | InProgress | AwaitingDocuments

  /** The interrupt payloads the nodes raise: `otp_required` (fields
      ["mobile"]), `kyc_consent` (fields ["kyc_consent"]) and
      `document_upload` with the documents still required. */
  datatype Interrupt = OtpRequired | KycConsent | DocumentUpload(requiredDocuments: seq<string>)

  /** The stored state. A key the state may lack is an `Option`. */
  datatype AgentState = AgentState(
    messages: seq<Message>,
    loanData: LoanData,
    nextStep: Option<string>,
    dialogueStage: Option<Stage>,
    toolCalls: seq<ToolCall>,
    plan: seq<string>,
    currentGoal: Option<string>,
    interruptSignal: Option<Interrupt>,
    reflectionCount: int,
    maxReflections: Option<int>,
    underwritingReasoning: Option<string>,
    underwritingDecision: Option<string>,
    underwritingConfidence: Option<real>,
    applicationStatus: Option<Status>,
    rejectionReason: Option<string>,
    sanctionLetter: Option<SanctionLetter>,
    threadId: Option<string>)

  /** What a node returns. `messages` are appended; every other field is a
      key that is either absent (`None`) or replaces the stored value. No
      node writes `reflection_count`, and none writes a null interrupt. */
  datatype NodeUpdate = NodeUpdate(
    messages: seq<Message>,
    loanData: Option<LoanData>,
    nextStep: Option<string>,
    dialogueStage: Option<Stage>,
    plan: Option<seq<string>>,
    currentGoal: Option<string>,
    toolCalls: Option<seq<ToolCall>>,
    interruptSignal: Option<Interrupt>,
    applicationStatus: Option<Status>,
    rejectionReason: Option<string>,
    sanctionLetter: Option<SanctionLetter>,
    underwritingReasoning: Option<string>,
    underwritingDecision: Option<string>,
    underwritingConfidence: Option<real>)

  /** An update carrying only messages. */
  function MessagesOnly(messages: seq<Message>): (u: NodeUpdate)
    ensures u.messages == messages
    ensures u.loanData.None? && u.nextStep.None? && u.interruptSignal.None? && u.applicationStatus.None?
  {
    NodeUpdate(messages, None, None, None, None, None, None, None, None, None, None, None, None, None)
  }

  function Overwrite<T>(stored: T, update: Option<T>): T {
    if update.Some? then update.value else stored
  }

  function OverwriteOpt<T>(stored: Option<T>, update: Option<T>): Option<T> {
    if update.Some? then update else stored
  }

  /** The merge of a node's update into the state. */
  function ApplyUpdate(s: AgentState, u: NodeUpdate): (t: AgentState)
    ensures t.messages == s.messages + u.messages
    ensures t.reflectionCount == s.reflectionCount && t.maxReflections == s.maxReflections
    ensures t.threadId == s.threadId
    ensures u.interruptSignal.None? ==> t.interruptSignal == s.interruptSignal
    ensures u.interruptSignal.Some? ==> t.interruptSignal == u.interruptSignal
    ensures u.nextStep.Some? ==> t.nextStep == u.nextStep
    ensures u.nextStep.None? ==> t.nextStep == s.nextStep
    ensures u.applicationStatus.None? ==> t.applicationStatus == s.applicationStatus
    ensures u.applicationStatus.Some? ==> t.applicationStatus == u.applicationStatus
  {
    AgentState(
      s.messages + u.messages,
      Overwrite(s.loanData, u.loanData),
      OverwriteOpt(s.nextStep, u.nextStep),
      OverwriteOpt(s.dialogueStage, u.dialogueStage),
      Overwrite(s.toolCalls, u.toolCalls),
      Overwrite(s.plan, u.plan),
      OverwriteOpt(s.currentGoal, u.currentGoal),
      OverwriteOpt(s.interruptSignal, u.interruptSignal),
      s.reflectionCount,
      s.maxReflections,
      OverwriteOpt(s.underwritingReasoning, u.underwritingReasoning),
      OverwriteOpt(s.underwritingDecision, u.underwritingDecision),
      OverwriteOpt(s.underwritingConfidence, u.underwritingConfidence),
      OverwriteOpt(s.applicationStatus, u.applicationStatus),
      OverwriteOpt(s.rejectionReason, u.rejectionReason),
      OverwriteOpt(s.sanctionLetter, u.sanctionLetter),
      s.threadId)
  }

  /** The `reflection_count` reducer `lambda x, y: x + 1`: it adds one
      whatever value an update writes. */
  function ReflectionReducer(stored: int, written: int): (r: int)
    ensures r == stored + 1
  {
    stored + 1
  }

  /** Once raised, an interrupt stays in the state through any sequence of
      node updates: no node clears it. */
  lemma {:induction false} InterruptNeverCleared(s: AgentState, us: seq<NodeUpdate>)
    requires s.interruptSignal.Some?
    ensures ApplyAll(s, us).interruptSignal.Some?
    decreases |us|
  {
    if us != [] {
      InterruptNeverCleared(ApplyUpdate(s, us[0]), us[1..]);
    }
  }

  /** Since no node writes `reflection_count`, its reducer never runs and the
      count never moves from its stored value. */
  lemma {:induction false} ReflectionCountFrozen(s: AgentState, us: seq<NodeUpdate>)
    ensures ApplyAll(s, us).reflectionCount == s.reflectionCount
    decreases |us|
  {
    if us != [] {
      ReflectionCountFrozen(ApplyUpdate(s, us[0]), us[1..]);
    }
  }

  /** Messages only ever grow: the stored conversation stays a prefix. */
  lemma {:induction false} MessagesOnlyGrow(s: AgentState, us: seq<NodeUpdate>)
    ensures |s.messages| <= |ApplyAll(s, us).messages|
    ensures ApplyAll(s, us).messages[..|s.messages|] == s.messages
    decreases |us|
  {
    if us != [] {
      var t := ApplyUpdate(s, us[0]);
      MessagesOnlyGrow(t, us[1..]);
      assert t.messages[..|s.messages|] == s.messages;
    }
  }

  /** The state after a sequence of updates. */
  function ApplyAll(s: AgentState, us: seq<NodeUpdate>): AgentState
    decreases |us|
  {
    if us == [] then s else ApplyAll(ApplyUpdate(s, us[0]), us[1..])
  }
}
