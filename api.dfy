/** The pure parts of backend/app/main.py: the fresh state of a thread, the
    shaping of one turn's response from the states the graph streams, the
    content-type gate on uploads, the endpoint's error handling, and the
    reset of a thread's checkpoint. */
module Api {
  import opened Wrappers
  import opened Strings
  import opened LoanState
  import opened Graph
  import Workflow
  import Nodes

  const InitialGoal: string := "Initial discovery: Understand customer need"

  /** `create_initial_state(thread_id)`; the timestamps are left out. */
  function CreateInitialState(threadId: string): (s: AgentState)
    ensures s.messages == [] && s.toolCalls == [] && s.plan == []
    ensures s.loanData == DefaultLoanData()
    ensures s.nextStep == Some("sales_agent") && s.dialogueStage == Some(Discovery)
    ensures s.interruptSignal.None? && s.reflectionCount == 0 && s.maxReflections == Some(3)
    ensures s.applicationStatus == Some(InProgress) && s.rejectionReason.None? && s.sanctionLetter.None?
    ensures s.threadId == Some(threadId)
  {
    AgentState([], DefaultLoanData(), Some("sales_agent"), Some(Discovery), [], [], Some(InitialGoal),
               None, 0, Some(3), None, None, None, Some(InProgress), None, None, Some(threadId))
  }

  /** A thread seeded with the initial state (by a reset, or by the first
      turn of the corrected endpoint below) starts where the graph's entry
      point does, and no run of node updates from it ever trips the
      reflection limit. */
  lemma {:induction false} SeededThreadNeverHitsReflectionLimit(threadId: string, us: seq<NodeUpdate>)
    ensures Workflow.Route(Workflow.EntryNode, CreateInitialState(threadId).nextStep)
         == Some(Workflow.Goto(Workflow.SalesAgent))
    ensures var t := ApplyAll(CreateInitialState(threadId), us);
      Nodes.ReflectionNode(t).nextStep == Some(t.nextStep.GetOr("sales_agent"))
  {
    Nodes.ReflectionLimitNeverReached(CreateInitialState(threadId), us);
  }

  /** The first sales turn of a seeded thread finds all five loan basics missing. */
  lemma {:induction false} SeededRecordMissesAllBasics(threadId: string)
    ensures Nodes.SalesMissing(CreateInitialState(threadId).loanData)
         == [Nodes.EmploymentType, Nodes.MonthlyIncome, Nodes.RequestedAmount, Nodes.TenureMonths, Nodes.LoanPurpose]
  {
    var d := CreateInitialState(threadId).loanData;
    assert d == DefaultLoanData();
    assert !StrTruthy(d.employmentType) && !StrTruthy(d.loanPurpose);
    assert !RealTruthy(d.monthlyIncome) && !RealTruthy(d.requestedAmount) && !IntTruthy(d.tenureMonths);
  }

  // ---------------------------------------------------------------- responses

  /** The `status` of a response: "awaiting_input" when a turn stops at an
      interrupt, else the application status. */
  datatype ResponseStatus = AwaitingInput | Reported(status: Status)

  /** A response body. A key the body lacks is `None`; `sanctionLetter` and
      `rejectionReason` are keys whose value may itself be null. */
  datatype ChatResponse = ChatResponse(
    response: string,
    requiresAction: Option<Interrupt>,
    threadId: string,
    status: ResponseStatus,
    dialogueStage: Option<Stage>,
    loanData: Option<LoanData>,
    sanctionLetter: Option<Option<SanctionService.SanctionLetter>>,
    rejectionReason: Option<Option<string>>,
    documentReceived: Option<string>)

  /** A response body, or an HTTP error with its status code and detail. */
  datatype Outcome = Ok(body: ChatResponse) | HttpError(code: nat, detail: string)

  const NeedInformation: string := "I need some information..."
  const NoStateMessage: string := "No state returned from workflow"
  const NoStateAfterUpload: string := "No state returned after file processing"

  /** The content of the last message, or `default` for an empty conversation. */
  function LastContent(ms: seq<Message>, default: string): string {
    if ms == [] then default else ms[|ms| - 1].content
  }

  /** The index of the first streamed state carrying an interrupt. */
  function FirstInterrupt(events: seq<AgentState>): (k: Option<nat>)
    ensures k.Some? ==> (k.value < |events| && events[k.value].interruptSignal.Some?
                         && forall j :: 0 <= j < k.value ==> events[j].interruptSignal.None?)
    ensures k.None? ==> forall j :: 0 <= j < |events| ==> events[j].interruptSignal.None?
    decreases |events|
  {
    if events == [] then None
    else if events[0].interruptSignal.Some? then Some(0)
    else
      var rest := FirstInterrupt(events[1..]);
      assert forall j :: 0 < j < |events| ==> events[1..][j - 1] == events[j];
      if rest.Some? then Some(rest.value + 1) else None
  }

  /** The body when a streamed state carries an interrupt. */
  function InterruptResponse(threadId: string, e: AgentState, default: string): (r: ChatResponse)
    ensures r.status == AwaitingInput && r.requiresAction == e.interruptSignal
    ensures r.loanData.None? && r.sanctionLetter.None? && r.rejectionReason.None?
  {
    ChatResponse(LastContent(e.messages, default), e.interruptSignal, threadId, AwaitingInput,
                 None, None, None, None, None)
  }

  /** A stored status, or "in_progress" when the key is absent. */
  function StatusOf(e: AgentState): Status {
    e.applicationStatus.GetOr(InProgress)
  }

  predicate IsDecided(st: Status) {
    st == Approved || st == Status.Rejected || st == ManualReview
  }

  /** The body after the last state of a message turn: the record only on a
      decision, the sanction letter only on approval, the reason only on
      rejection. */
  function FinalMessageResponse(threadId: string, e: AgentState): (r: ChatResponse) {
    var st := StatusOf(e);
    ChatResponse(LastContent(e.messages, ""), None, threadId, Reported(st), e.dialogueStage,
                 if IsDecided(st) then Some(e.loanData) else None,
                 if st == Approved then Some(e.sanctionLetter) else None,
                 if st == Status.Rejected then Some(e.rejectionReason) else None,
                 None)
  }

  /** `_handle_message` over the sequence of states the graph streams. */
  function HandleMessageSpec(threadId: string, events: seq<AgentState>): Outcome {
    var k := FirstInterrupt(events);
    if k.Some? then Ok(InterruptResponse(threadId, events[k.value], NeedInformation))
    else if events == [] then HttpError(500, NoStateMessage)
    else Ok(FinalMessageResponse(threadId, events[|events| - 1]))
  }

  /** The consumption of the stream both handlers share: it stops at the
      first state carrying an interrupt, and otherwise keeps the last state. */
  method StreamStates(events: seq<AgentState>) returns (interrupted: Option<AgentState>, final: Option<AgentState>)
    ensures FirstInterrupt(events).Some? ==> interrupted == Some(events[FirstInterrupt(events).value])
    ensures FirstInterrupt(events).None? ==> interrupted.None?
    ensures FirstInterrupt(events).None? ==> final == (if events == [] then None else Some(events[|events| - 1]))
  {
    final := None;
    var i := 0;
    while i < |events|
      invariant 0 <= i <= |events|
      invariant forall j :: 0 <= j < i ==> events[j].interruptSignal.None?
      invariant final == (if i == 0 then None else Some(events[i - 1]))
    {
      final := Some(events[i]);
      if events[i].interruptSignal.Some? {
        return Some(events[i]), final;
      }
      i := i + 1;
    }
    interrupted := None;
  }

  /** The message handler, consuming the stream state by state. */
  method HandleMessage(threadId: string, events: seq<AgentState>) returns (r: Outcome)
    ensures r == HandleMessageSpec(threadId, events)
  {
    var interrupted, final := StreamStates(events);
    if interrupted.Some? {
      return Ok(InterruptResponse(threadId, interrupted.value, NeedInformation));
    }
    if final.Some? {
      return Ok(FinalMessageResponse(threadId, final.value));
    }
    r := HttpError(500, NoStateMessage);
  }

  /** A turn ends at the first state carrying an interrupt: it answers
      "awaiting_input" with that interrupt and attaches no record. */
  lemma {:induction false} InterruptEndsTurn(threadId: string, events: seq<AgentState>, j: nat)
    requires j < |events| && events[j].interruptSignal.Some?
    ensures var r := HandleMessageSpec(threadId, events);
      r.Ok? && r.body.status == AwaitingInput && r.body.requiresAction.Some? && r.body.loanData.None?
      && exists k :: 0 <= k <= j && r.body.requiresAction == events[k].interruptSignal
  {
    var k := FirstInterrupt(events);
    assert k.Some?;
    assert k.value <= j;
  }

  /** Without an interrupt, the record is attached exactly on a decision, the
      sanction letter exactly on approval and the rejection reason exactly on
      rejection; the status is the last state's, "in_progress" by default. */
  lemma {:induction false} FinalFieldsOnlyWhenDecided(threadId: string, events: seq<AgentState>)
    requires events != [] && forall j :: 0 <= j < |events| ==> events[j].interruptSignal.None?
    ensures var r := HandleMessageSpec(threadId, events);
      var last := events[|events| - 1];
      r.Ok? && r.body.status == Reported(last.applicationStatus.GetOr(InProgress))
      && (r.body.loanData.Some? <==> IsDecided(StatusOf(last)))
      && (r.body.sanctionLetter.Some? <==> StatusOf(last) == Approved)
      && (r.body.rejectionReason.Some? <==> StatusOf(last) == Status.Rejected)
      && (r.body.loanData.Some? ==> r.body.loanData == Some(last.loanData))
  {
    assert FirstInterrupt(events) == None;
  }

  /** A graph that streams nothing is a server error. */
  lemma {:induction false} NoStateIsServerError(threadId: string)
    ensures HandleMessageSpec(threadId, []) == HttpError(500, NoStateMessage)
  {
  }

  /** Since no node clears an interrupt, a thread whose stored state carries
      one answers every later message with "awaiting_input" and the same
      interrupt: the first streamed state is the stored one plus the message. */
  lemma {:induction false} StoredInterruptBlocksTurns(threadId: string, s: AgentState, message: string,
                                                      rest: seq<AgentState>)
    requires s.interruptSignal.Some?
    ensures var first := ApplyUpdate(s, MessagesOnly([Human(message)]));
      var r := HandleMessageSpec(threadId, [first] + rest);
      r.Ok? && r.body.status == AwaitingInput && r.body.requiresAction == s.interruptSignal
      && r.body.response == message
  {
    var first := ApplyUpdate(s, MessagesOnly([Human(message)]));
    var events := [first] + rest;
    assert events[0] == first;
    assert FirstInterrupt(events) == Some(0);
  }

  // ---------------------------------------------------------------- uploads

  /** An uploaded file: its declared content type (possibly absent) and name. */
  datatype Upload = Upload(contentType: Option<string>, filename: string)

  const AllowedContentTypes: seq<string> := ["application/pdf", "image/jpeg", "image/png"]

  predicate AllowedType(contentType: Option<string>) {
    contentType.Some? && contentType.value in AllowedContentTypes
  }

  /** Python's rendering of the content type in the error detail. */
  function ShowContentType(contentType: Option<string>): string {
    if contentType.Some? then contentType.value else "None"
  }

  /** `_handle_file_upload` over the states streamed after the resume; the
      file write is left out. */
  function HandleFileUploadSpec(threadId: string, upload: Upload, events: seq<AgentState>): Outcome {
    if !AllowedType(upload.contentType) then
      HttpError(400, "Invalid file type: " + ShowContentType(upload.contentType))
    else
      var k := FirstInterrupt(events);
      if k.Some? then Ok(InterruptResponse(threadId, events[k.value], ""))
      else if events == [] then HttpError(500, NoStateAfterUpload)
      else
        var last := events[|events| - 1];
        Ok(ChatResponse(LastContent(last.messages, ""), None, threadId, Reported(StatusOf(last)),
                        None, None, None, None, Some(upload.filename)))
  }

  method HandleFileUpload(threadId: string, upload: Upload, events: seq<AgentState>) returns (r: Outcome)
    ensures r == HandleFileUploadSpec(threadId, upload, events)
  {
    if !(upload.contentType.Some? && upload.contentType.value in AllowedContentTypes) {
      return HttpError(400, "Invalid file type: " + ShowContentType(upload.contentType));
    }
    var interrupted, final := StreamStates(events);
    if interrupted.Some? {
      return Ok(InterruptResponse(threadId, interrupted.value, ""));
    }
    if final.None? {
      return HttpError(500, NoStateAfterUpload);
    }
    var last := final.value;
    r := Ok(ChatResponse(LastContent(last.messages, ""), None, threadId, Reported(StatusOf(last)),
                         None, None, None, None, Some(upload.filename)));
  }

  /** A file of any other content type is refused with 400 before the graph
      is resumed: the answer does not depend on what the graph would stream. */
  lemma {:induction false} BadTypeRefusedBeforeResume(threadId: string, upload: Upload,
                                                      events1: seq<AgentState>, events2: seq<AgentState>)
    requires !AllowedType(upload.contentType)
    ensures HandleFileUploadSpec(threadId, upload, events1) == HandleFileUploadSpec(threadId, upload, events2)
    ensures HandleFileUploadSpec(threadId, upload, events1).HttpError?
    ensures HandleFileUploadSpec(threadId, upload, events1).code == 400
  {
  }

  /** PDF, JPEG and PNG uploads pass the gate. */
  lemma {:induction false} AllowedTypesPass(threadId: string, filename: string, events: seq<AgentState>)
    requires events != [] && forall j :: 0 <= j < |events| ==> events[j].interruptSignal.None?
    ensures forall ct :: ct in AllowedContentTypes ==>
      HandleFileUploadSpec(threadId, Upload(Some(ct), filename), events).Ok?
      && HandleFileUploadSpec(threadId, Upload(Some(ct), filename), events).body.documentReceived == Some(filename)
  {
    assert FirstInterrupt(events) == None;
  }

  // ---------------------------------------------------------------- endpoint

  /** The thread id: the given one, or "loan_" and the first twelve hex
      digits of a fresh UUID. */
  function ThreadIdOf(threadId: Option<string>, uuidHex: string): (t: string)
    requires |uuidHex| >= 12
    ensures threadId.Some? ==> t == threadId.value
    ensures threadId.None? ==> |t| == 17 && t[..5] == "loan_"
  {
    if threadId.Some? then threadId.value else "loan_" + uuidHex[..12]
  }

  /** The handler's answer before the endpoint's own error handling. */
  function Dispatch(threadId: string, upload: Option<Upload>, events: seq<AgentState>): Outcome {
    if upload.Some? then HandleFileUploadSpec(threadId, upload.value, events)
    else HandleMessageSpec(threadId, events)
  }

  /** `chat_endpoint` as written: its `except Exception` also catches the
      handlers' own HTTP errors (an `HTTPException` is an `Exception`) and
      re-raises each as a 500 whose detail is "Internal error: " followed by
      the caught error's "<code>: <detail>". */
  function ChatEndpointAsWritten(graphReady: bool, threadId: Option<string>, upload: Option<Upload>,
                                 uuidHex: string, events: seq<AgentState>): Outcome
    requires |uuidHex| >= 12
  {
    if !graphReady then HttpError(503, "Service initializing, please retry")
    else
      var r := Dispatch(ThreadIdOf(threadId, uuidHex), upload, events);
      if r.HttpError? then HttpError(500, "Internal error: " + NatToString(r.code) + ": " + r.detail) else r
  }

  /** As written, an upload of a refused content type reaches the client as
      a 500, not as the 400 the upload handler raises. */
  lemma {:induction false} AsWrittenRefusedUploadIs500(threadId: Option<string>, filename: string,
                                                       uuidHex: string, events: seq<AgentState>)
    requires |uuidHex| >= 12
    ensures ChatEndpointAsWritten(true, threadId, Some(Upload(Some("text/plain"), filename)), uuidHex, events)
         == HttpError(500, "Internal error: " + "400" + ": " + "Invalid file type: text/plain")
  {
    var upload := Upload(Some("text/plain"), filename);
    assert !AllowedType(upload.contentType);
    var t := ThreadIdOf(threadId, uuidHex);
    assert Dispatch(t, Some(upload), events) == HttpError(400, "Invalid file type: text/plain");
    FourHundredText();
  }

  lemma {:induction false} FourHundredText()
    ensures NatToString(400) == "400"
  {
    assert NatToString(4) == "4";
    assert NatToString(40) == "40";
  }

  /** `chat_endpoint` with the handlers' HTTP errors passed through, as the
      upload handler's 400 evidently intends; other failures are out of scope. */
  function ChatEndpoint(graphReady: bool, threadId: Option<string>, upload: Option<Upload>,
                        uuidHex: string, events: seq<AgentState>): (r: Outcome)
    requires |uuidHex| >= 12
    ensures !graphReady ==> r == HttpError(503, "Service initializing, please retry")
    ensures graphReady ==> r == Dispatch(ThreadIdOf(threadId, uuidHex), upload, events)
  {
    if !graphReady then HttpError(503, "Service initializing, please retry")
    else Dispatch(ThreadIdOf(threadId, uuidHex), upload, events)
  }

  /** With errors passed through, a refused content type is a 400 whatever
      the thread, and an upload takes precedence over the message. */
  lemma {:induction false} RefusedUploadIs400(threadId: Option<string>, upload: Upload,
                                              uuidHex: string, events: seq<AgentState>)
    requires |uuidHex| >= 12 && !AllowedType(upload.contentType)
    ensures var r := ChatEndpoint(true, threadId, Some(upload), uuidHex, events);
      r.HttpError? && r.code == 400 && r.detail == "Invalid file type: " + ShowContentType(upload.contentType)
  {
  }

  // ---------------------------------------------------------------- reset

  /** The checkpoint store, keyed by thread id. */
  class Checkpoints {
    var saved: map<string, AgentState>

    constructor ()
      ensures saved == map[]
    {
      saved := map[];
    }

    /** `reset_thread_endpoint`: the thread's checkpoint becomes a fresh
        state; every other thread keeps its own. */
    method Reset(threadId: string) returns (status: string, echoed: string)
      modifies this
      ensures saved == old(saved)[threadId := CreateInitialState(threadId)]
      ensures status == "reset" && echoed == threadId
    {
      saved := saved[threadId := CreateInitialState(threadId)];
      status := "reset";
      echoed := threadId;
    }
  }

  // ---------------------------------------------------------------- turns

  /** The state a message turn streams first: the thread's checkpoint with
      the user's message appended, the initial state standing in for a
      thread that has none. */
  function EntryState(saved: map<string, AgentState>, threadId: string, message: string): (e: AgentState)
    ensures threadId !in saved ==>
      e.loanData == DefaultLoanData() && e.interruptSignal.None?
      && e.messages == [Human(message)] && e.threadId == Some(threadId)
    ensures threadId in saved ==>
      e.messages == saved[threadId].messages + [Human(message)]
      && e.interruptSignal == saved[threadId].interruptSignal
  {
    var start := if threadId in saved then saved[threadId] else CreateInitialState(threadId);
    ApplyUpdate(start, MessagesOnly([Human(message)]))
  }

  const LoanDataKeyError: string := "'loan_data'"

  /** A message turn through `chat_endpoint` as written. The endpoint never
      seeds a thread: `is_new_thread` reaches `_handle_message` unused, and
      `create_initial_state` is called only by the reset endpoint. A thread
      without a checkpoint therefore enters the sales node with only the
      input's keys, its `state["loan_data"]` raises `KeyError`, and the
      endpoint answers 500 with the error's text. `rest` stands for the
      states the graph streams after the first. */
  function MessageTurnAsWritten(saved: map<string, AgentState>, threadId: Option<string>, uuidHex: string,
                                message: string, rest: seq<AgentState>): Outcome
    requires |uuidHex| >= 12
  {
    var t := ThreadIdOf(threadId, uuidHex);
    if t !in saved then HttpError(500, "Internal error: " + LoanDataKeyError)
    else ChatEndpointAsWritten(true, threadId, None, uuidHex, [EntryState(saved, t, message)] + rest)
  }

  /** A message turn with a thread lacking a checkpoint seeded by
      `create_initial_state`, as the unused `is_new_thread` evidently
      intends, and with errors passed through. */
  function MessageTurn(saved: map<string, AgentState>, threadId: Option<string>, uuidHex: string,
                       message: string, rest: seq<AgentState>): (r: Outcome)
    requires |uuidHex| >= 12
    ensures r.Ok?
    ensures r.body.threadId == ThreadIdOf(threadId, uuidHex)
  {
    var t := ThreadIdOf(threadId, uuidHex);
    TurnAnswers(t, EntryState(saved, t, message), rest);
    ChatEndpoint(true, threadId, None, uuidHex, [EntryState(saved, t, message)] + rest)
  }

  /** A stream that has a first state always yields a response body for the
      thread, never the "no state" error. */
  lemma {:induction false} TurnAnswers(threadId: string, first: AgentState, rest: seq<AgentState>)
    ensures HandleMessageSpec(threadId, [first] + rest).Ok?
    ensures HandleMessageSpec(threadId, [first] + rest).body.threadId == threadId
  {
    var events := [first] + rest;
    assert events != [];
    if FirstInterrupt(events).None? {
      assert HandleMessageSpec(threadId, events) == Ok(FinalMessageResponse(threadId, events[|events| - 1]));
    }
  }

  /** As written, the first message of a new conversation (no thread id
      given, so no checkpoint) is a 500, whatever the graph would stream;
      the corrected turn answers it. */
  lemma {:induction false} AsWrittenNewThreadIs500(saved: map<string, AgentState>, uuidHex: string,
                                                   message: string, rest: seq<AgentState>)
    requires |uuidHex| >= 12 && ThreadIdOf(None, uuidHex) !in saved
    ensures MessageTurnAsWritten(saved, None, uuidHex, message, rest)
         == HttpError(500, "Internal error: 'loan_data'")
    ensures MessageTurn(saved, None, uuidHex, message, rest).Ok?
  {
  }

  /** The corrected first turn of a new thread starts from the initial state:
      an empty loan record with all five basics missing, no interrupt, and
      the user's message as the only message. */
  lemma {:induction false} NewThreadStartsFromInitialState(saved: map<string, AgentState>, threadId: string,
                                                           message: string)
    requires threadId !in saved
    ensures var e := EntryState(saved, threadId, message);
      e.interruptSignal.None? && e.messages == [Human(message)] && e.threadId == Some(threadId)
      && e.nextStep == Some("sales_agent") && Nodes.LastUserMessage(e.messages) == message
      && Nodes.SalesMissing(e.loanData)
         == [Nodes.EmploymentType, Nodes.MonthlyIncome, Nodes.RequestedAmount, Nodes.TenureMonths, Nodes.LoanPurpose]
  {
    SeededRecordMissesAllBasics(threadId);
    var e := EntryState(saved, threadId, message);
    assert e.messages[0] == Human(message);
  }

  /** On a thread that has a checkpoint the two endpoints agree: the
      unseeded first turn is the only difference. */
  lemma {:induction false} CheckpointedThreadsAgree(saved: map<string, AgentState>, threadId: Option<string>,
                                                    uuidHex: string, message: string, rest: seq<AgentState>)
    requires |uuidHex| >= 12 && ThreadIdOf(threadId, uuidHex) in saved
    ensures MessageTurnAsWritten(saved, threadId, uuidHex, message, rest)
         == MessageTurn(saved, threadId, uuidHex, message, rest)
  {
    var t := ThreadIdOf(threadId, uuidHex);
    TurnAnswers(t, EntryState(saved, t, message), rest);
  }

  /** A reset is the way out of a stored interrupt: after it, a turn whose
      graph raises no new interrupt answers with the last streamed state,
      under both endpoints. */
  lemma {:induction false} ResetUnblocksThread(saved: map<string, AgentState>, threadId: string, uuidHex: string,
                                               message: string, rest: seq<AgentState>)
    requires |uuidHex| >= 12 && threadId in saved && saved[threadId] == CreateInitialState(threadId)
    requires forall j :: 0 <= j < |rest| ==> rest[j].interruptSignal.None?
    ensures var last := if rest == [] then EntryState(saved, threadId, message) else rest[|rest| - 1];
      MessageTurn(saved, Some(threadId), uuidHex, message, rest) == Ok(FinalMessageResponse(threadId, last))
      && MessageTurnAsWritten(saved, Some(threadId), uuidHex, message, rest) == Ok(FinalMessageResponse(threadId, last))
  {
    var first := EntryState(saved, threadId, message);
    var events := [first] + rest;
    assert first.interruptSignal.None?;
    assert forall j :: 0 <= j < |events| ==> events[j].interruptSignal.None? by {
      forall j | 0 <= j < |events| ensures events[j].interruptSignal.None? {
        if j > 0 { assert events[j] == rest[j - 1]; }
      }
    }
    assert FirstInterrupt(events) == None;
    assert events[|events| - 1] == (if rest == [] then first else rest[|rest| - 1]);
    CheckpointedThreadsAgree(saved, Some(threadId), uuidHex, message, rest);
  }
}
