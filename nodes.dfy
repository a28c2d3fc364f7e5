/** The four nodes of the loan graph (backend/app/graph/nodes.py). Each node
    reads the graph state, updates the application record in place and
    returns the keys it writes.

    What lies outside the process is a parameter: the language model's
    structured extraction (`None` when the model call fails, which the node
    turns into an empty extraction), the credit bureau's score, the fraud
    network's report and whether the CRM tool raised (`None` or `true` when
    the tool raised an exception), the clock, the random reference and the
    document hash of a sanction letter. */
module Nodes {
  import opened Wrappers
  import opened Strings
  import opened Numeric
  import opened LoanState
  import opened Graph
  import opened NodeExtract
  import Tools
  import Fraud
  import Neo4j
  import Crm
  import SanctionService
  import Workflow

  // ---------------------------------------------------------------- helpers

  /** `_last_user_message`: the content of the latest user message, or ""
      when the conversation holds none. */
  function LastUserMessage(ms: seq<Message>): (m: string)
    ensures (forall i :: 0 <= i < |ms| ==> ms[i].Ai?) ==> m == ""
    decreases |ms|
  {
    if ms == [] then ""
    else if ms[|ms| - 1].Human? then ms[|ms| - 1].content
    else
      var m := LastUserMessage(ms[..|ms| - 1]);
      assert forall j :: 0 <= j < |ms| - 1 ==> ms[..|ms| - 1][j] == ms[j];
      m
  }

  /** When the conversation holds a user message, the result is the content
      of one that only AI messages follow. */
  lemma {:induction false} LastUserMessageIsLatest(ms: seq<Message>)
    requires exists i :: 0 <= i < |ms| && ms[i].Human?
    ensures exists i :: 0 <= i < |ms| && ms[i] == Human(LastUserMessage(ms)) && forall j :: i < j < |ms| ==> ms[j].Ai?
    decreases |ms|
  {
    var n := |ms| - 1;
    if ms[n].Human? {
      assert ms[n] == Human(LastUserMessage(ms));
    } else {
      var p := ms[..n];
      var k :| 0 <= k < |ms| && ms[k].Human?;
      assert k < n && p[k] == ms[k];
      LastUserMessageIsLatest(p);
      var i :| 0 <= i < |p| && p[i] == Human(LastUserMessage(p)) && forall j :: i < j < |p| ==> p[j].Ai?;
      assert ms[i] == Human(LastUserMessage(ms));
      assert forall j :: i < j < |ms| ==> ms[j].Ai? by {
        assert forall j :: i < j < n ==> ms[j] == p[j];
      }
    }
  }

  /** The backwards search over the conversation, stopping at the first user
      message met. */
  method FindLastUserMessage(ms: seq<Message>) returns (m: string)
    ensures m == LastUserMessage(ms)
  {
    var i := |ms|;
    assert ms[..i] == ms;
    while i > 0
      invariant 0 <= i <= |ms|
      invariant LastUserMessage(ms) == LastUserMessage(ms[..i])
      decreases i
    {
      if ms[i - 1].Human? {
        assert ms[..i][i - 1] == ms[i - 1];
        return ms[i - 1].content;
      }
      assert ms[..i][..i - 1] == ms[..i - 1];
      i := i - 1;
    }
    assert ms[..0] == [];
    m := "";
  }

  /** A new user message followed by the assistant's replies: the nodes read
      the new message, whatever came before. */
  lemma {:induction false} LastUserMessageOfTurn(history: seq<Message>, content: string, replies: seq<Message>)
    requires forall j :: 0 <= j < |replies| ==> replies[j].Ai?
    ensures LastUserMessage(history + [Human(content)] + replies) == content
    decreases |replies|
  {
    var ms := history + [Human(content)] + replies;
    if replies == [] {
      assert ms[|ms| - 1] == Human(content);
    } else {
      var shorter := replies[..|replies| - 1];
      assert ms[..|ms| - 1] == history + [Human(content)] + shorter;
      assert ms[|ms| - 1] == replies[|replies| - 1];
      LastUserMessageOfTurn(history, content, shorter);
    }
  }

  /** `_build_plan`: one "Collect <field>" step per missing field, with the
      field's underscores read as spaces. */
  function BuildPlan(fields: seq<string>): (p: seq<string>)
    ensures |p| == |fields|
    ensures forall i :: 0 <= i < |p| ==> p[i] == "Collect " + Tools.Spaced(fields[i])
  {
    seq(|fields|, i requires 0 <= i < |fields| => "Collect " + Tools.Spaced(fields[i]))
  }

  // ---------------------------------------------------------------- the tool-call log

  /** `_append_tool_call` as written: it copies the log stored in the state
      and appends one entry, so it ignores what the node logged earlier in
      the same run. */
  function AppendToolCallAsWritten(s: AgentState, call: ToolCall): (log: seq<ToolCall>)
    ensures |log| == |s.toolCalls| + 1 && log[|s.toolCalls|] == call
  {
    s.toolCalls + [call]
  }

  /** The log a node evidently means to return: its running log with the
      entry appended. The nodes below use this one. */
  function LogToolCall(log: seq<ToolCall>, call: ToolCall): (r: seq<ToolCall>)
    ensures |r| == |log| + 1 && r[..|log|] == log && r[|log|] == call
  {
    log + [call]
  }

  /** With the helper as written, a node that calls two tools returns a log
      holding only the second: the first entry is lost. */
  lemma {:induction false} AsWrittenLosesFirstCall(s: AgentState, first: ToolCall, second: ToolCall)
    requires first != second
    ensures var returned := AppendToolCallAsWritten(s, second);
      |returned| == |s.toolCalls| + 1 && first !in returned[|s.toolCalls|..]
  {
    var returned := AppendToolCallAsWritten(s, second);
    assert returned[|s.toolCalls|..] == [second];
  }

  /** Threading the running log keeps both entries, in call order, after the
      stored log. */
  lemma {:induction false} RunningLogKeepsBothCalls(s: AgentState, first: ToolCall, second: ToolCall)
    ensures LogToolCall(LogToolCall(s.toolCalls, first), second) == s.toolCalls + [first, second]
  {
    var l1 := LogToolCall(s.toolCalls, first);
    var l2 := LogToolCall(l1, second);
    assert l2[..|s.toolCalls|] == s.toolCalls by {
      assert l2[..|l1|][..|s.toolCalls|] == l2[..|s.toolCalls|];
    }
    assert l2 == l2[..|s.toolCalls|] + [l2[|s.toolCalls|], l2[|s.toolCalls| + 1]];
  }

  // ---------------------------------------------------------------- sales node

  datatype SalesExtraction = SalesExtraction(
    employmentType: Option<string>, monthlyIncome: Option<real>, requestedAmount: Option<real>,
    tenureMonths: Option<int>, loanPurpose: Option<string>, reply: Option<string>)

  const EmptySalesExtraction: SalesExtraction := SalesExtraction(None, None, None, None, None, None)

  /** The values the sales node takes from one message. */
  datatype SalesValues = SalesValues(
    employmentType: Option<string>, monthlyIncome: Option<real>, requestedAmount: Option<real>,
    tenureMonths: Option<int>, loanPurpose: Option<string>)

  /** The model's value when truthy, else the rule-based extractor's. The
      amount has no rule-based fallback of its own: it is the message's
      first number when the income was just read and the message speaks of
      borrowing, or when no amount is stored yet. */
  function SalesValuesOf(d: LoanData, msg: string, ex: SalesExtraction): (v: SalesValues)
    ensures StrTruthy(ex.employmentType) ==> v.employmentType == ex.employmentType
    ensures !StrTruthy(ex.employmentType) ==> v.employmentType == ExtractEmploymentType(msg)
    ensures RealTruthy(ex.requestedAmount) ==> v.requestedAmount == ex.requestedAmount
    ensures !RealTruthy(ex.requestedAmount) ==> v.requestedAmount.None? || v.requestedAmount == ExtractNumber(msg)
    ensures !RealTruthy(ex.requestedAmount) && d.requestedAmount.None? ==> v.requestedAmount == ExtractNumber(msg)
    ensures v.loanPurpose == ex.loanPurpose
  {
    var monthlyIncome := if RealTruthy(ex.monthlyIncome) then ex.monthlyIncome else ExtractNumber(msg);
    var amount0 := if RealTruthy(ex.requestedAmount) then ex.requestedAmount else None;
    var amount1 :=
      if amount0.None? && RealTruthy(monthlyIncome) && Contains(ToLower(msg), "borrow")
      then ExtractNumber(msg) else amount0;
    var amount2 := if amount1.None? && d.requestedAmount.None? then ExtractNumber(msg) else amount1;
    SalesValues(
      if StrTruthy(ex.employmentType) then ex.employmentType else ExtractEmploymentType(msg),
      monthlyIncome, amount2,
      if IntTruthy(ex.tenureMonths) then ex.tenureMonths else ExtractTenureMonths(msg),
      ex.loanPurpose)
  }

  /** Only truthy values are written; the purpose is stored stripped. */
  function SalesMerge(d: LoanData, v: SalesValues): LoanData {
    d.(employmentType := if StrTruthy(v.employmentType) then v.employmentType else d.employmentType,
       monthlyIncome := if RealTruthy(v.monthlyIncome) then v.monthlyIncome else d.monthlyIncome,
       requestedAmount := if RealTruthy(v.requestedAmount) then v.requestedAmount else d.requestedAmount,
       tenureMonths := if IntTruthy(v.tenureMonths) then v.tenureMonths else d.tenureMonths,
       loanPurpose := if StrTruthy(v.loanPurpose) then Some(Strip(v.loanPurpose.value)) else d.loanPurpose)
  }

  /** The merge touches only the five loan basics, never unsets employment
      type, income, amount or tenure, and every value it writes is truthy. */
  lemma {:induction false} SalesMergeOnlyFills(d: LoanData, v: SalesValues)
    ensures var r := SalesMerge(d, v);
      r == d.(employmentType := r.employmentType, monthlyIncome := r.monthlyIncome,
              requestedAmount := r.requestedAmount, tenureMonths := r.tenureMonths,
              loanPurpose := r.loanPurpose)
      && (StrTruthy(d.employmentType) ==> StrTruthy(r.employmentType))
      && (RealTruthy(d.monthlyIncome) ==> RealTruthy(r.monthlyIncome))
      && (RealTruthy(d.requestedAmount) ==> RealTruthy(r.requestedAmount))
      && (IntTruthy(d.tenureMonths) ==> IntTruthy(r.tenureMonths))
      && (r.employmentType == d.employmentType || r.employmentType == v.employmentType)
      && (r.requestedAmount == d.requestedAmount || r.requestedAmount == v.requestedAmount)
  {
  }

  /** The purpose is the exception: an extracted purpose of blanks is truthy,
      so it is written, and it is stored stripped to "", which unsets it. */
  lemma {:induction false} BlankPurposeUnsetsPurpose(d: LoanData, v: SalesValues)
    requires v.loanPurpose == Some(" ")
    ensures SalesMerge(d, v).loanPurpose == Some("")
    ensures !StrTruthy(SalesMerge(d, v).loanPurpose)
  {
    assert TrimStart(" ") == "";
  }

  /** A loan basic the sales node asks for, in asking order. */
  datatype SalesField = EmploymentType | MonthlyIncome | RequestedAmount | TenureMonths | LoanPurpose

  function SalesFieldName(f: SalesField): string {
    match f
    case EmploymentType => "employment_type"
    case MonthlyIncome => "monthly_income"
    case RequestedAmount => "requested_amount"
    case TenureMonths => "tenure_months"
    case LoanPurpose => "loan_purpose"
  }

  function SalesRank(f: SalesField): nat {
    match f
    case EmploymentType => 0
    case MonthlyIncome => 1
    case RequestedAmount => 2
    case TenureMonths => 3
    case LoanPurpose => 4
  }

  /** The loan basics still unset (falsy), each once, in asking order. */
  function SalesMissing(d: LoanData): (m: seq<SalesField>)
    ensures EmploymentType in m <==> !StrTruthy(d.employmentType)
    ensures MonthlyIncome in m <==> !RealTruthy(d.monthlyIncome)
    ensures RequestedAmount in m <==> !RealTruthy(d.requestedAmount)
    ensures TenureMonths in m <==> !IntTruthy(d.tenureMonths)
    ensures LoanPurpose in m <==> !StrTruthy(d.loanPurpose)
    ensures forall i, j :: 0 <= i < j < |m| ==> SalesRank(m[i]) < SalesRank(m[j])
  {
    (if !StrTruthy(d.employmentType) then [EmploymentType] else [])
    + (if !RealTruthy(d.monthlyIncome) then [MonthlyIncome] else [])
    + (if !RealTruthy(d.requestedAmount) then [RequestedAmount] else [])
    + (if !IntTruthy(d.tenureMonths) then [TenureMonths] else [])
    + (if !StrTruthy(d.loanPurpose) then [LoanPurpose] else [])
  }

  /** Nothing is missing exactly when the record is complete and a tenure is set. */
  lemma {:induction false} SalesMissingEmptyIff(d: LoanData)
    ensures SalesMissing(d) == [] <==> IsComplete(d) && IntTruthy(d.tenureMonths)
  {
    var m := SalesMissing(d);
    if m != [] {
      assert m[0] in m;
    }
  }

  function SalesNames(m: seq<SalesField>): (r: seq<string>)
    ensures |r| == |m| && forall i :: 0 <= i < |m| ==> r[i] == SalesFieldName(m[i])
  {
    seq(|m|, i requires 0 <= i < |m| => SalesFieldName(m[i]))
  }

  function SalesPrompt(f: SalesField): string {
    match f
    case EmploymentType => "First, let me know your employment type (salaried, self-employed, freelancer, unemployed)."
    case MonthlyIncome => "What is your monthly income? (in ₹)"
    case RequestedAmount => "How much would you like to borrow? (in ₹)"
    case TenureMonths => "Select your preferred loan tenure (in months)."
    case LoanPurpose => "What is the purpose of the loan?"
  }

  const MovingToVerification: string := "Thanks! Moving on to verification."

  /** The model's reply when it gave one; else the prompt for the first
      missing field, or the hand-over line when nothing is missing. */
  function SalesReply(ex: SalesExtraction, missing: seq<SalesField>): string {
    if StrTruthy(ex.reply) then ex.reply.value
    else if missing != [] then SalesPrompt(missing[0])
    else MovingToVerification
  }

  /** The purpose analysis when a purpose is set, then the instalment at the
      default rate when an amount and a tenure are set. */
  function SalesTools(d: LoanData, log: seq<ToolCall>): (r: (LoanData, seq<ToolCall>))
  {
    var d1 := if StrTruthy(d.loanPurpose)
      then d.(purposeCategory := Some(Tools.AnalyzePurpose(d.loanPurpose.value).category)) else d;
    var log1 := if StrTruthy(d.loanPurpose) then LogToolCall(log, ToolCall("analyze_purpose", true)) else log;
    if RealTruthy(d1.requestedAmount) && IntTruthy(d1.tenureMonths) then
      var q := Tools.CalculateEmiTool(d1.requestedAmount.value, d1.tenureMonths.value, Tools.DefaultToolRate);
      if q.Some? then (d1.(calculatedEmi := Some(q.value.emi)), LogToolCall(log1, ToolCall("calculate_emi", true)))
      else (d1, LogToolCall(log1, ToolCall("calculate_emi", false)))
    else (d1, log1)
  }

  /** The tools leave the five loan basics alone, so nothing goes missing
      or becomes set through them. */
  lemma {:induction false} SalesToolsKeepBasics(d: LoanData, log: seq<ToolCall>)
    ensures var r := SalesTools(d, log).0;
      r == d.(purposeCategory := r.purposeCategory, calculatedEmi := r.calculatedEmi)
    ensures SalesMissing(SalesTools(d, log).0) == SalesMissing(d)
  {
    var r := SalesTools(d, log).0;
    assert r == d.(purposeCategory := r.purposeCategory, calculatedEmi := r.calculatedEmi);
  }

  /** The update the sales node returns, from the model's extraction, the
      basics still missing, and the record and log after the tools. */
  function SalesUpdate(ex: SalesExtraction, missing: seq<SalesField>, d: LoanData, log: seq<ToolCall>): (u: NodeUpdate)
    ensures u.messages == [Ai(SalesReply(ex, missing))] && u.loanData == Some(d) && u.toolCalls == Some(log)
    ensures u.nextStep == Some("verification_agent") <==> missing == []
    ensures u.nextStep == Some("sales_agent") <==> missing != []
    ensures u.interruptSignal.None? && u.applicationStatus.None?
  {
    var done := missing == [];
    NodeUpdate(
      [Ai(SalesReply(ex, missing))], Some(d),
      Some(if done then "verification_agent" else "sales_agent"),
      Some(if done then Verification else Discovery),
      Some(BuildPlan(SalesNames(missing))),
      Some(if done then "Begin verification" else "Collect loan basics"),
      Some(log), None, None, None, None, None, None, None)
  }

  /** The record after the values of the last user message are merged in. */
  function SalesMerged(s: AgentState, ex: SalesExtraction): LoanData {
    SalesMerge(s.loanData, SalesValuesOf(s.loanData, LastUserMessage(s.messages), ex))
  }

  /** `sales_agent_node` over values: the new record and the update. */
  function SalesAgentSpec(s: AgentState, llm: Option<SalesExtraction>): (LoanData, NodeUpdate) {
    var ex := llm.GetOr(EmptySalesExtraction);
    var merged := SalesMerged(s, ex);
    var r := SalesTools(merged, s.toolCalls);
    (r.0, SalesUpdate(ex, SalesMissing(merged), r.0, r.1))
  }

  /** Writes the truthy values into the record. */
  method WriteSalesValues(loan: LoanApplicationDetails, v: SalesValues)
    modifies loan`employmentType, loan`monthlyIncome, loan`requestedAmount, loan`tenureMonths, loan`loanPurpose
    ensures loan.Snapshot() == SalesMerge(old(loan.Snapshot()), v)
  {
    SetSalesValues(loan, v);
  }

  method SetSalesValues(loan: LoanApplicationDetails, v: SalesValues)
    modifies loan`employmentType, loan`monthlyIncome, loan`requestedAmount, loan`tenureMonths, loan`loanPurpose
    ensures loan.employmentType == SalesMerge(old(loan.Snapshot()), v).employmentType
    ensures loan.monthlyIncome == SalesMerge(old(loan.Snapshot()), v).monthlyIncome
    ensures loan.requestedAmount == SalesMerge(old(loan.Snapshot()), v).requestedAmount
    ensures loan.tenureMonths == SalesMerge(old(loan.Snapshot()), v).tenureMonths
    ensures loan.loanPurpose == SalesMerge(old(loan.Snapshot()), v).loanPurpose
  {
    if StrTruthy(v.employmentType) { loan.employmentType := v.employmentType; }
    if RealTruthy(v.monthlyIncome) { loan.monthlyIncome := v.monthlyIncome; }
    if RealTruthy(v.requestedAmount) { loan.requestedAmount := v.requestedAmount; }
    if IntTruthy(v.tenureMonths) { loan.tenureMonths := v.tenureMonths; }
    if StrTruthy(v.loanPurpose) { loan.loanPurpose := Some(Strip(v.loanPurpose.value)); }
  }

  /** The unset loan basics, appended one test at a time. */
  method CollectSalesMissing(loan: LoanApplicationDetails) returns (missing: seq<SalesField>)
    ensures missing == SalesMissing(loan.Snapshot())
  {
    ghost var d := loan.Snapshot();
    ghost var e1 := if !StrTruthy(d.employmentType) then [EmploymentType] else [];
    ghost var e2 := if !RealTruthy(d.monthlyIncome) then [MonthlyIncome] else [];
    ghost var e3 := if !RealTruthy(d.requestedAmount) then [RequestedAmount] else [];
    ghost var e4 := if !IntTruthy(d.tenureMonths) then [TenureMonths] else [];
    missing := [];
    if !StrTruthy(loan.employmentType) { missing := missing + [EmploymentType]; }
    assert missing == e1;
    if !RealTruthy(loan.monthlyIncome) { missing := missing + [MonthlyIncome]; }
    assert missing == e1 + e2;
    if !RealTruthy(loan.requestedAmount) { missing := missing + [RequestedAmount]; }
    assert missing == e1 + e2 + e3;
    if !IntTruthy(loan.tenureMonths) { missing := missing + [TenureMonths]; }
    assert missing == e1 + e2 + e3 + e4;
    if !StrTruthy(loan.loanPurpose) { missing := missing + [LoanPurpose]; }
  }

  /** Runs the purpose analysis and the instalment calculation on the record. */
  method RunSalesTools(loan: LoanApplicationDetails, log: seq<ToolCall>) returns (toolCalls: seq<ToolCall>)
    modifies loan`purposeCategory, loan`calculatedEmi
    ensures loan.purposeCategory == SalesTools(old(loan.Snapshot()), log).0.purposeCategory
    ensures loan.calculatedEmi == SalesTools(old(loan.Snapshot()), log).0.calculatedEmi
    ensures toolCalls == SalesTools(old(loan.Snapshot()), log).1
  {
    toolCalls := log;
    if StrTruthy(loan.loanPurpose) {
      var profile := Tools.AnalyzePurpose(loan.loanPurpose.value);
      toolCalls := LogToolCall(toolCalls, ToolCall("analyze_purpose", true));
      loan.purposeCategory := Some(profile.category);
    }
    if RealTruthy(loan.requestedAmount) && IntTruthy(loan.tenureMonths) {
      var quote := Tools.CalculateEmiTool(loan.requestedAmount.value, loan.tenureMonths.value, Tools.DefaultToolRate);
      if quote.Some? {
        toolCalls := LogToolCall(toolCalls, ToolCall("calculate_emi", true));
        loan.calculatedEmi := Some(quote.value.emi);
      } else {
        toolCalls := LogToolCall(toolCalls, ToolCall("calculate_emi", false));
      }
    }
  }

  /** The values of one message, as the node's local variables hold them. */
  method ReadSalesValues(loan: LoanApplicationDetails, msg: string, ex: SalesExtraction) returns (v: SalesValues)
    ensures v == SalesValuesOf(loan.Snapshot(), msg, ex)
  {
    var employmentType := if StrTruthy(ex.employmentType) then ex.employmentType else ExtractEmploymentType(msg);
    var monthlyIncome := if RealTruthy(ex.monthlyIncome) then ex.monthlyIncome else ExtractNumber(msg);
    var requestedAmount := if RealTruthy(ex.requestedAmount) then ex.requestedAmount else None;
    var tenureMonths := if IntTruthy(ex.tenureMonths) then ex.tenureMonths else ExtractTenureMonths(msg);
    if requestedAmount.None? && RealTruthy(monthlyIncome) && Contains(ToLower(msg), "borrow") {
      requestedAmount := ExtractNumber(msg);
    }
    if requestedAmount.None? && loan.requestedAmount.None? {
      requestedAmount := ExtractNumber(msg);
    }
    v := SalesValues(employmentType, monthlyIncome, requestedAmount, tenureMonths, ex.loanPurpose);
  }

  /** Reads the values of the last user message and writes them in. */
  method MergeSalesMessage(s: AgentState, loan: LoanApplicationDetails, ex: SalesExtraction)
    requires loan.Snapshot() == s.loanData
    modifies loan`employmentType, loan`monthlyIncome, loan`requestedAmount, loan`tenureMonths, loan`loanPurpose
    ensures loan.Snapshot() == SalesMerged(s, ex)
  {
    var msg := FindLastUserMessage(s.messages);
    var v := ReadSalesValues(loan, msg, ex);
    WriteSalesValues(loan, v);
  }

  /** Runs the tools and states the record and log they leave. */
  method ApplySalesTools(loan: LoanApplicationDetails, log: seq<ToolCall>) returns (toolCalls: seq<ToolCall>)
    modifies loan`purposeCategory, loan`calculatedEmi
    ensures (loan.Snapshot(), toolCalls) == SalesTools(old(loan.Snapshot()), log)
  {
    ghost var d := loan.Snapshot();
    SalesToolsKeepBasics(d, log);
    toolCalls := RunSalesTools(loan, log);
  }

  /** The sales node updates the record in place and returns its update. */
  method SalesAgentNode(s: AgentState, loan: LoanApplicationDetails, llm: Option<SalesExtraction>)
    returns (u: NodeUpdate)
    requires loan.Snapshot() == s.loanData
    modifies loan
    ensures (loan.Snapshot(), u) == SalesAgentSpec(s, llm)
  {
    var ex := if llm.Some? then llm.value else EmptySalesExtraction;
    MergeSalesMessage(s, loan, ex);
    var missing := CollectSalesMissing(loan);
    var toolCalls := ApplySalesTools(loan, s.toolCalls);
    u := SalesUpdate(ex, missing, loan.Snapshot(), toolCalls);
  }

  /** The tools leave the loan basics alone, so the node routes on the
      record it returns: on to verification exactly when that record is
      complete and has a tenure, and back to itself otherwise. */
  lemma {:induction false} SalesRoutesOnCompleteness(s: AgentState, llm: Option<SalesExtraction>)
    ensures var (d, u) := SalesAgentSpec(s, llm);
      (u.nextStep == Some("verification_agent") <==> IsComplete(d) && IntTruthy(d.tenureMonths))
      && (u.nextStep == Some("sales_agent") <==> !(IsComplete(d) && IntTruthy(d.tenureMonths)))
      && (u.dialogueStage == Some(Verification) <==> u.nextStep == Some("verification_agent"))
      && u.interruptSignal.None? && u.applicationStatus.None?
  {
    var merged := SalesMerged(s, llm.GetOr(EmptySalesExtraction));
    SalesToolsKeepBasics(merged, s.toolCalls);
    SalesMissingEmptyIff(SalesTools(merged, s.toolCalls).0);
  }

  /** Either way the sales node's step is a key of its routing map. */
  lemma {:induction false} SalesStepAlwaysRoutes(s: AgentState, llm: Option<SalesExtraction>)
    ensures var u := SalesAgentSpec(s, llm).1;
      Workflow.Route(Workflow.SalesAgent, u.nextStep) in
        {Some(Workflow.Goto(Workflow.SalesAgent)), Some(Workflow.Goto(Workflow.VerificationAgent))}
  {
    var u := SalesAgentSpec(s, llm).1;
    assert u.nextStep == Some("verification_agent") || u.nextStep == Some("sales_agent") by {
      SalesRoutesOnCompleteness(s, llm);
    }
    SalesStepsRoute(u.nextStep);
  }

  lemma {:induction false} SalesStepsRoute(step: Option<string>)
    requires step == Some("verification_agent") || step == Some("sales_agent")
    ensures Workflow.Route(Workflow.SalesAgent, step) in
      {Some(Workflow.Goto(Workflow.SalesAgent)), Some(Workflow.Goto(Workflow.VerificationAgent))}
  {
  }

  /** Without a reply from the model the node asks for the first missing
      basic, and the plan lists every missing basic in asking order. */
  lemma {:induction false} SalesAsksFirstMissing(s: AgentState)
    ensures var (d, u) := SalesAgentSpec(s, None);
      var missing := SalesMissing(d);
      u.messages == [Ai(if missing == [] then MovingToVerification else SalesPrompt(missing[0]))]
      && u.plan == Some(BuildPlan(SalesNames(missing)))
  {
    SalesToolsKeepBasics(SalesMerged(s, EmptySalesExtraction), s.toolCalls);
  }

  /** The sales node never touches the identity and KYC fields, the credit
      score or the documents. */
  lemma {:induction false} SalesKeepsIdentity(s: AgentState, llm: Option<SalesExtraction>)
    ensures var d := SalesAgentSpec(s, llm).0;
      d.customerName == s.loanData.customerName && d.mobile == s.loanData.mobile
      && d.email == s.loanData.email && d.pan == s.loanData.pan && d.aadhaar == s.loanData.aadhaar
      && d.kycConsent == s.loanData.kycConsent && d.otpVerified == s.loanData.otpVerified
      && d.creditScore == s.loanData.creditScore
      && d.documentsReceived == s.loanData.documentsReceived
  {
    SalesToolsKeepBasics(SalesMerged(s, llm.GetOr(EmptySalesExtraction)), s.toolCalls);
  }

  /** When a purpose and an amount are set the running log gains the purpose
      analysis and then a successful instalment calculation: at the default
      rate a non-zero tenure always yields a quote. */
  lemma {:induction false} SalesLogsBothTools(d: LoanData, log: seq<ToolCall>)
    requires StrTruthy(d.loanPurpose) && RealTruthy(d.requestedAmount) && IntTruthy(d.tenureMonths)
    ensures SalesTools(d, log).1 == log + [ToolCall("analyze_purpose", true), ToolCall("calculate_emi", true)]
    ensures SalesTools(d, log).0.calculatedEmi.Some?
  {
    Tools.DefaultRateQuotes(d.requestedAmount.value, d.tenureMonths.value);
    var log1 := LogToolCall(log, ToolCall("analyze_purpose", true));
    assert SalesTools(d, log).1 == LogToolCall(log1, ToolCall("calculate_emi", true));
    assert log1 + [ToolCall("calculate_emi", true)]
        == log + [ToolCall("analyze_purpose", true), ToolCall("calculate_emi", true)];
  }

  // ---------------------------------------------------------------- verification node

  datatype VerificationExtraction = VerificationExtraction(
    fullName: Option<string>, mobile: Option<string>, email: Option<string>, pan: Option<string>,
    aadhaar: Option<string>, consent: Option<bool>, otp: Option<string>, reply: Option<string>)

  const EmptyVerificationExtraction: VerificationExtraction :=
    VerificationExtraction(None, None, None, None, None, None, None, None)

  /** A message that is, once stripped, exactly six digits counts as the OTP. */
  predicate IsOtpMessage(msg: string) {
    var t := Strip(msg);
    |t| == 6 && AllDigits(t)
  }

  /** The model's truthy values are written (the name stripped, a consent
      answer even when false); an OTP from the model or a six-digit message
      marks the mobile verified; then the rule-based extractors fill the
      contact and identity fields still unset. */
  function VerificationMerge(d: LoanData, msg: string, ex: VerificationExtraction): LoanData {
    ExtractorFallbacks(OtpCheck(ModelValues(d, ex), msg), msg)
  }

  function ModelValues(d: LoanData, ex: VerificationExtraction): LoanData {
    ModelKyc(ModelContact(d, ex), ex)
  }

  function ModelContact(d: LoanData, ex: VerificationExtraction): LoanData {
    d.(customerName := if StrTruthy(ex.fullName) then Some(Strip(ex.fullName.value)) else d.customerName,
       mobile := if StrTruthy(ex.mobile) then ex.mobile else d.mobile,
       email := if StrTruthy(ex.email) then ex.email else d.email)
  }

  function ModelKyc(d: LoanData, ex: VerificationExtraction): LoanData {
    d.(pan := if StrTruthy(ex.pan) then ex.pan else d.pan,
       aadhaar := if StrTruthy(ex.aadhaar) then ex.aadhaar else d.aadhaar,
       kycConsent := if ex.consent.Some? then ex.consent else d.kycConsent,
       otpVerified := if StrTruthy(ex.otp) then Some(true) else d.otpVerified)
  }

  function OtpCheck(d: LoanData, msg: string): LoanData {
    d.(otpVerified := if !BoolTruthy(d.otpVerified) && IsOtpMessage(msg) then Some(true) else d.otpVerified)
  }

  function ExtractorFallbacks(d: LoanData, msg: string): LoanData {
    d.(mobile := if StrTruthy(d.mobile) then d.mobile else ExtractMobile(msg),
       email := if StrTruthy(d.email) then d.email else ExtractEmail(msg),
       pan := if StrTruthy(d.pan) then d.pan else ExtractPan(msg),
       aadhaar := if StrTruthy(d.aadhaar) then d.aadhaar else ExtractAadhaar(msg))
  }

  /** The merge never withdraws a verified OTP, never unsets a mobile, email,
      PAN or Aadhaar number, and leaves the loan basics alone. */
  lemma {:induction false} VerificationMergeOnlyFills(d: LoanData, msg: string, ex: VerificationExtraction)
    ensures var r := VerificationMerge(d, msg, ex);
      (BoolTruthy(d.otpVerified) ==> BoolTruthy(r.otpVerified))
      && (StrTruthy(d.mobile) ==> StrTruthy(r.mobile))
      && (StrTruthy(d.email) ==> StrTruthy(r.email))
      && (StrTruthy(d.pan) ==> StrTruthy(r.pan))
      && (StrTruthy(d.aadhaar) ==> StrTruthy(r.aadhaar))
      && r.requestedAmount == d.requestedAmount && r.monthlyIncome == d.monthlyIncome
      && r.tenureMonths == d.tenureMonths && r.employmentType == d.employmentType
  {
  }

  /** A six-digit reply verifies the OTP, whatever the model extracted. */
  lemma {:induction false} SixDigitReplyVerifiesOtp(d: LoanData, ex: VerificationExtraction)
    ensures BoolTruthy(VerificationMerge(d, "123456", ex).otpVerified)
  {
    assert IsOtpMessage("123456") by {
      assert TrimStart("123456") == "123456" by { assert !IsSpace('1'); }
      assert TrimEnd("123456") == "123456" by { assert !IsSpace('6'); }
    }
  }

  /** An identity detail the verification node asks for, in asking order. */
  datatype KycField = FullName | Mobile | Email | Pan | Aadhaar

  function KycFieldName(f: KycField): string {
    match f
    case FullName => "full_name"
    case Mobile => "mobile"
    case Email => "email"
    case Pan => "pan"
    case Aadhaar => "aadhaar"
  }

  function KycRank(f: KycField): nat {
    match f
    case FullName => 0
    case Mobile => 1
    case Email => 2
    case Pan => 3
    case Aadhaar => 4
  }

  /** The identity details still unset, each once, in asking order. */
  function KycMissing(d: LoanData): (m: seq<KycField>)
    ensures FullName in m <==> !StrTruthy(d.customerName)
    ensures Mobile in m <==> !StrTruthy(d.mobile)
    ensures Email in m <==> !StrTruthy(d.email)
    ensures Pan in m <==> !StrTruthy(d.pan)
    ensures Aadhaar in m <==> !StrTruthy(d.aadhaar)
    ensures forall i, j :: 0 <= i < j < |m| ==> KycRank(m[i]) < KycRank(m[j])
  {
    (if !StrTruthy(d.customerName) then [FullName] else [])
    + (if !StrTruthy(d.mobile) then [Mobile] else [])
    + (if !StrTruthy(d.email) then [Email] else [])
    + (if !StrTruthy(d.pan) then [Pan] else [])
    + (if !StrTruthy(d.aadhaar) then [Aadhaar] else [])
  }

  function KycNames(m: seq<KycField>): (r: seq<string>)
    ensures |r| == |m| && forall i :: 0 <= i < |m| ==> r[i] == KycFieldName(m[i])
  {
    seq(|m|, i requires 0 <= i < |m| => KycFieldName(m[i]))
  }

  function KycPrompt(f: KycField): string {
    match f
    case FullName => "Great! Now I need some personal details. What is your full name?"
    case Mobile => "Please enter your mobile number:"
    case Email => "What is your email address?"
    case Pan => "Please enter your PAN number:"
    case Aadhaar => "Please enter your Aadhaar number:"
  }

  const ConsentQuestion: string :=
    "Do you consent to KYC verification and credit bureau checks? This is required to process your loan application."
  const ConsentRefused: string := "We're sorry, but KYC consent is mandatory to proceed."
  const KycFailedMessage: string := "We could not verify your KYC details. Please contact support."
  const FraudMessage: string := "We cannot proceed due to risk signals in verification checks."
  const VerifiedMessage: string := "Verification completed. Proceeding to underwriting."

  function OtpMessage(mobile: string): string {
    "We've sent a 6-digit OTP to " + mobile + ". Please enter it to verify:"
  }

  /** A rejection that ends the run. */
  function Rejection(message: string, reason: string, d: LoanData, log: Option<seq<ToolCall>>): (u: NodeUpdate)
    ensures u.applicationStatus == Some(Status.Rejected) && u.nextStep == Some("END")
    ensures u.rejectionReason == Some(reason)
  {
    NodeUpdate([Ai(message)], Some(d), Some("END"), Some(Stage.Rejected), None, None, log,
               None, Some(Status.Rejected), Some(reason), None, None, None, None)
  }

  /** A question that keeps the run at the verification node. */
  function AskAgain(message: string, d: LoanData, plan: Option<seq<string>>, goal: string,
                    interrupt: Option<Interrupt>): (u: NodeUpdate)
    ensures u.nextStep == Some("verification_agent") && u.applicationStatus.None?
  {
    NodeUpdate([Ai(message)], Some(d), Some("verification_agent"), Some(Verification), plan, Some(goal),
               None, interrupt, None, None, None, None, None, None)
  }

  /** The fraud risk as the node reads it: the assessment's score, or 0 when
      the fraud tool raised. */
  function FraudRisk(network: Option<Neo4j.NetworkReport>): int {
    if network.Some? then Fraud.AnalyzeFraud(network.value).riskScore else 0
  }

  /** The CRM answer as the node reads it; None when the tool raised. */
  function CrmAnswer(d: LoanData, crmRaised: bool): Option<Crm.KycResult> {
    if crmRaised then None else Some(Tools.VerifyKycTool(d.mobile, d.address))
  }

  /** The gates in order: missing details, the OTP, the consent question, a
      refused consent; then the fraud and CRM checks, the CRM verdict before
      the fraud score. */
  function VerificationDecide(s: AgentState, d: LoanData, network: Option<Neo4j.NetworkReport>, crmRaised: bool): NodeUpdate {
    var missing := KycMissing(d);
    if missing != [] then
      AskAgain(KycPrompt(missing[0]), d, Some(BuildPlan(KycNames(missing))), "Collect KYC details", None)
    else if StrTruthy(d.mobile) && !BoolTruthy(d.otpVerified) then
      AskAgain(OtpMessage(d.mobile.value), d, None, "Verify mobile number", Some(OtpRequired))
    else if d.kycConsent.None? then
      AskAgain(ConsentQuestion, d, None, "Capture consent", Some(KycConsent))
    else if d.kycConsent == Some(false) then
      Rejection(ConsentRefused, "KYC consent not provided.", d, None)
    else VerificationChecks(s, d, network, crmRaised)
  }

  /** Past the gates: the fraud and CRM tools are logged, then the CRM
      verdict is read before the fraud score. */
  function VerificationChecks(s: AgentState, d: LoanData, network: Option<Neo4j.NetworkReport>, crmRaised: bool): NodeUpdate {
    var log := LogToolCall(LogToolCall(s.toolCalls, ToolCall("analyze_fraud", network.Some?)),
                           ToolCall("verify_kyc", !crmRaised));
    var crm := CrmAnswer(d, crmRaised);
    if !(crm.Some? && crm.value.status == "verified") then
      Rejection(KycFailedMessage,
                if crm.Some? && crm.value.reason.Some? then crm.value.reason.value else "KYC verification failed.",
                d, Some(log))
    else if FraudRisk(network) > Fraud.RejectAbove then
      Rejection(FraudMessage, "High fraud risk detected.", d, Some(log))
    else
      NodeUpdate([Ai(VerifiedMessage)], Some(d), Some("underwriting_agent"), Some(Underwriting),
                 Some(["Run underwriting checks"]), Some("Underwriting decision"), Some(log),
                 None, None, None, None, None, None, None)
  }

  /** `verification_agent_node` over values. */
  function VerificationAgentSpec(s: AgentState, llm: Option<VerificationExtraction>,
                                 network: Option<Neo4j.NetworkReport>, crmRaised: bool): (LoanData, NodeUpdate) {
    var d := VerificationMerge(s.loanData, LastUserMessage(s.messages), llm.GetOr(EmptyVerificationExtraction));
    (d, VerificationDecide(s, d, network, crmRaised))
  }

  /** Writes what the model extracted, then the OTP and the rule-based fallbacks. */
  method WriteVerificationValues(loan: LoanApplicationDetails, msg: string, ex: VerificationExtraction)
    modifies loan`customerName, loan`mobile, loan`email, loan`pan, loan`aadhaar, loan`kycConsent, loan`otpVerified
    ensures loan.Snapshot() == VerificationMerge(old(loan.Snapshot()), msg, ex)
  {
    WriteModelContact(loan, ex);
    WriteModelKyc(loan, ex);
    ApplyOtpCheck(loan, msg);
    ApplyFallbacks(loan, msg);
  }

  method WriteModelContact(loan: LoanApplicationDetails, ex: VerificationExtraction)
    modifies loan`customerName, loan`mobile, loan`email
    ensures loan.Snapshot() == ModelContact(old(loan.Snapshot()), ex)
  {
    SetModelContact(loan, ex);
  }

  method SetModelContact(loan: LoanApplicationDetails, ex: VerificationExtraction)
    modifies loan`customerName, loan`mobile, loan`email
    ensures loan.customerName == ModelContact(old(loan.Snapshot()), ex).customerName
    ensures loan.mobile == ModelContact(old(loan.Snapshot()), ex).mobile
    ensures loan.email == ModelContact(old(loan.Snapshot()), ex).email
  {
    if StrTruthy(ex.fullName) { loan.customerName := Some(Strip(ex.fullName.value)); }
    if StrTruthy(ex.mobile) { loan.mobile := ex.mobile; }
    if StrTruthy(ex.email) { loan.email := ex.email; }
  }

  method WriteModelKyc(loan: LoanApplicationDetails, ex: VerificationExtraction)
    modifies loan`pan, loan`aadhaar, loan`kycConsent, loan`otpVerified
    ensures loan.Snapshot() == ModelKyc(old(loan.Snapshot()), ex)
  {
    SetModelKyc(loan, ex);
  }

  method SetModelKyc(loan: LoanApplicationDetails, ex: VerificationExtraction)
    modifies loan`pan, loan`aadhaar, loan`kycConsent, loan`otpVerified
    ensures loan.pan == ModelKyc(old(loan.Snapshot()), ex).pan
    ensures loan.aadhaar == ModelKyc(old(loan.Snapshot()), ex).aadhaar
    ensures loan.kycConsent == ModelKyc(old(loan.Snapshot()), ex).kycConsent
    ensures loan.otpVerified == ModelKyc(old(loan.Snapshot()), ex).otpVerified
  {
    if StrTruthy(ex.pan) { loan.pan := ex.pan; }
    if StrTruthy(ex.aadhaar) { loan.aadhaar := ex.aadhaar; }
    if ex.consent.Some? { loan.kycConsent := ex.consent; }
    if StrTruthy(ex.otp) { loan.otpVerified := Some(true); }
  }

  method ApplyOtpCheck(loan: LoanApplicationDetails, msg: string)
    modifies loan`otpVerified
    ensures loan.Snapshot() == OtpCheck(old(loan.Snapshot()), msg)
  {
    if !BoolTruthy(loan.otpVerified) && IsOtpMessage(msg) { loan.otpVerified := Some(true); }
  }

  method ApplyFallbacks(loan: LoanApplicationDetails, msg: string)
    modifies loan`mobile, loan`email, loan`pan, loan`aadhaar
    ensures loan.Snapshot() == ExtractorFallbacks(old(loan.Snapshot()), msg)
  {
    FillFromMessage(loan, msg);
  }

  method FillFromMessage(loan: LoanApplicationDetails, msg: string)
    modifies loan`mobile, loan`email, loan`pan, loan`aadhaar
    ensures loan.mobile == ExtractorFallbacks(old(loan.Snapshot()), msg).mobile
    ensures loan.email == ExtractorFallbacks(old(loan.Snapshot()), msg).email
    ensures loan.pan == ExtractorFallbacks(old(loan.Snapshot()), msg).pan
    ensures loan.aadhaar == ExtractorFallbacks(old(loan.Snapshot()), msg).aadhaar
  {
    if !StrTruthy(loan.mobile) { loan.mobile := ExtractMobile(msg); }
    if !StrTruthy(loan.email) { loan.email := ExtractEmail(msg); }
    if !StrTruthy(loan.pan) { loan.pan := ExtractPan(msg); }
    if !StrTruthy(loan.aadhaar) { loan.aadhaar := ExtractAadhaar(msg); }
  }

  /** The unset identity details, appended one test at a time. */
  method CollectKycMissing(loan: LoanApplicationDetails) returns (missing: seq<KycField>)
    ensures missing == KycMissing(loan.Snapshot())
  {
    ghost var d := loan.Snapshot();
    ghost var e1 := if !StrTruthy(d.customerName) then [FullName] else [];
    ghost var e2 := if !StrTruthy(d.mobile) then [Mobile] else [];
    ghost var e3 := if !StrTruthy(d.email) then [Email] else [];
    ghost var e4 := if !StrTruthy(d.pan) then [Pan] else [];
    missing := [];
    if !StrTruthy(loan.customerName) { missing := missing + [FullName]; }
    assert missing == e1;
    if !StrTruthy(loan.mobile) { missing := missing + [Mobile]; }
    assert missing == e1 + e2;
    if !StrTruthy(loan.email) { missing := missing + [Email]; }
    assert missing == e1 + e2 + e3;
    if !StrTruthy(loan.pan) { missing := missing + [Pan]; }
    assert missing == e1 + e2 + e3 + e4;
    if !StrTruthy(loan.aadhaar) { missing := missing + [Aadhaar]; }
  }

  /** The gates and checks over the merged record. */
  method DecideVerification(s: AgentState, d: LoanData, missing: seq<KycField>,
                            network: Option<Neo4j.NetworkReport>, crmRaised: bool)
    returns (u: NodeUpdate)
    requires missing == KycMissing(d)
    ensures u == VerificationDecide(s, d, network, crmRaised)
  {
    if missing != [] {
      return AskAgain(KycPrompt(missing[0]), d, Some(BuildPlan(KycNames(missing))), "Collect KYC details", None);
    }
    if StrTruthy(d.mobile) && !BoolTruthy(d.otpVerified) {
      return AskAgain(OtpMessage(d.mobile.value), d, None, "Verify mobile number", Some(OtpRequired));
    }
    if d.kycConsent.None? {
      return AskAgain(ConsentQuestion, d, None, "Capture consent", Some(KycConsent));
    }
    if d.kycConsent == Some(false) {
      return Rejection(ConsentRefused, "KYC consent not provided.", d, None);
    }
    u := RunVerificationChecks(s, d, network, crmRaised);
  }

  /** Logs the two tools, asks the CRM unless the call raised, scores the
      network when there is one, and decides. */
  method RunVerificationChecks(s: AgentState, d: LoanData, network: Option<Neo4j.NetworkReport>, crmRaised: bool)
    returns (u: NodeUpdate)
    ensures u == VerificationChecks(s, d, network, crmRaised)
  {
    var toolCalls := s.toolCalls;
    toolCalls := LogToolCall(toolCalls, ToolCall("analyze_fraud", network.Some?));
    var risk := 0;
    if network.Some? {
      var report := Fraud.AnalyzeFraud(network.value);
      risk := report.riskScore;
    }
    toolCalls := LogToolCall(toolCalls, ToolCall("verify_kyc", !crmRaised));
    var crm: Option<Crm.KycResult> := None;
    if !crmRaised {
      crm := Some(Tools.VerifyKycTool(d.mobile, d.address));
    }

    if !(crm.Some? && crm.value.status == "verified") {
      var reason := if crm.Some? && crm.value.reason.Some? then crm.value.reason.value else "KYC verification failed.";
      return Rejection(KycFailedMessage, reason, d, Some(toolCalls));
    }
    if risk > Fraud.RejectAbove {
      return Rejection(FraudMessage, "High fraud risk detected.", d, Some(toolCalls));
    }
    u := NodeUpdate([Ai(VerifiedMessage)], Some(d), Some("underwriting_agent"), Some(Underwriting),
                    Some(["Run underwriting checks"]), Some("Underwriting decision"), Some(toolCalls),
                    None, None, None, None, None, None, None);
  }

  /** The verification node updates the record in place and returns its update. */
  method VerificationAgentNode(s: AgentState, loan: LoanApplicationDetails, llm: Option<VerificationExtraction>,
                               network: Option<Neo4j.NetworkReport>, crmRaised: bool)
    returns (u: NodeUpdate)
    requires loan.Snapshot() == s.loanData
    modifies loan
    ensures (loan.Snapshot(), u) == VerificationAgentSpec(s, llm, network, crmRaised)
  {
    var msg := FindLastUserMessage(s.messages);
    var ex := if llm.Some? then llm.value else EmptyVerificationExtraction;
    WriteVerificationValues(loan, msg, ex);
    var missing := CollectKycMissing(loan);
    u := DecideVerification(s, loan.Snapshot(), missing, network, crmRaised);
  }

  /** The gate order. With a detail missing the node asks for the first one
      and raises no interrupt; then an unverified mobile raises the OTP
      interrupt; then a consent never given raises the consent interrupt; a
      refused consent rejects the application. */
  lemma {:induction false} VerificationGateOrder(s: AgentState, d: LoanData, network: Option<Neo4j.NetworkReport>, crmRaised: bool)
    ensures var u := VerificationDecide(s, d, network, crmRaised);
      var missing := KycMissing(d);
      (missing != [] ==> u.messages == [Ai(KycPrompt(missing[0]))] && u.interruptSignal.None?
                         && u.applicationStatus.None? && u.toolCalls.None?)
      && (missing == [] && !BoolTruthy(d.otpVerified) ==>
            u.interruptSignal == Some(OtpRequired) && u.messages == [Ai(OtpMessage(d.mobile.value))])
      && (missing == [] && BoolTruthy(d.otpVerified) && d.kycConsent.None? ==> u.interruptSignal == Some(KycConsent))
      && (missing == [] && BoolTruthy(d.otpVerified) && d.kycConsent == Some(false) ==>
            u.applicationStatus == Some(Status.Rejected) && u.rejectionReason == Some("KYC consent not provided.")
            && u.toolCalls.None?)
  {
    var missing := KycMissing(d);
    if missing == [] {
      assert Mobile !in missing;
    }
  }

  /** The checks fail closed: the run reaches underwriting only when the CRM
      tool ran and verified the customer and the fraud score is at most 70.
      A CRM failure is reported before any fraud finding. */
  lemma {:induction false} VerificationPassesOnlyWhenChecked(s: AgentState, d: LoanData, network: Option<Neo4j.NetworkReport>, crmRaised: bool)
    ensures var u := VerificationDecide(s, d, network, crmRaised);
      (u.nextStep == Some("underwriting_agent") <==>
        KycMissing(d) == [] && BoolTruthy(d.otpVerified) && d.kycConsent == Some(true)
        && !crmRaised && !Crm.IsPlaceholder(StrOr(d.mobile, ""), StrOr(d.address, ""))
        && FraudRisk(network) <= Fraud.RejectAbove)
      && (KycMissing(d) == [] && BoolTruthy(d.otpVerified) && d.kycConsent == Some(true) && crmRaised ==>
            u.rejectionReason == Some("KYC verification failed."))
  {
    var missing := KycMissing(d);
    if missing == [] {
      assert Mobile !in missing;
    }
    assert "verification_agent" != "underwriting_agent" by {
      assert "verification_agent"[0] != "underwriting_agent"[0];
    }
    if d.kycConsent.Some? && d.kycConsent != Some(false) {
      assert d.kycConsent == Some(d.kycConsent.value);
      assert d.kycConsent.value;
      assert d.kycConsent == Some(true);
    }
    if missing == [] && BoolTruthy(d.otpVerified) && d.kycConsent == Some(true) && !crmRaised {
      var r := Crm.VerifyKyc(StrOr(d.mobile, ""), StrOr(d.address, ""));
      assert CrmAnswer(d, crmRaised) == Some(r);
      if Crm.IsPlaceholder(StrOr(d.mobile, ""), StrOr(d.address, "")) {
        assert r.status == "failed";
        assert r.status != "verified";
      }
    }
  }

  /** A network report linking the phone to a known fraudster stops an
      otherwise verified customer. */
  lemma {:induction false} FraudsterIsStopped(s: AgentState, d: LoanData, c: Neo4j.NetworkCounts)
    requires KycMissing(d) == [] && BoolTruthy(d.otpVerified) && d.kycConsent == Some(true)
    requires !Crm.IsPlaceholder(StrOr(d.mobile, ""), StrOr(d.address, ""))
    requires c.linkedFraudsters > 0
    ensures VerificationDecide(s, d, Some(Neo4j.Score([c])), false).rejectionReason == Some("High fraud risk detected.")
  {
    Fraud.RejectIffFraudster(c);
    VerificationPassesOnlyWhenChecked(s, d, Some(Neo4j.Score([c])), false);
  }

  /** The step the verification node writes while it still collects details
      is not a key of its routing map, and neither is the step the
      underwriting node writes while it waits for documents. */
  lemma {:induction false} WaitingStepsHaveNoEdge(s: AgentState, d: LoanData, network: Option<Neo4j.NetworkReport>, crmRaised: bool)
    requires KycMissing(d) != []
    ensures var u := VerificationDecide(s, d, network, crmRaised);
      Workflow.Route(Workflow.VerificationAgent, u.nextStep).None?
    ensures Workflow.Route(Workflow.UnderwritingAgent, Some("underwriting_agent")).None?
  {
    assert VerificationDecide(s, d, network, crmRaised).nextStep == Some("verification_agent") by {
      CollectingAsksAgain(s, d, network, crmRaised);
    }
    WaitingKeysAbsent();
  }

  lemma {:induction false} CollectingAsksAgain(s: AgentState, d: LoanData, network: Option<Neo4j.NetworkReport>, crmRaised: bool)
    requires KycMissing(d) != []
    ensures VerificationDecide(s, d, network, crmRaised).nextStep == Some("verification_agent")
  {
  }

  lemma {:induction false} WaitingKeysAbsent()
    ensures Workflow.Route(Workflow.VerificationAgent, Some("verification_agent")).None?
    ensures Workflow.Route(Workflow.UnderwritingAgent, Some("underwriting_agent")).None?
  {
    assert "verification_agent" !in Workflow.EdgeMap(Workflow.VerificationAgent) by {
      assert "verification_agent"[0] == 'v';
      assert "underwriting_agent"[0] == 'u' && "reflection"[0] == 'r' && "END"[0] == 'E';
    }
    assert "underwriting_agent" !in Workflow.EdgeMap(Workflow.UnderwritingAgent) by {
      assert "underwriting_agent"[0] == 'u';
      assert "sales_agent"[0] == 's' && "document_collection"[0] == 'd';
      assert "closure"[0] == 'c' && "END"[0] == 'E';
    }
  }

  // ---------------------------------------------------------------- underwriting node

  /** Python's `<` on strings: code point by code point, a proper prefix first. */
  predicate LexLess(a: string, b: string)
    decreases |a|
  {
    if a == [] then b != []
    else if b == [] then false
    else a[0] < b[0] || (a[0] == b[0] && LexLess(a[1..], b[1..]))
  }

  predicate StrictlySorted(xs: seq<string>) {
    forall i, j :: 0 <= i < j < |xs| ==> LexLess(xs[i], xs[j])
  }

  /** Every document type the underwriting node may ask for, in ascending order. */
  const DocumentTypes: seq<string> := ["address_proof", "bank_statement", "salary_slip", "selfie_pan"]

  lemma {:induction false} DocumentTypesSorted()
    ensures StrictlySorted(DocumentTypes)
  {
    LexLessByHead("address_proof", "bank_statement");
    LexLessByHead("address_proof", "salary_slip");
    LexLessByHead("address_proof", "selfie_pan");
    LexLessByHead("bank_statement", "salary_slip");
    LexLessByHead("bank_statement", "selfie_pan");
    LexLessBySecond("salary_slip", "selfie_pan");
  }

  lemma {:induction false} LexLessByHead(a: string, b: string)
    requires a != [] && b != [] && a[0] < b[0]
    ensures LexLess(a, b)
  {
  }

  lemma {:induction false} LexLessBySecond(a: string, b: string)
    requires |a| >= 2 && |b| >= 2 && a[0] == b[0] && a[1] < b[1]
    ensures LexLess(a, b)
  {
    assert LexLess(a[1..], b[1..]);
  }

  /** The documents required: salary slip and bank statement, plus address
      proof and a selfie with the PAN card above an amount of 5,00,000. */
  function RequiredDocuments(d: LoanData): (r: set<string>)
    ensures forall x :: x in r ==> x in DocumentTypes
  {
    {"salary_slip", "bank_statement"}
    + (if RealTruthy(d.requestedAmount) && d.requestedAmount.value > 500000.0
       then {"address_proof", "selfie_pan"} else {})
  }

  /** The types of the documents received. */
  function ReceivedTypes(d: LoanData): set<string> {
    set i | 0 <= i < |d.documentsReceived| && d.documentsReceived[i].Some? :: d.documentsReceived[i].value
  }

  /** The elements of `xs` that are in `keep`, in the order of `xs`. */
  function KeepIn(xs: seq<string>, keep: set<string>): (r: seq<string>)
    ensures forall x :: x in r <==> x in xs && x in keep
    ensures |r| <= |xs|
    decreases |xs|
  {
    if xs == [] then []
    else if xs[0] in keep then [xs[0]] + KeepIn(xs[1..], keep)
    else KeepIn(xs[1..], keep)
  }

  /** Filtering keeps a strictly ascending list strictly ascending. */
  lemma {:induction false} KeepInSorted(xs: seq<string>, keep: set<string>)
    requires StrictlySorted(xs)
    ensures StrictlySorted(KeepIn(xs, keep))
    decreases |xs|
  {
    if xs != [] {
      var tail := xs[1..];
      assert StrictlySorted(tail) by {
        forall i, j | 0 <= i < j < |tail| ensures LexLess(tail[i], tail[j]) {
          assert tail[i] == xs[i + 1] && tail[j] == xs[j + 1];
        }
      }
      KeepInSorted(tail, keep);
      var rest := KeepIn(tail, keep);
      if xs[0] in keep {
        var r := [xs[0]] + rest;
        forall i, j | 0 <= i < j < |r| ensures LexLess(r[i], r[j]) {
          if i == 0 {
            assert r[j] == rest[j - 1];
            assert rest[j - 1] in tail;
            var k :| 0 <= k < |tail| && tail[k] == rest[j - 1];
            assert xs[k + 1] == tail[k];
          } else {
            assert r[i] == rest[i - 1] && r[j] == rest[j - 1];
          }
        }
      }
    }
  }

  /** `sorted(required - received)`: exactly the required types not yet
      received, in ascending order. */
  function MissingDocuments(d: LoanData): (m: seq<string>)
    ensures forall x :: x in m <==> x in RequiredDocuments(d) && x !in ReceivedTypes(d)
    ensures StrictlySorted(m)
  {
    DocumentTypesSorted();
    KeepInSorted(DocumentTypes, RequiredDocuments(d) - ReceivedTypes(d));
    KeepIn(DocumentTypes, RequiredDocuments(d) - ReceivedTypes(d))
  }

  /** Above 5,00,000 with nothing uploaded, all four documents are asked for. */
  lemma {:induction false} HighAmountNeedsAllDocuments(d: LoanData)
    requires RealTruthy(d.requestedAmount) && d.requestedAmount.value > 500000.0
    requires d.documentsReceived == []
    ensures MissingDocuments(d) == DocumentTypes
  {
    var keep := RequiredDocuments(d) - ReceivedTypes(d);
    assert ReceivedTypes(d) == {};
    assert keep == {"salary_slip", "bank_statement", "address_proof", "selfie_pan"};
    var xs := DocumentTypes;
    assert xs[0] in keep && xs[1] in keep && xs[2] in keep && xs[3] in keep;
    assert xs[1..][1..][1..][1..] == [];
    assert KeepIn(xs[1..][1..][1..], keep) == [xs[3]];
    assert KeepIn(xs[1..][1..], keep) == [xs[2], xs[3]];
    assert KeepIn(xs[1..], keep) == [xs[1], xs[2], xs[3]];
  }

  /** Up to 5,00,000, only the salary slip and bank statement are required. */
  lemma {:induction false} ModestAmountNeedsTwoDocuments(d: LoanData)
    requires !(RealTruthy(d.requestedAmount) && d.requestedAmount.value > 500000.0)
    ensures RequiredDocuments(d) == {"salary_slip", "bank_statement"}
    ensures "address_proof" !in MissingDocuments(d) && "selfie_pan" !in MissingDocuments(d)
  {
  }

  /** The decision: approved, unless a set credit score is below 650 (manual
      review) or a set affordability ratio exceeds 0.6 (rejected), the
      ratio prevailing. */
  datatype Decision = Decision(status: Status, confidence: real, reasoning: string)

  predicate RatioTooHigh(d: LoanData) { RealTruthy(d.affordabilityRatio) && d.affordabilityRatio.value > 0.6 }
  predicate ScoreTooLow(d: LoanData) { IntTruthy(d.creditScore) && d.creditScore.value < 650 }

  function Decide(d: LoanData): (r: Decision)
    ensures r.status == Status.Rejected <==> RatioTooHigh(d)
    ensures r.status == ManualReview <==> !RatioTooHigh(d) && ScoreTooLow(d)
    ensures r.status == Approved <==> !RatioTooHigh(d) && !ScoreTooLow(d)
    ensures r.status == Status.Rejected || r.status == ManualReview || r.status == Approved
  {
    var r0 := Decision(Approved, 0.72, "Income and credit profile within acceptable range.");
    var r1 := if ScoreTooLow(d) then Decision(ManualReview, 0.55, "Credit score below preferred threshold.") else r0;
    if RatioTooHigh(d) then Decision(Status.Rejected, 0.8, "Affordability ratio too high.") else r1
  }

  /** The credit bureau's score (kept as it was when the bureau call raised),
      the instalment at the default rate, and, when an instalment and an
      income are set, their ratio to four places and the affordability check. */
  function UnderwritingTools(d: LoanData, log: seq<ToolCall>, credit: Option<int>): (r: (LoanData, seq<ToolCall>))
    requires RealTruthy(d.requestedAmount) && IntTruthy(d.tenureMonths)
    ensures r.0.requestedAmount == d.requestedAmount && r.0.monthlyIncome == d.monthlyIncome
    ensures r.0.documentsReceived == d.documentsReceived
    ensures credit.Some? ==> r.0.creditScore == credit
    ensures credit.None? ==> r.0.creditScore == d.creditScore
  {
    var d1 := if credit.Some? then d.(creditScore := credit) else d;
    var log1 := LogToolCall(log, ToolCall("fetch_credit_score", credit.Some?));
    var q := Tools.CalculateEmiTool(d1.requestedAmount.value, d1.tenureMonths.value, Tools.DefaultToolRate);
    var d2 := if q.Some? then d1.(calculatedEmi := Some(q.value.emi)) else d1;
    var log2 := LogToolCall(log1, ToolCall("calculate_emi", q.Some?));
    if RealTruthy(d2.calculatedEmi) && RealTruthy(d2.monthlyIncome) then
      var ratio := RoundTo(d2.calculatedEmi.value / d2.monthlyIncome.value, 4);
      var report := Tools.CheckAffordability(d2.monthlyIncome.value, RealOrZero(d2.existingEmis), d2.calculatedEmi.value);
      (d2.(affordabilityRatio := Some(ratio)), LogToolCall(log2, ToolCall("check_affordability", report.Some?)))
    else (d2, log2)
  }

  const NeedInputsMessage: string := "I still need your income, loan amount, and tenure to complete underwriting."
  const UploadMessage: string := "Please upload required documents to proceed with underwriting."
  const ApprovedMessage: string := "Great news! Your loan has been approved. Generating your sanction letter."
  const DeclinedMessage: string := "We cannot approve this request based on the underwriting review."
  const ManualReviewMessage: string := "Your application needs manual review. We will update you shortly."

  predicate HasUnderwritingInputs(d: LoanData) {
    RealTruthy(d.monthlyIncome) && RealTruthy(d.requestedAmount) && IntTruthy(d.tenureMonths)
  }

  /** The update after a decision. */
  function DecisionUpdate(d: LoanData, log: seq<ToolCall>, dec: Decision, now: int, uuidHex: string, documentHash: string): (u: NodeUpdate)
    requires |uuidHex| >= 8
    ensures u.nextStep == Some("END") && u.applicationStatus.Some? && u.interruptSignal.None?
    ensures u.loanData == Some(d) && u.toolCalls == Some(log)
    ensures dec.status in {Approved, Status.Rejected, ManualReview} ==> u.applicationStatus == Some(dec.status)
    ensures u.sanctionLetter.Some? <==> dec.status == Approved
    ensures u.sanctionLetter.Some? ==>
      u.sanctionLetter.value == SanctionService.GenerateSanctionLetterData(d, SanctionService.DefaultInterestRate, now, uuidHex, documentHash)
    ensures u.rejectionReason.Some? <==> dec.status == Status.Rejected
  {
    match dec.status
    case Approved =>
      NodeUpdate([Ai(ApprovedMessage)], Some(d), Some("END"), Some(Closure), None, None, Some(log), None,
                 Some(Approved), None,
                 Some(SanctionService.GenerateSanctionLetterData(d, SanctionService.DefaultInterestRate, now, uuidHex, documentHash)),
                 Some(dec.reasoning), Some("approve"), Some(dec.confidence))
    case Rejected =>
      NodeUpdate([Ai(DeclinedMessage)], Some(d), Some("END"), Some(Stage.Rejected), None, None, Some(log), None,
                 Some(Status.Rejected), Some(dec.reasoning), None,
                 Some(dec.reasoning), Some("reject"), Some(dec.confidence))
    case _ =>
      NodeUpdate([Ai(ManualReviewMessage)], Some(d), Some("END"), Some(Closure), None, None, Some(log), None,
                 Some(ManualReview), None, None,
                 Some(dec.reasoning), Some("manual_review"), Some(dec.confidence))
  }

  /** The update sending the run back to sales for its inputs. */
  function NeedInputsUpdate(d: LoanData): (u: NodeUpdate)
    ensures u.nextStep == Some("sales_agent") && u.loanData == Some(d) && u.toolCalls.None?
  {
    NodeUpdate([Ai(NeedInputsMessage)], Some(d), Some("sales_agent"), Some(Discovery),
               None, None, None, None, None, None, None, None, None, None)
  }

  /** The update asking for the missing documents, with the upload interrupt. */
  function UploadUpdate(d: LoanData, log: seq<ToolCall>, missing: seq<string>): (u: NodeUpdate)
    ensures u.interruptSignal == Some(DocumentUpload(missing)) && u.applicationStatus == Some(AwaitingDocuments)
    ensures u.loanData == Some(d) && u.toolCalls == Some(log)
  {
    NodeUpdate([Ai(UploadMessage)], Some(d), Some("underwriting_agent"), Some(Underwriting),
               None, Some("Collect documents"), Some(log), Some(DocumentUpload(missing)),
               Some(AwaitingDocuments), None, None, None, None, None)
  }

  /** `underwriting_agent_node` over values. */
  function UnderwritingAgentSpec(s: AgentState, credit: Option<int>, now: int, uuidHex: string, documentHash: string): (LoanData, NodeUpdate)
    requires |uuidHex| >= 8
  {
    var d := s.loanData;
    if !HasUnderwritingInputs(d) then (d, NeedInputsUpdate(d))
    else
      var r := UnderwritingTools(d, s.toolCalls, credit);
      var missing := MissingDocuments(r.0);
      if missing != [] then
        var d2 := r.0.(documentsRequested := missing);
        (d2, UploadUpdate(d2, r.1, missing))
      else
        (r.0, DecisionUpdate(r.0, r.1, Decide(r.0), now, uuidHex, documentHash))
  }

  /** Fetches the score, computes the instalment and, when it can, the
      affordability ratio, all on the record. */
  method RunUnderwritingTools(loan: LoanApplicationDetails, log: seq<ToolCall>, credit: Option<int>)
    returns (toolCalls: seq<ToolCall>)
    requires RealTruthy(loan.requestedAmount) && IntTruthy(loan.tenureMonths)
    modifies loan`creditScore, loan`calculatedEmi, loan`affordabilityRatio
    ensures loan.creditScore == UnderwritingTools(old(loan.Snapshot()), log, credit).0.creditScore
    ensures loan.calculatedEmi == UnderwritingTools(old(loan.Snapshot()), log, credit).0.calculatedEmi
    ensures loan.affordabilityRatio == UnderwritingTools(old(loan.Snapshot()), log, credit).0.affordabilityRatio
    ensures toolCalls == UnderwritingTools(old(loan.Snapshot()), log, credit).1
  {
    toolCalls := LogToolCall(log, ToolCall("fetch_credit_score", credit.Some?));
    if credit.Some? {
      loan.creditScore := credit;
    }
    var quote := Tools.CalculateEmiTool(loan.requestedAmount.value, loan.tenureMonths.value, Tools.DefaultToolRate);
    toolCalls := LogToolCall(toolCalls, ToolCall("calculate_emi", quote.Some?));
    if quote.Some? {
      loan.calculatedEmi := Some(quote.value.emi);
    }
    if RealTruthy(loan.calculatedEmi) && RealTruthy(loan.monthlyIncome) {
      loan.affordabilityRatio := Some(RoundTo(loan.calculatedEmi.value / loan.monthlyIncome.value, 4));
      var report := Tools.CheckAffordability(loan.monthlyIncome.value, RealOrZero(loan.existingEmis), loan.calculatedEmi.value);
      toolCalls := LogToolCall(toolCalls, ToolCall("check_affordability", report.Some?));
    }
  }

  /** Runs the tools and states the record and log they leave. */
  method ApplyUnderwritingTools(loan: LoanApplicationDetails, log: seq<ToolCall>, credit: Option<int>)
    returns (toolCalls: seq<ToolCall>)
    requires RealTruthy(loan.requestedAmount) && IntTruthy(loan.tenureMonths)
    modifies loan`creditScore, loan`calculatedEmi, loan`affordabilityRatio
    ensures (loan.Snapshot(), toolCalls) == UnderwritingTools(old(loan.Snapshot()), log, credit)
  {
    toolCalls := RunUnderwritingTools(loan, log, credit);
  }

  /** The underwriting node updates the record in place and returns its update. */
  method UnderwritingAgentNode(s: AgentState, loan: LoanApplicationDetails, credit: Option<int>,
                               now: int, uuidHex: string, documentHash: string)
    returns (u: NodeUpdate)
    requires loan.Snapshot() == s.loanData
    requires |uuidHex| >= 8
    modifies loan
    ensures (loan.Snapshot(), u) == UnderwritingAgentSpec(s, credit, now, uuidHex, documentHash)
  {
    if !RealTruthy(loan.monthlyIncome) || !RealTruthy(loan.requestedAmount) || !IntTruthy(loan.tenureMonths) {
      return NeedInputsUpdate(loan.Snapshot());
    }
    var toolCalls := ApplyUnderwritingTools(loan, s.toolCalls, credit);
    var missingDocs := MissingDocuments(loan.Snapshot());
    if missingDocs != [] {
      loan.documentsRequested := missingDocs;
      return UploadUpdate(loan.Snapshot(), toolCalls, missingDocs);
    }
    var decision := Decide(loan.Snapshot());
    u := DecisionUpdate(loan.Snapshot(), toolCalls, decision, now, uuidHex, documentHash);
  }

  /** Without income, amount and tenure the node sends the run back to sales
      and changes nothing. */
  lemma {:induction false} UnderwritingNeedsInputs(s: AgentState, credit: Option<int>, now: int, uuidHex: string, documentHash: string)
    requires |uuidHex| >= 8
    requires !HasUnderwritingInputs(s.loanData)
    ensures var (d, u) := UnderwritingAgentSpec(s, credit, now, uuidHex, documentHash);
      d == s.loanData && u.nextStep == Some("sales_agent") && u.toolCalls.None?
      && Workflow.Route(Workflow.UnderwritingAgent, u.nextStep) == Some(Workflow.Goto(Workflow.SalesAgent))
  {
  }

  /** With inputs present, the node decides only once every required
      document has arrived; otherwise it records and asks for the missing
      ones, in ascending order, through a document-upload interrupt. */
  lemma {:induction false} DocumentsBeforeDecision(s: AgentState, credit: Option<int>, now: int, uuidHex: string, documentHash: string)
    requires |uuidHex| >= 8
    requires HasUnderwritingInputs(s.loanData)
    ensures var (d, u) := UnderwritingAgentSpec(s, credit, now, uuidHex, documentHash);
      var missing := MissingDocuments(UnderwritingTools(s.loanData, s.toolCalls, credit).0);
      (missing != [] <==> u.interruptSignal.Some?)
      && (missing != [] ==> u.interruptSignal == Some(DocumentUpload(missing)) && d.documentsRequested == missing
                            && u.applicationStatus == Some(AwaitingDocuments) && StrictlySorted(missing))
      && (missing == [] ==> u.applicationStatus.Some? && u.nextStep == Some("END")
                            && RequiredDocuments(d) <= ReceivedTypes(d))
  {
    var r := UnderwritingTools(s.loanData, s.toolCalls, credit);
    var missing := MissingDocuments(r.0);
    if missing == [] {
      forall x | x in RequiredDocuments(r.0) ensures x in ReceivedTypes(r.0) {
        assert x !in missing;
      }
    }
  }

  /** A sanction letter is issued exactly on approval, and a rejection reason
      is written exactly on rejection; the decision follows the rules. */
  lemma {:induction false} LetterOnlyOnApproval(s: AgentState, credit: Option<int>, now: int, uuidHex: string, documentHash: string)
    requires |uuidHex| >= 8
    ensures var (d, u) := UnderwritingAgentSpec(s, credit, now, uuidHex, documentHash);
      (u.sanctionLetter.Some? <==> u.applicationStatus == Some(Approved))
      && (u.rejectionReason.Some? <==> u.applicationStatus == Some(Status.Rejected))
      && (u.applicationStatus == Some(Status.Rejected) ==> RatioTooHigh(d))
      && (u.applicationStatus == Some(Approved) ==> (!RatioTooHigh(d) && !ScoreTooLow(d)
            && u.sanctionLetter.value.loanDetails.amount == d.requestedAmount.value))
  {
  }

  /** With inputs and documents in place and a ratio within bounds, a bureau
      score below 650 means manual review. The score is an input here: the
      stock bureau of credit_bureau.py:7-9 computes `650 + int(base/255*250)`
      with `base` in 0..255 and so never returns less than 650, which leaves
      this branch unreachable with it. */
  lemma {:induction false} LowScoreGoesToReview(s: AgentState, score: int, now: int, uuidHex: string, documentHash: string)
    requires |uuidHex| >= 8
    requires HasUnderwritingInputs(s.loanData)
    requires 0 < score < 650
    requires MissingDocuments(UnderwritingTools(s.loanData, s.toolCalls, Some(score)).0) == []
    requires !RatioTooHigh(UnderwritingTools(s.loanData, s.toolCalls, Some(score)).0)
    ensures UnderwritingAgentSpec(s, Some(score), now, uuidHex, documentHash).1.applicationStatus == Some(ManualReview)
  {
  }

  // ---------------------------------------------------------------- reflection node

  const DefaultMaxReflections: int := 3

  /** `reflection_node`: at the limit it ends the run, keeping the stage
      (closure when none is stored); below it, it passes the stored step on
      (sales when none is stored). */
  function ReflectionNode(s: AgentState): (u: NodeUpdate)
    ensures s.reflectionCount >= s.maxReflections.GetOr(DefaultMaxReflections) ==>
      u.nextStep == Some("END") && u.dialogueStage == Some(s.dialogueStage.GetOr(Closure))
    ensures s.reflectionCount < s.maxReflections.GetOr(DefaultMaxReflections) ==>
      u.nextStep == Some(s.nextStep.GetOr("sales_agent")) && u.dialogueStage.None?
    ensures u.loanData.None? && u.interruptSignal.None? && u.applicationStatus.None? && |u.messages| == 1
  {
    if s.reflectionCount >= s.maxReflections.GetOr(DefaultMaxReflections) then
      NodeUpdate([Ai("Ending due to reflection limit.")], None, Some("END"), Some(s.dialogueStage.GetOr(Closure)),
                 None, None, None, None, None, None, None, None, None, None)
    else
      NodeUpdate([Ai("Reviewing the previous step to ensure everything is on track.")], None,
                 Some(s.nextStep.GetOr("sales_agent")), None,
                 None, None, None, None, None, None, None, None, None, None)
  }

  /** Since no node writes the reflection count, a run that starts at count
      0 with the default limit never reaches the limit, whatever updates
      come before the reflection node. */
  lemma {:induction false} ReflectionLimitNeverReached(s: AgentState, us: seq<NodeUpdate>)
    requires s.reflectionCount == 0 && s.maxReflections == Some(DefaultMaxReflections)
    ensures var t := ApplyAll(s, us);
      ReflectionNode(t).nextStep == Some(t.nextStep.GetOr("sales_agent"))
  {
    ReflectionCountFrozen(s, us);
    MaxReflectionsFrozen(s, us);
  }

  lemma {:induction false} MaxReflectionsFrozen(s: AgentState, us: seq<NodeUpdate>)
    ensures ApplyAll(s, us).maxReflections == s.maxReflections
    decreases |us|
  {
    if us != [] {
      MaxReflectionsFrozen(ApplyUpdate(s, us[0]), us[1..]);
    }
  }
}
