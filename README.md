# Loan application workflow — a Dafny model

This project models the decision logic of a conversational personal-loan application system. A customer chats with an assistant, which gathers the loan basics (employment type, income, amount, tenure, purpose), the identity details (name, mobile, e-mail, PAN, Aadhaar), an OTP and KYC consent. It then runs KYC, fraud and credit checks, asks for documents, and ends in approval with a sanction letter, manual review or rejection.

The model covers four parts of the system, one Dafny module per source file:

- **The graph engine** (`backend/app/graph`, `backend/app/models/state.py`, `backend/app/main.py`):
  - the application record and its derived predicates;
  - the way a node's update is merged into the graph state;
  - the routing table;
  - the sales, verification, underwriting and reflection nodes, with the rule-based extractors they fall back on;
  - how one chat turn's response is shaped from the states the graph emits.

  Each node updates the application record in place. It is a method on the `LoanApplicationDetails` class, proved equal to a value-level function about which the properties are stated.
- **The legacy session engine** (`backend/app/agents`, `backend/app/services/session_store.py`):
  - the stage dispatcher of `MasterAgent`;
  - the sales, verification and underwriting handlers, each with its deterministic fallback and its mapping from a model decision to a status;
  - the sanction-letter derivation;
  - the keyed session store.

  The handlers mutate a `SessionState` record; here they are methods on a class, each proved equal to a function over session values.
- **The deterministic services** (`backend/app/services`):
  - the amortised instalment;
  - the sanction figures;
  - the amount, tenure and phone parsers;
  - FOIR affordability and purpose categorisation;
  - the pre-approved offer lookup;
  - the document-verification decision tree;
  - the CRM stub, the fraud assessment, the fraud-network score and the credit evaluation.
- **The frontend loan flow** (`lib/loan-flow`, `lib/hooks`):
  - the reducer with its step history;
  - the twenty-step conversation table;
  - the validators;
  - the offer, fee and rate arithmetic;
  - the masking helpers and mock services;
  - the document-upload hook;
  - the chat hook, including its server-sent-event framing and `localStorage` identifiers.

Whatever lies outside the process is a parameter:
- the language model's structured replies (`None` when the call fails);
- the credit bureau's score, the fraud network's rows and the CRM tool's failure;
- the clock, UUIDs and document hashes;
- the PDF text.

Money and ratios are exact reals. Python's `round` (half to even) and JavaScript's `Math.round` are written out in `Numeric`.

Where the design description and the code disagree, the model follows the code:
- The verification node asks for e-mail, PAN and Aadhaar before it raises the OTP interrupt.
- The underwriting node fetches the bureau score on every run. The legacy handler caches it.
- The underwriting rules are a score below 650 (manual review) and an affordability ratio above 0.6 (rejection). The design's 700-point and twice-the-limit rules are not in the code.
- The routing table is partial (`Workflow.SelfStepsHaveNoEdge`, `Nodes.WaitingStepsHaveNoEdge`).
- No node clears an interrupt or writes the reflection count (`Graph.InterruptNeverCleared`, `Graph.ReflectionCountFrozen`). So a thread with a stored interrupt answers every later message the same way until it is reset (`Api.StoredInterruptBlocksTurns`, `Api.ResetUnblocksThread`).
- The field bounds of `LoanApplicationDetails` are checked at construction only. Pydantic does not validate assignments, so the bounds are proved for the default record and not kept as an invariant.
- The legacy agents read and append `session.history`, which the `SessionState` dataclass never declares. The model gives the record that list, empty at first. The turn as written, which raises AttributeError, is `MasterAgent.HandleMessageAsWritten` (see Findings).
- The document verifier reads `settings.strict_document_verification`, which the settings class never declares. It is a boolean parameter here.
- The Next.js chat route returns one JSON object, not an event stream, so the chat hook's framer finds no frames in it (`AgentChat.NoSeparatorNoFrames`).
- The backend's token events carry `content`, but the hook adds the text that `${parsed.value}` renders. The parse parameter yields that text, so the model leaves open what a backend token adds (`undefined` included).

## Model

| member | source | states |
|---|---|---|
| LoanState.DefaultLoanData | backend/app/models/state.py:8-59 | a new record is within the declared field bounds, has existing EMIs 0, no documents, and no amount, income or tenure |
| LoanState.RiskIndicators | backend/app/models/state.py:71-85 | each indicator appears exactly when its condition holds (DTI above 50, a truthy score below 650, unemployed, requested amount above ten times the monthly income), and they appear in test order without repeats |
| LoanState.DefaultIsEmpty | backend/app/models/state.py:62-85 | a new record is not complete and shows no risk |
| LoanState.LoanApplicationDetails.constructor | backend/app/models/state.py:8-59 | the mutable record starts as the default record |
| NodeExtract.NumberTokenEnd | backend/app/graph/nodes.py:61 | the match of `\d[\d,]*\.?\d*` from a digit is non-empty, holds only amount characters and at most one dot once commas are removed |
| NodeExtract.ExtractNumber | backend/app/graph/nodes.py:58-67 | a number is found exactly when the text, with the rupee sign and "rs" removed, holds a digit; it is non-negative |
| NodeExtract.TokenParses | backend/app/graph/nodes.py:61-65 | every token the pattern matches is accepted by Python `float` once commas are removed, so the `ValueError` branch is never taken |
| NodeExtract.NumberRoundTrip | backend/app/graph/nodes.py:58-67 | a numeral is read back as its value |
| NodeExtract.FindNumberUnit | backend/app/graph/nodes.py:73-77 | a match found starts at a digit inside the text |
| NodeExtract.FindNumberUnitIsLeftmost | backend/app/graph/nodes.py:73-77 | the search returns the leftmost match of `(\d+)\s*(unit)\b`, and none exactly when there is no match |
| NodeExtract.ExtractTenureMonths | backend/app/graph/nodes.py:70-79 | empty text gives nothing; a tenure found is non-negative |
| NodeExtract.TenureByMonths | backend/app/graph/nodes.py:73-75 | a month match is read as its number of months |
| NodeExtract.TenureByYears | backend/app/graph/nodes.py:76-78 | with no month match, a year match is read as twelve months per year |
| NodeExtract.TenureMonthsRoundTrip | backend/app/graph/nodes.py:70-79 | "n months" reads back as n and "n years" as 12 n |
| NodeExtract.ExtractEmploymentType | backend/app/graph/nodes.py:82-94 | the answer is one of the four types; salaried exactly when the lowered text contains "salaried" |
| NodeExtract.LastTld | backend/app/graph/nodes.py:100 | the backtracking of the domain part stops at the rightmost top-level dot, or finds none |
| NodeExtract.FindEmail | backend/app/graph/nodes.py:100 | a match found lies inside the text and holds an `@` |
| NodeExtract.ExtractEmail | backend/app/graph/nodes.py:97-101 | empty text gives nothing; an address found occurs in the text and holds an `@` |
| NodeExtract.EmailRoundTrip | backend/app/graph/nodes.py:97-101 | an address `local@domain.tld` written alone is read back whole |
| NodeExtract.FindPan | backend/app/graph/nodes.py:107 | the leftmost position where a PAN-shaped word stands, or none when there is none |
| NodeExtract.ExtractPan | backend/app/graph/nodes.py:104-108 | empty text gives nothing; a PAN found is ten characters of the PAN shape |
| NodeExtract.PanRoundTrip | backend/app/graph/nodes.py:104-108 | a PAN written alone is read back |
| NodeExtract.AadhaarEnd | backend/app/graph/nodes.py:114 | a match of the Aadhaar pattern is 12 to 14 characters long |
| NodeExtract.FindAadhaar | backend/app/graph/nodes.py:114 | the leftmost Aadhaar match, or none when there is none |
| NodeExtract.ExtractAadhaar | backend/app/graph/nodes.py:111-115 | empty text gives nothing; a number found has 12 to 14 characters and no space |
| NodeExtract.AadhaarDigitsKept | backend/app/graph/nodes.py:114-115 | removing the spaces of a match keeps at least its twelve digits |
| NodeExtract.AadhaarRoundTrip | backend/app/graph/nodes.py:111-115 | three groups of four digits separated by single spaces are read back without the spaces |
| NodeExtract.FindMobile | backend/app/graph/nodes.py:121 | the leftmost stand-alone run of exactly ten digits, or none |
| NodeExtract.ExtractMobile | backend/app/graph/nodes.py:118-122 | empty text gives nothing; a number found is ten digits |
| NodeExtract.MobileRoundTrip | backend/app/graph/nodes.py:118-122 | a ten-digit number written alone is read back |
| NodeExtract.MobileNeedsExactlyTen | backend/app/graph/nodes.py:121 | a run of digits of any length other than ten is not a mobile number |
| Neo4j.Ingest | backend/app/services/neo4j_service.py:61-69 | the ingest keeps the user id and every value that is present, and never merges a node on an empty key |
| Neo4j.StandInDevicesDiffer | backend/app/services/neo4j_service.py:61-69 | two different users ingested without a device id never share a device node |
| Neo4j.StandInAddressesShared | backend/app/services/neo4j_service.py:61-69 | all users ingested without an IP address or phone share the "unknown" nodes |
| Neo4j.RawScore | backend/app/services/neo4j_service.py:77-91 | the uncapped score is at most 160 |
| Neo4j.Flags | backend/app/services/neo4j_service.py:78-91 | at most three flags |
| Neo4j.Score | backend/app/services/neo4j_service.py:70-97 | the score is between 0 and 100, flags are present, the source is "neo4j", and no detection row means score 0 and no flags |
| Neo4j.Neo4jService.AnalyzeFraudNetwork | backend/app/services/neo4j_service.py:30-97 | without a driver or a user id the answer is the mock report; otherwise it is the score of the detection rows |
| Neo4j.FraudsterScoresMaximum | backend/app/services/neo4j_service.py:89-94 | a link to a known fraudster scores the maximum of 100 and its flag comes last |
| Neo4j.NoFraudsterAtMostSixty | backend/app/services/neo4j_service.py:79-94 | without a fraudster link the score is at most 60 |
| Neo4j.FlagsFollowRules | backend/app/services/neo4j_service.py:77-91 | one flag per triggered rule, each the message of its rule, in the order device, IP, fraudster; no flag exactly when the score is 0 |
| SessionStore.DefaultSession | backend/app/services/session_store.py:6-34 | a new session starts in stage sales, expecting an amount, in progress, with nothing collected and no flags, created and updated now; it also holds the empty `history` list the agents use, which the dataclass does not declare (see Findings) |
| SessionStore.FreshSessionIsOpen | backend/app/services/session_store.py:30 | a new session's status is not terminal |
| SessionStore.SessionState.constructor | backend/app/services/session_store.py:6-34 | the record holds the default session, including the undeclared `history` list, empty (see Findings) |
| SessionStore.SessionState.Touch | backend/app/services/session_store.py:36-37 | only the last-update time changes |
| SessionStore.Store.GetSession | backend/app/services/session_store.py:43-48 | a known id gives its stored session, touched, and the store is unchanged; an unknown id gets a new default session, stored under it |
| SessionStore.Store.UpdateSession | backend/app/services/session_store.py:51-53 | the session is touched and stored under its own id, replacing what that id held; the store grows only for a new id |
| Tools.PowInt | backend/app/services/tools.py:17 | Python `**` with an integer exponent: the power for a non-negative exponent; an error exactly for zero to a negative power |
| Tools.CalculateEmiTool | backend/app/services/tools.py:13-28 | a quote exists exactly when the amortised instalment is defined, and then it is the rounded instalment, total payment and interest |
| Tools.ToolAgreesWithService | backend/app/services/tools.py:16-17 | for a positive principal, rate and tenure the tool's instalment is the EMI service's |
| Tools.ToolFailsWithoutRateOrTenure | backend/app/services/tools.py:16-17 | unlike the EMI service, the tool fails (division by zero) on a zero rate or a zero tenure |
| Tools.DefaultRateQuotes | backend/app/services/tools.py:14-17 | at the default rate of 12.5 every non-zero tenure gets a quote |
| Tools.Spaced | backend/app/services/tools.py:46 | `replace("_", " ")` keeps the length and every character but the underscores |
| Tools.FirstMatch | backend/app/services/tools.py:45-65 | the profile found is "other" or a table entry whose keyword occurs |
| Tools.AnalyzePurpose | backend/app/services/tools.py:32-65 | the profile is "other" or one of the six categories |
| Tools.PurposeIsFirstMatch | backend/app/services/tools.py:45-55 | the category found is the first in table order whose keyword occurs in the lowered purpose, spaced or not |
| Tools.PurposeOtherIffNoKeyword | backend/app/services/tools.py:45-65 | the purpose is "other" exactly when no keyword occurs |
| Tools.HomeRenovationExample | backend/app/services/tools.py:42-55 | "home renovation" gets the category home_renovation |
| Tools.Classify | backend/app/services/tools.py:74-82 | comfortable below 30, stretched from 30 below 50, risky from 50 below 60, rejected from 60 |
| Tools.CheckAffordability | backend/app/services/tools.py:68-92 | no report exactly for a zero income (division by zero); otherwise the band of the ratio, "Proceed" exactly below 50, and half the income as the ceiling, less existing obligations as what is available |
| Tools.ClassifyMonotone | backend/app/services/tools.py:74-82 | more obligations never improve the band |
| Tools.VerifyKycTool | backend/app/services/tools.py:102-106 | the check fails, with the mismatch reason, exactly when a given phone ends in 0000 or a given address contains "test"; a missing value never fails it; otherwise it verifies with no reason |
| Tools.MissingValuesOnlyHelp | backend/app/services/tools.py:102-106 | leaving out the phone, the address or both never turns a verified check into a failed one |
| Graph.ApplyUpdate | backend/app/models/state.py:97-137 | a node's messages are appended; an absent field keeps its stored value, a present one overwrites it; reflection count, limit and thread are untouched |
| Graph.ReflectionReducer | backend/app/models/state.py:116 | the reducer `lambda x, y: x + 1` adds one to the stored count whatever is written |
| Graph.InterruptNeverCleared | backend/app/models/state.py:115 | once raised, an interrupt stays in the state through any sequence of updates, since no node writes it back to none |
| Graph.ReflectionCountFrozen | backend/app/models/state.py:116 | no node writes the reflection count, so its reducer never runs and the count never changes |
| Graph.MessagesOnlyGrow | backend/app/models/state.py:101 | messages only grow: the stored conversation stays a prefix |
| Workflow.Route | backend/app/graph/workflow.py:30-68 | an edge is taken exactly when the step, or the node's default when absent, is a key of the node's map, and it leads to one of the map's targets |
| Workflow.DefaultsRoute | backend/app/graph/workflow.py:30-68 | every node's default step routes: sales to sales, verification to underwriting, underwriting to the end, reflection to sales |
| Workflow.SalesTargets | backend/app/graph/workflow.py:30-38 | after sales the run goes only to sales, verification or reflection |
| Workflow.VerificationTargets | backend/app/graph/workflow.py:40-48 | after verification only to underwriting, reflection or the end |
| Workflow.UnderwritingTargets | backend/app/graph/workflow.py:50-59 | after underwriting exactly the four keys route: back to sales, to reflection for document_collection, to the end for closure and END |
| Workflow.ReflectionTargets | backend/app/graph/workflow.py:61-68 | reflection leads only back to sales or to the end |
| Workflow.OnlySalesLoops | backend/app/graph/workflow.py:30-68 | no node routes back into itself except sales |
| Workflow.SelfStepsHaveNoEdge | backend/app/graph/workflow.py:40-59 | the map is partial: a verification or underwriting node naming itself as the next step has no edge |
| Nodes.LastUserMessage | backend/app/graph/nodes.py:37-41 | a conversation without user messages gives "" |
| Nodes.LastUserMessageIsLatest | backend/app/graph/nodes.py:37-41 | when a user message exists, the result is the content of one after which only assistant messages follow |
| Nodes.FindLastUserMessage | backend/app/graph/nodes.py:37-41 | the backwards loop returns the latest user message's content |
| Nodes.LastUserMessageOfTurn | backend/app/graph/nodes.py:37-41 | after a new user message and the assistant's replies, the nodes read that new message |
| Nodes.BuildPlan | backend/app/graph/nodes.py:125-126 | one "Collect <field>" step per field, in order, with underscores turned into spaces |
| Nodes.AppendToolCallAsWritten | backend/app/graph/nodes.py:44-55 | the log returned is the state's stored log with the one call appended |
| Nodes.AsWrittenLosesFirstCall | backend/app/graph/nodes.py:208-243 | when a node calls two tools, the log it returns holds the second call and not the first |
| Nodes.LogToolCall | backend/app/graph/nodes.py:44-55 | the running log keeps every earlier entry and ends with the new call |
| Nodes.RunningLogKeepsBothCalls | backend/app/graph/nodes.py:208-243 | threading the running log keeps both calls, in call order, after the stored log |
| Nodes.SalesValuesOf | backend/app/graph/nodes.py:159-168 | the model's value is used when truthy, else the rule-based extractor's; the amount is read from the message only when the "borrow" or the unset-amount rule allows it |
| Nodes.SalesMergeOnlyFills | backend/app/graph/nodes.py:170-179 | the merge changes only the five loan basics, never unsets employment type, income, amount or tenure, and writes only the old or the extracted value |
| Nodes.BlankPurposeUnsetsPurpose | backend/app/graph/nodes.py:178-179 | a blank purpose is truthy and is stored stripped, so it leaves the purpose falsy |
| Nodes.SalesMissing | backend/app/graph/nodes.py:181-191 | each loan basic is listed exactly when it is falsy, once, in asking order |
| Nodes.SalesMissingEmptyIff | backend/app/graph/nodes.py:181-191 | nothing is missing exactly when the record is complete and a tenure is set |
| Nodes.SalesToolsKeepBasics | backend/app/graph/nodes.py:208-243 | the tools change only the purpose category and the instalment, so the missing list is unchanged |
| Nodes.SalesLogsBothTools | backend/app/graph/nodes.py:208-243 | with purpose, amount and tenure set, both tool calls are logged in order and an instalment is stored |
| Nodes.SalesUpdate | backend/app/graph/nodes.py:245-263 | one assistant message; the next step is verification exactly when nothing is missing, sales otherwise; no interrupt and no status |
| Nodes.WriteSalesValues | backend/app/graph/nodes.py:170-179 | the record in place becomes the merge of its old value with the extracted values |
| Nodes.ReadSalesValues | backend/app/graph/nodes.py:159-168 | the node's local values are those of the value-level rule |
| Nodes.MergeSalesMessage | backend/app/graph/nodes.py:130-179 | the record becomes the merge of the last user message's values |
| Nodes.CollectSalesMissing | backend/app/graph/nodes.py:181-191 | the appended list equals the missing basics of the record |
| Nodes.RunSalesTools | backend/app/graph/nodes.py:208-243 | the purpose category, instalment and log are those of the value-level tools |
| Nodes.ApplySalesTools | backend/app/graph/nodes.py:208-243 | the record and log left are those of the value-level tools |
| Nodes.SalesAgentNode | backend/app/graph/nodes.py:129-263 | the record in place and the returned update are those of the value-level node |
| Nodes.SalesRoutesOnCompleteness | backend/app/graph/nodes.py:245-246 | the node goes on to verification exactly when the record it returns is complete with a tenure, and back to itself otherwise |
| Nodes.SalesStepAlwaysRoutes | backend/app/graph/nodes.py:245 | the step written is always one the sales node's routing map accepts |
| Nodes.SalesAsksFirstMissing | backend/app/graph/nodes.py:193-206 | without a model reply the node asks for the first missing basic, and the plan lists every missing one |
| Nodes.SalesKeepsIdentity | backend/app/graph/nodes.py:129-263 | the identity and KYC fields, the credit score and the documents are untouched |
| Nodes.VerificationMergeOnlyFills | backend/app/graph/nodes.py:281-306 | a verified OTP is never withdrawn, a set mobile, e-mail, PAN or Aadhaar is never unset, and the loan basics are untouched |
| Nodes.SixDigitReplyVerifiesOtp | backend/app/graph/nodes.py:295-297 | the six-digit reply 123456 verifies the OTP, whatever the model extracted |
| Nodes.KycMissing | backend/app/graph/nodes.py:308-318 | each identity detail is listed exactly when it is falsy, once, in asking order |
| Nodes.Rejection | backend/app/graph/nodes.py:368-378 | a rejection ends the run with status rejected and the given reason |
| Nodes.AskAgain | backend/app/graph/nodes.py:329-366 | a question keeps the run at the verification node with no status |
| Nodes.WriteVerificationValues | backend/app/graph/nodes.py:281-306 | the record in place becomes the model values, then the OTP rule, then the extractor fallbacks applied to its old value |
| Nodes.CollectKycMissing | backend/app/graph/nodes.py:308-318 | the appended list equals the missing identity details |
| Nodes.DecideVerification | backend/app/graph/nodes.py:320-441 | the update equals the value-level gate sequence |
| Nodes.RunVerificationChecks | backend/app/graph/nodes.py:380-441 | the update after the fraud and CRM tools equals the value-level checks |
| Nodes.VerificationAgentNode | backend/app/graph/nodes.py:266-441 | the record in place and the returned update are those of the value-level node |
| Nodes.VerificationGateOrder | backend/app/graph/nodes.py:320-378 | missing details come first, then the OTP interrupt, then the consent interrupt, and a refused consent rejects |
| Nodes.VerificationPassesOnlyWhenChecked | backend/app/graph/nodes.py:380-441 | the run reaches underwriting exactly when every gate passed, the CRM tool ran and verified, and the fraud score is at most 70; a raised CRM tool rejects |
| Nodes.FraudsterIsStopped | backend/app/graph/nodes.py:418-429 | a phone linked to a known fraudster rejects an otherwise verified customer for high fraud risk |
| Nodes.WaitingStepsHaveNoEdge | backend/app/graph/nodes.py:329-338 | the step the verification node writes while collecting details, and the underwriting node's document wait step, are not keys of their routing maps |
| Nodes.CollectingAsksAgain | backend/app/graph/nodes.py:329-338 | while a detail is missing, the next step is the verification node itself |
| Nodes.DocumentTypesSorted | backend/app/graph/nodes.py:517-522 | the four document types in ascending order |
| Nodes.RequiredDocuments | backend/app/graph/nodes.py:517-519 | the required documents are among the four types |
| Nodes.KeepIn | backend/app/graph/nodes.py:522 | exactly the elements that are kept, in their order |
| Nodes.KeepInSorted | backend/app/graph/nodes.py:522 | filtering keeps a strictly ascending list strictly ascending |
| Nodes.MissingDocuments | backend/app/graph/nodes.py:516-522 | exactly the required types not received, strictly ascending as `sorted` gives them |
| Nodes.HighAmountNeedsAllDocuments | backend/app/graph/nodes.py:518-522 | above 5,00,000 with nothing uploaded, all four types are asked for in order |
| Nodes.ModestAmountNeedsTwoDocuments | backend/app/graph/nodes.py:517-519 | up to 5,00,000 only the salary slip and bank statement are required |
| Nodes.Decide | backend/app/graph/nodes.py:544-554 | rejected exactly when the affordability ratio exceeds 0.6; manual review exactly when it does not and a set score is below 650; approved otherwise |
| Nodes.UnderwritingTools | backend/app/graph/nodes.py:458-514 | amount, income and documents are unchanged; the bureau's score replaces the stored one only when the call succeeded |
| Nodes.DecisionUpdate | backend/app/graph/nodes.py:556-610 | the run ends with the decision's status; a sanction letter exactly on approval and a rejection reason exactly on rejection |
| Nodes.NeedInputsUpdate | backend/app/graph/nodes.py:448-456 | the run goes back to sales without logging a tool |
| Nodes.UploadUpdate | backend/app/graph/nodes.py:527-542 | a document-upload interrupt with the missing types and the awaiting-documents status |
| Nodes.RunUnderwritingTools | backend/app/graph/nodes.py:458-514 | the score, instalment, ratio and log left equal the value-level tools |
| Nodes.ApplyUnderwritingTools | backend/app/graph/nodes.py:458-514 | the record and log left equal the value-level tools |
| Nodes.UnderwritingAgentNode | backend/app/graph/nodes.py:444-610 | the record in place and the returned update are those of the value-level node |
| Nodes.UnderwritingNeedsInputs | backend/app/graph/nodes.py:448-456 | without income, amount or tenure the record is unchanged and the run is routed back to sales |
| Nodes.DocumentsBeforeDecision | backend/app/graph/nodes.py:516-542 | the node decides only once every required document has arrived; otherwise it records and asks for the missing ones in ascending order |
| Nodes.LetterOnlyOnApproval | backend/app/graph/nodes.py:544-610 | a letter exactly on approval, a reason exactly on rejection, rejection only for a high ratio, approval only within both limits and for the requested amount |
| Nodes.LowScoreGoesToReview | backend/app/graph/nodes.py:547-550 | with documents in place and the ratio within bounds, a bureau score below 650 gives manual review (the stock bureau never returns one: its scores start at 650) |
| Nodes.ReflectionNode | backend/app/graph/nodes.py:613-629 | at the limit (3 by default) the run ends, keeping the stage (closure when none); below it the stored step passes on (sales when none) |
| Nodes.ReflectionLimitNeverReached | backend/app/graph/nodes.py:613-629 | no node writes the count, so from count 0 with the default limit the reflection node never ends the run |
| Nodes.MaxReflectionsFrozen | backend/app/graph/nodes.py:613-629 | no update changes the reflection limit |
| Api.CreateInitialState | backend/app/main.py:48-75 | a fresh state: no messages, calls or plan, the default record, next step sales, stage discovery, no interrupt, reflection count 0 of 3, status in progress, no reason or letter, the given thread id |
| Api.SeededThreadNeverHitsReflectionLimit | backend/app/main.py:48-75 | a thread seeded with the initial state starts at the graph's entry node, and no run of node updates from it trips the reflection limit |
| Api.SeededRecordMissesAllBasics | backend/app/main.py:52 | the first sales turn of a seeded thread finds all five loan basics missing, in asking order |
| Api.FirstInterrupt | backend/app/main.py:128-139 | the index of the first streamed state with an interrupt, or none when no state carries one |
| Api.InterruptResponse | backend/app/main.py:133-139 | an interrupt answers "awaiting_input" with that interrupt and no record, letter or reason |
| Api.StreamStates | backend/app/main.py:127-140 | the loop stops at the first interrupting state; without one, the final state is the last streamed, or none |
| Api.HandleMessage | backend/app/main.py:112-165 | the loop's answer is the value-level `_handle_message` |
| Api.InterruptEndsTurn | backend/app/main.py:128-139 | when some state interrupts, the turn answers "awaiting_input" with an interrupt at or before it and attaches no record |
| Api.FinalFieldsOnlyWhenDecided | backend/app/main.py:141-163 | without an interrupt, the status is the last state's ("in_progress" by default); the record is attached exactly on a decision, the letter exactly on approval, the reason exactly on rejection |
| Api.NoStateIsServerError | backend/app/main.py:165 | a graph that streams nothing gives HTTP 500 |
| Api.StoredInterruptBlocksTurns | backend/app/main.py:128-139 | a thread whose stored state carries an interrupt answers every later message with "awaiting_input" and the same interrupt |
| Api.HandleFileUpload | backend/app/main.py:168-219 | the loop's answer is the value-level `_handle_file_upload` |
| Api.BadTypeRefusedBeforeResume | backend/app/main.py:176-178 | a content type other than PDF, JPEG or PNG is refused with 400 whatever the graph would stream |
| Api.AllowedTypesPass | backend/app/main.py:176-217 | PDF, JPEG and PNG uploads pass the gate and the answer names the document received |
| Api.ThreadIdOf | backend/app/main.py:91-93 | the given thread id, or "loan_" followed by twelve hex digits |
| Api.AsWrittenRefusedUploadIs500 | backend/app/main.py:97-109 | as written, a refused upload reaches the client as HTTP 500 with the 400 inside the detail |
| Api.ChatEndpoint | backend/app/main.py:78-109 | 503 before the graph is ready; otherwise the handler's answer, upload first |
| Api.RefusedUploadIs400 | backend/app/main.py:176-178 | with errors passed through, a refused content type is a 400 naming the type, whatever the thread |
| Api.Checkpoints.Reset | backend/app/main.py:308-313 | the thread's checkpoint becomes a fresh state and every other thread keeps its own |
| Api.EntryState | backend/app/main.py:120-128 | the first streamed state of a turn is the checkpoint plus the user's message; a thread without a checkpoint starts from the empty record with no interrupt and that message alone |
| Api.MessageTurn | backend/app/main.py:90-124 | with new threads seeded, every message turn answers with a body for its thread, never an error |
| Api.TurnAnswers | backend/app/main.py:127-165 | a stream with a first state always yields a body for the thread, never the "no state" error |
| Api.AsWrittenNewThreadIs500 | backend/app/main.py:90-124 | as written, the first message of a new conversation is a 500 "Internal error: 'loan_data'", whatever the graph would stream; the corrected turn answers it |
| Api.NewThreadStartsFromInitialState | backend/app/main.py:48-75 | the corrected first turn of a new thread starts with no interrupt, the user's message as the only message, next step sales, and all five loan basics missing |
| Api.CheckpointedThreadsAgree | backend/app/main.py:90-124 | on a thread that has a checkpoint, the endpoint as written and the corrected one answer alike |
| Api.ResetUnblocksThread | backend/app/main.py:308-313 | after a reset, a turn whose graph raises no new interrupt answers with the last streamed state, under both endpoints |
| SalesAgent.CoerceFloat | backend/app/agents/sales_agent.py:10-16 | null, lists and objects give none; a number is kept as it is |
| SalesAgent.Truncate | backend/app/agents/sales_agent.py:23 | Python `int` on a float truncates toward zero, for both signs |
| SalesAgent.CoerceIntTruncates | backend/app/agents/sales_agent.py:19-25 | `_coerce_int` accepts exactly what `_coerce_float` accepts and truncates that value toward zero |
| SalesAgent.CoerceFloatOfNumeral | backend/app/agents/sales_agent.py:10-16 | a digit string is read as its value |
| SalesAgent.CoerceFloatOfNegatedNumeral | backend/app/agents/sales_agent.py:10-16 | a digit string after a minus sign is read as its value negated |
| SalesAgent.CoerceIntOfNumeral | backend/app/agents/sales_agent.py:19-25 | `_coerce_int` reads a digit string as its value |
| SalesAgent.ExponentScales | backend/app/agents/sales_agent.py:10-16 | a digit mantissa with `e` or `E` and a digit exponent, positive or negative, is the mantissa times that power of ten |
| SalesAgent.UnderscoreIgnored | backend/app/agents/sales_agent.py:10-16 | an underscore between digits is ignored, as in "1_000" |
| SalesAgent.StrayUnderscoresRefused | backend/app/agents/sales_agent.py:10-16 | a doubled, leading or trailing underscore is refused |
| SalesAgent.EmptyExponentRefused | backend/app/agents/sales_agent.py:10-16 | an exponent mark without digits after it is refused |
| SalesAgent.RefusedWithoutExponent | backend/app/agents/sales_agent.py:10-16 | a text of digits and underscores is accepted exactly when its underscores each sit between two digits |
| SalesAgent.DigitsAreStripped | backend/app/agents/sales_agent.py:14 | a text without white space at either end is its own strip |
| SalesAgent.FirstMissing | backend/app/agents/sales_agent.py:28-63 | none exactly when amount, tenure, purpose and income are all set |
| SalesAgent.FallbackFollowsOrder | backend/app/agents/sales_agent.py:28-67 | the fallback fills at most the first missing field, in the order amount, tenure, purpose, income, only with a truthy value (a purpose of at least three characters, stripped), and leaves sales only when all four are present |
| SalesAgent.FreshSessionAsksAmount | backend/app/agents/sales_agent.py:29-36 | a fresh session without an amount in the message is asked for the amount and is otherwise unchanged |
| SalesAgent.SalesTurnKeepsCollected | backend/app/agents/sales_agent.py:70-143 | a turn in the sales stage writes only the sales fields, stage and expected input, never clears a collected value, ends in sales or verification and keeps the expected input among the four questions or none |
| SalesAgent.StageOfFallback | backend/app/agents/sales_agent.py:28-67 | from sales or verification the fallback stays among those two stages and never clears a collected value |
| SalesAgent.SalesFrame | backend/app/agents/sales_agent.py:70-143 | a turn leaves the status and history alone |
| SalesAgent.ReplySource | backend/app/agents/sales_agent.py:106-141 | without a model the handler is the fallback; a non-blank model reply is returned as it is |
| SalesAgent.FallbackSalesInPlace | backend/app/agents/sales_agent.py:28-67 | the session record and reply after the fallback are those of the value-level rule |
| SalesAgent.ApplyUpdatesInPlace | backend/app/agents/sales_agent.py:113-127 | the record holds the accepted update values |
| SalesAgent.ApplySteeringInPlace | backend/app/agents/sales_agent.py:129-137 | the record holds the accepted stage and expected input |
| SalesAgent.HandleSalesInPlace | backend/app/agents/sales_agent.py:70-143 | the session record and reply are those of the value-level handler |
| LlmJson.CoerceStr | backend/app/agents/verification_agent.py:12-15 | `_coerce_str` (defined alike in the underwriting agent, and inline for the sales purpose): a value is taken exactly when it is a non-blank string, and is stored stripped |
| VerificationAgent.ContactOf | backend/app/agents/verification_agent.py:70-75 | the extracted phone when present, else the phone read from the message; address and name as extracted |
| VerificationAgent.MissingContact | backend/app/agents/verification_agent.py:84-88 | nothing is missing exactly when phone and address are set; the phone is listed exactly when it is unset |
| VerificationAgent.PromptNamesWhatIsMissing | backend/app/agents/verification_agent.py:50-55 | the fallback prompt asks for both, the phone or the address, matching what is missing |
| VerificationAgent.ContactOnlyGrows | backend/app/agents/verification_agent.py:70-82 | only non-empty values overwrite the contact fields, a set phone or address stays set, and the message's phone is used when the extraction has none |
| VerificationAgent.MissingContactAsksFirst | backend/app/agents/verification_agent.py:90-95 | with contact incomplete the turn asks for it whatever the fraud report or decision, leaves status, stage and fraud fields alone, and expects the phone first, else the address |
| VerificationAgent.FraudStoredBeforeDecision | backend/app/agents/verification_agent.py:97-106 | with contact complete the fraud score and flags are stored and the expected input is cleared |
| VerificationAgent.FallbackFailsClosed | backend/app/agents/verification_agent.py:139-158 | without a model a failed KYC check rejects with the CRM's reason, then a fraud score above 70 rejects, and only otherwise does the stage move to underwriting |
| VerificationAgent.DecisionMapping | backend/app/agents/verification_agent.py:160-178 | "reject" rejects with the model's reason or the default, "manual_review" parks, anything else moves to underwriting; a blank reply falls back to one fitting the outcome |
| VerificationAgent.ModelCanOverrideFailedKyc | backend/app/agents/verification_agent.py:119-170 | a model answering "proceed" moves a failed KYC check on to underwriting: the must-reject rule binds only the fallback |
| VerificationAgent.VerificationFrame | backend/app/agents/verification_agent.py:58-180 | a turn changes only the contact, expected-input, fraud, status, reason and stage fields; the status stays or becomes rejected or manual review; the stage stays or becomes underwriting, and only with the status unchanged |
| VerificationAgent.TakeContactInPlace | backend/app/agents/verification_agent.py:77-82 | the record holds the non-empty contact values |
| VerificationAgent.RecordFraudInPlace | backend/app/agents/verification_agent.py:105-106 | the record holds the fraud score and flags |
| VerificationAgent.FallbackDecisionInPlace | backend/app/agents/verification_agent.py:139-158 | the record and reply are those of the value-level fallback decision |
| VerificationAgent.ApplyDecisionInPlace | backend/app/agents/verification_agent.py:160-170 | the record holds the model's decision |
| VerificationAgent.HandleVerificationInPlace | backend/app/agents/verification_agent.py:58-180 | the record and reply are those of the value-level handler |
| UnderwritingAgent.NeedsInputsFirst | backend/app/agents/underwriting_agent.py:18-19 | without income, amount or tenure the session is untouched and the fixed reply is given |
| UnderwritingAgent.ScoreIsCached | backend/app/agents/underwriting_agent.py:21-26 | the bureau is asked only when no score is stored; a stored score is kept and the bureau's answer then makes no difference |
| UnderwritingAgent.DtiOnlyWithIncome | backend/app/agents/underwriting_agent.py:28-32 | the ratio stored is the instalment over the income rounded to four places, and only for a non-zero income |
| UnderwritingAgent.NoDecisionNoStatus | backend/app/agents/underwriting_agent.py:70-74 | a failed model call changes neither status nor reason and requests no upload |
| UnderwritingAgent.DecisionMapping | backend/app/agents/underwriting_agent.py:76-100 | each decision maps to its status, a rejection carries the model's reason or the default, "needs_documents" requests the upload only without a salary slip, and an unknown decision keeps the status |
| UnderwritingAgent.ApprovalNeedsDecision | backend/app/agents/underwriting_agent.py:61-100 | only an "approved" decision approves, and an upload is requested exactly for "needs_documents" without a salary slip |
| UnderwritingAgent.ReplyNeverEmpty | backend/app/agents/underwriting_agent.py:17-114 | every path of the handler answers with a non-empty reply, so the dispatcher always appends it |
| UnderwritingAgent.UnderwritingFrame | backend/app/agents/underwriting_agent.py:17-114 | the handler writes only the score, ratio, status and reason |
| UnderwritingAgent.PrepareInPlace | backend/app/agents/underwriting_agent.py:21-32 | the record holds the cached score and the stored ratio |
| UnderwritingAgent.DecideInPlace | backend/app/agents/underwriting_agent.py:76-91 | the record holds the decision's status and reason |
| UnderwritingAgent.HandleUnderwritingInPlace | backend/app/agents/underwriting_agent.py:17-114 | the record, reply and upload flag are those of the value-level handler |
| SanctionAgent.GenerateSanctionLetter | backend/app/agents/sanction_agent.py:9-40 | the applicant is the name or "Applicant"; amount and tenure are the session's or 0; no processing fee; APR equals the rate; valid for 30 days; interest is never negative |
| SanctionAgent.SameAsGraphLetter | backend/app/agents/sanction_agent.py:9-40 | the session's letter is the graph's letter for the same name, amount, tenure and rate |
| SanctionAgent.NoTenureNoInstalment | backend/app/agents/sanction_agent.py:18-20 | without a tenure there is no instalment and no interest, and the amount is what is payable |
| MasterAgent.ClosedApplicationShortCircuits | backend/app/agents/master_agent.py:30-44 | a closed application gets its fixed reply by status; nothing is recorded, no handler runs and nothing is stored |
| MasterAgent.UnderwritingTurnAppendsOnly | backend/app/agents/master_agent.py:86-104 | an underwriting turn only appends to the history |
| MasterAgent.VerificationTurnAppendsOnly | backend/app/agents/master_agent.py:57-84 | a verification turn, underwriting included, only appends to the history |
| MasterAgent.DispatchAppendsOnly | backend/app/agents/master_agent.py:49-130 | every stage's turn only appends to the history |
| MasterAgent.UserMessageRecorded | backend/app/agents/master_agent.py:46-47 | on an open application a non-empty stripped message is recorded as a user entry before anything the handlers add |
| MasterAgent.VerificationRejectionEndsTurn | backend/app/agents/master_agent.py:62-68 | a rejection in verification ends the turn: underwriting's answers make no difference and the response carries the rejection and its reason |
| MasterAgent.UnderwritingFollowsVerification | backend/app/agents/master_agent.py:69-80 | when verification moves on with income, amount and tenure known, underwriting runs in the same turn and a credit score is on file |
| MasterAgent.UploadRequestParks | backend/app/agents/master_agent.py:72-91 | a response asking for an upload leaves the session awaiting the salary slip |
| MasterAgent.AwaitingSalary | backend/app/agents/master_agent.py:106-125 | without a salary slip a fixed upload prompt is recorded and stored; with one, underwriting runs again from the underwriting stage |
| MasterAgent.UnderwritingTurnLetter | backend/app/agents/master_agent.py:93-99 | after underwriting the response carries a sanction letter exactly when the session ends approved, and it is that session's letter |
| MasterAgent.VerificationTurnLetter | backend/app/agents/master_agent.py:74-80 | the same for the verification turn |
| MasterAgent.LetterExactlyOnApproval | backend/app/agents/master_agent.py:49-130 | on an open application the response carries a letter exactly when the turn ends approved |
| MasterAgent.UnknownStageNotStored | backend/app/agents/master_agent.py:127-130 | an unknown stage gets the generic reply and is not stored |
| MasterAgent.RecordInPlace | backend/app/agents/master_agent.py:53-54 | the reply is appended to the session and the store maps the session's id to it |
| MasterAgent.DispatchInPlace | backend/app/agents/master_agent.py:49-130 | the session record, response and store are those of the value-level dispatch |
| MasterAgent.HandleMessage | backend/app/agents/master_agent.py:20-130 | the session record, response and store are those of the value-level `handle_message` |
| MasterAgent.AsWrittenOpenTurnRaises | backend/app/agents/master_agent.py:46-125 | as written, with no `history` attribute, a turn on an open application returns exactly for an empty message in an unknown stage; every other turn raises AttributeError |
| MasterAgent.AsWrittenReturnsAgree | backend/app/agents/master_agent.py:20-130 | where the turn as written returns, it is the corrected turn |
| MasterAgent.AsWrittenRaiseKeepsDecision | backend/app/agents/master_agent.py:86-104 | as written, an underwriting turn raises after the handler ran: the record keeps the corrected turn's decision, score and stage, but nothing is recorded and the session is not stored |
| MasterAgent.AsWrittenFirstMessageFails | backend/app/agents/master_agent.py:46-47 | as written, the first message of a new session raises before anything changes; the corrected turn records it |
| Emi.CalculateEmi | backend/app/services/emi.py:1-9 | no principal or no tenure gives 0; a positive principal over a positive tenure gives a positive instalment |
| Emi.Bernoulli | backend/app/services/emi.py:7-8 | the growth factor `(1 + r)^n` is at least `1 + n r` for a non-negative rate |
| Emi.GrowthAboveOne | backend/app/services/emi.py:8 | with a positive rate and tenure the denominator is positive, so the division is defined |
| Emi.ZeroRateIsEvenSplit | backend/app/services/emi.py:5-6 | at a zero rate the instalments add up to exactly the principal |
| Emi.LinearInPrincipal | backend/app/services/emi.py:1-9 | scaling the principal by k scales the instalment by k |
| Emi.MonotoneInPrincipal | backend/app/services/emi.py:1-9 | for a fixed rate and tenure a larger principal never gives a smaller instalment |
| Emi.AmortisedMonotone | backend/app/services/emi.py:7-9 | the annuity branch is monotone in the principal |
| Emi.AmortisedFormula | backend/app/services/emi.py:7-9 | with a non-zero rate the instalment is the annuity formula over a positive denominator |
| Emi.GrowthBound | backend/app/services/emi.py:7-9 | `(1 + r)^n - 1 <= n r (1 + r)^n`, the bound behind repayment |
| Emi.RepaysPrincipal | backend/app/services/emi.py:1-9 | for a positive rate the instalments over the tenure repay at least the principal |
| Credit.IncomeMultiplier | backend/app/services/credit_service.py:7 | the multiplier is capped at 2 and is non-negative for a non-negative income |
| Credit.EvaluateCredit | backend/app/services/credit_service.py:4-14 | the score is at most 850, the status is approved exactly when the score is at least 650, and rejected otherwise |
| Credit.ScoreRange | backend/app/services/credit_service.py:6-8 | for a non-negative income the score lies in [600, 800], so the cap never binds |
| Credit.ScoreMonotone | backend/app/services/credit_service.py:6-8 | a larger income never lowers the score |
| Credit.ApprovalFromTwentyFiveThousand | backend/app/services/credit_service.py:6-9 | from a monthly income of 25,000 on the evaluation approves |
| Credit.RejectionBelowTwentyFourThousand | backend/app/services/credit_service.py:6-9 | below a monthly income of 24,000 it rejects |
| Crm.VerifyKyc | backend/app/services/crm_service.py:1-5 | KYC fails, with the mismatch reason, exactly on placeholder data (a phone ending in 0000 or an address containing "test" in any case) and verifies with no reason otherwise |
| Crm.ZeroSuffixFails | backend/app/services/crm_service.py:3 | any phone ending in four zeros fails, whatever the address |
| Crm.UpperCaseTestFails | backend/app/services/crm_service.py:3 | an address containing "TEST" in capitals fails too, because the address is lowered first |
| Crm.EmptyAddressDecidesOnPhone | backend/app/services/crm_service.py:3-5 | with an empty address the verdict depends on the phone alone |
| Fraud.AnalyzeFraud | backend/app/services/fraud_service.py:4-20 | the score, flags and source are the network answer's, with defaults 0, no flags and "mock"; the recommendation is REJECT exactly above 70 |
| Fraud.RejectIffFraudster | backend/app/services/fraud_service.py:12-18 | over the network scores only a link to a known fraudster leads to REJECT |
| Fraud.MockApproves | backend/app/services/fraud_service.py:12-19 | without a database the mock report always approves |
| OfferMart.ToOffer | backend/app/services/offer_mart_service.py:23-33 | an offer is the customer's fields with the pre-approved limit renamed |
| OfferMart.GetOfferMart | backend/app/services/offer_mart_service.py:20-34 | one offer per customer, in the same order |
| OfferMart.Normalize | backend/app/services/offer_mart_service.py:43-45 | the PAN is stripped and upper-cased, the phone stripped, the name stripped and lower-cased, a missing key read as "" |
| OfferMart.FindOffer | backend/app/services/offer_mart_service.py:47-54 | no result exactly when no offer matches; a result is a matching offer of the list |
| OfferMart.FindCustomerOffer | backend/app/services/offer_mart_service.py:37-54 | a result is always one of the offers |
| OfferMart.FirstMatchWins | backend/app/services/offer_mart_service.py:47-54 | the result is the first offer that matches on any key |
| OfferMart.NoGlobalKeyPriority | backend/app/services/offer_mart_service.py:47-54 | an earlier offer matched by name wins over a later one matched by PAN: the keys are tried per offer, not per key |
| OfferMart.BlankKeysFindNothing | backend/app/services/offer_mart_service.py:43-54 | blank keys find nothing |
| OfferMart.FoundByOwnPan | backend/app/services/offer_mart_service.py:43-49 | a customer is found by their own PAN in any letter case, provided no earlier offer carries the same PAN |
| OfferMart.PanOnlyKeys | backend/app/services/offer_mart_service.py:48-53 | with only a PAN given, an offer matches exactly on its PAN |
| SanctionService.Derive | backend/app/services/sanction_service.py:18-22 | no tenure gives no instalment and the amount as payable; otherwise payable is instalment times tenure; interest is payable less amount, never negative |
| SanctionService.Letter | backend/app/services/sanction_service.py:11-42 | valid for 30 days, the applicant's name or "Applicant", no fee, APR equal to the rate, the requested amount and tenure or 0, non-negative interest, reference `SL-` and the first eight hex digits upper-cased |
| SanctionService.GenerateSanctionLetterData | backend/app/services/sanction_service.py:11-42 | the letter for the application's name, amount and tenure at the given rate |
| SanctionService.InterestIsPaidBeyondAmount | backend/app/services/sanction_service.py:18-22 | for a positive amount, rate and tenure the instalments cover the amount, and the interest is the excess |
| SanctionService.NoTenureNoInterest | backend/app/services/sanction_service.py:19-22 | without a tenure the payable amount is the amount and there is no interest |
| SanctionService.NegativeTenurePaysNothing | backend/app/services/sanction_service.py:19-21 | a negative tenure gets a zero instalment, so nothing is payable |
| TextUtils.ParseDecimal | backend/app/services/text_utils.py:17-21 | Python `float` of digits and dots succeeds exactly when there is at most one dot and not only dots |
| TextUtils.ExtractAmount | backend/app/services/text_utils.py:4-21 | empty text gives nothing; any amount found is non-negative |
| TextUtils.AmountIn | backend/app/services/text_utils.py:14-21 | the first numeric token, commas removed, scaled by the unit, is non-negative |
| TextUtils.AmountRoundTrip | backend/app/services/text_utils.py:4-21 | a decimal numeral of n followed by a lower-case unit is read back as n times the unit's multiplier |
| TextUtils.MultiplierIgnoresNumeral | backend/app/services/text_utils.py:9-12 | the digits in front do not change the multiplier |
| TextUtils.LakhExample | backend/app/services/text_utils.py:9-19 | "5 lakh" reads as 500,000 |
| TextUtils.CroreExample | backend/app/services/text_utils.py:11-19 | "2 crore" reads as 20,000,000; crore wins over lakh |
| TextUtils.ExtractTenure | backend/app/services/text_utils.py:24-44 | empty text gives nothing; a tenure found is a whole number of years, at most 72 months |
| TextUtils.TenureOfNumeral | backend/app/services/text_utils.py:28-44 | a number below 100 written first is read as months when it is 12, 24, 36 or 48, as years when at most 6, and refused otherwise |
| TextUtils.TenureRoundTrip | backend/app/services/text_utils.py:28-44 | "n months" reads back as n months on the 12/24/36/48 grid and as n years for n up to 6 |
| TextUtils.ExtractPhone | backend/app/services/text_utils.py:47-53 | nothing exactly when the text has fewer than ten digits; otherwise the last ten of its digits |
| TextUtils.PhoneRoundTrip | backend/app/services/text_utils.py:47-53 | a ten-digit number written after text without digits is read back unchanged |
| Numeric.HalfEvenBelowHalfUp | backend/app/services/credit_service.py:8 | Python's `round` is `Math.round` or one less, and less exactly on a tie with an even floor |
| DocumentVerification.RemoveSpaces | backend/app/services/document_verification_service.py:38 | the result is no longer than the input and holds no white space |
| DocumentVerification.RemoveSpacesAppend | backend/app/services/document_verification_service.py:38 | removing white space distributes over concatenation |
| DocumentVerification.RemoveSpacesKeeps | backend/app/services/document_verification_service.py:38 | exactly the input's non-space characters remain |
| DocumentVerification.NormalizeAadhaar | backend/app/services/document_verification_service.py:35-38 | the normalised number holds no white space |
| DocumentVerification.NormalizeAadhaarKeepsOthers | backend/app/services/document_verification_service.py:35-38 | normalising keeps exactly the non-space characters and is idempotent |
| DocumentVerification.PanMatchesDisjoint | backend/app/services/document_verification_service.py:10 | two PAN matches cannot overlap, so a left-to-right scan misses none |
| DocumentVerification.PanFindAllExact | backend/app/services/document_verification_service.py:100 | the scan from a position finds exactly the PAN-shaped words at or after it |
| DocumentVerification.PanMatchesExact | backend/app/services/document_verification_service.py:100 | the set of PAN matches holds exactly the PAN-shaped words of the text |
| DocumentVerification.AadhaarEnd | backend/app/services/document_verification_service.py:11 | a match of the Aadhaar pattern spans at least twelve characters, inside the text |
| DocumentVerification.AadhaarMatchIsTwelveDigits | backend/app/services/document_verification_service.py:82 | a match with its white space removed is twelve digits |
| DocumentVerification.AadhaarFindAll | backend/app/services/document_verification_service.py:82 | every normalised match is twelve digits |
| DocumentVerification.AadhaarMatches | backend/app/services/document_verification_service.py:82 | every element of the match set is twelve digits |
| DocumentVerification.OverlappingAadhaarNotReported | backend/app/services/document_verification_service.py:82 | `findall` does not report overlapping matches: a number that starts inside an earlier match is not in the set |
| DocumentVerification.ExtractPdfText | backend/app/services/document_verification_service.py:14-32 | a file without the `%PDF-` header, or whose pages cannot be read, gives "" |
| DocumentVerification.BaseName | backend/app/services/document_verification_service.py:64 | the last path component: a suffix of the path without a slash |
| DocumentVerification.LastIndexOf | backend/app/services/document_verification_service.py:64 | the last position of the character, or none when it is absent |
| DocumentVerification.PdfSuffixIff | backend/app/services/document_verification_service.py:64 | the suffix is ".pdf", in any case, exactly when the name is longer than four characters and ends so |
| DocumentVerification.VerifyUploadedDocument | backend/app/services/document_verification_service.py:41-120 | verified exactly when no reason is given; a note only on acceptance; no checks exactly when the file is missing or empty; otherwise "file_present" then one more check when verified |
| DocumentVerification.MissingFileRefused | backend/app/services/document_verification_service.py:51-59 | a missing or empty file is refused before anything else |
| DocumentVerification.DemoModeAcceptsPresentFiles | backend/app/services/document_verification_service.py:71-120 | outside strict mode every present file is accepted, whatever its type |
| DocumentVerification.StrictAddressProof | backend/app/services/document_verification_service.py:76-92 | in strict mode an address proof passes exactly when the normalised Aadhaar is among the PDF's matches or its last four characters are in the file name |
| DocumentVerification.OnlyTwelveDigitsMatchText | backend/app/services/document_verification_service.py:82-90 | an Aadhaar value that is not twelve digits can pass only on the file name |
| DocumentVerification.StrictSelfiePan | backend/app/services/document_verification_service.py:94-116 | in strict mode a selfie passes exactly when the PAN is a PAN match of the PDF text, is in the file name, or the upload is an image and a PAN was given |
| DocumentVerification.TextOnlyForPdf | backend/app/services/document_verification_service.py:63-65 | the PDF text is read only for a PDF upload; for any other upload the file's header and pages make no difference |
| LoanFlowTypes.TwentySteps | lib/loan-flow/types.ts:1-22 | there are exactly twenty conversation steps and the declaration-order list holds every step exactly once |
| LoanFlowTypes.InitialLoanFlowState | lib/loan-flow/types.ts:168-190 | the flow starts at WELCOME with no history and no messages, every document slot pending at progress 0, nothing complete, confirmed or processing |
| LoanFlowTypes.PersonalDetails.Set | lib/loan-flow/loanFlowReducer.ts:77-88 | the spread `{...details, [field]: value}` sets the named field and leaves the other four as they were |
| LoanFlowTypes.DocumentsState.Set | lib/loan-flow/loanFlowReducer.ts:135-143 | the spread `{...documents, [kind]: file}` replaces the named slot and leaves the other three as they were |
| ConversationSteps.TableFollowsDeclarationOrder | lib/loan-flow/conversationSteps.ts:12-174 | every table entry is keyed by its own step; a step has a next step exactly when it is not COMPLETE, and that next step is the one declared right after it |
| ConversationSteps.WalkIsSuffix | lib/loan-flow/conversationSteps.ts:12-174 | following `getNextStep` from a step visits exactly the steps declared from that step on, in order |
| ConversationSteps.ConversationVisitsEveryStepOnce | lib/loan-flow/conversationSteps.ts:12-174 | from WELCOME the conversation visits all twenty steps, each exactly once, and ends at COMPLETE, which has no next step |
| ConversationSteps.OtpBetweenMobileAndEmail | lib/loan-flow/conversationSteps.ts:60-82 | OTP verification follows the mobile number directly and is followed directly by the e-mail step |
| ConversationSteps.TenureOptionsAreTheTenures | lib/loan-flow/conversationSteps.ts:44-50 | the tenure step offers exactly the four tenure buttons |
| LoanFlowReducer.ReduceAllAppend | lib/loan-flow/loanFlowReducer.ts:3-226 | dispatching two batches of actions one after the other is dispatching their concatenation |
| LoanFlowReducer.SetStepRecordsChange | lib/loan-flow/loanFlowReducer.ts:8-20 | SET_STEP moves to the step, clears the error, records the step it leaves exactly when the step changes, and keeps messages, collected data and documents |
| LoanFlowReducer.GoBackPops | lib/loan-flow/loanFlowReducer.ts:21-34 | GO_BACK with an empty history changes nothing; otherwise it returns to the last recorded step, drops it from the history and clears the error |
| LoanFlowReducer.GoBackUndoesSetStep | lib/loan-flow/loanFlowReducer.ts:8-34 | moving to a different step and going back restores the old state except that the error is cleared |
| LoanFlowReducer.NavigationKeepsNoRepeats | lib/loan-flow/loanFlowReducer.ts:8-34 | SET_STEP and GO_BACK keep the invariant that history plus current step never holds the same step twice in a row |
| LoanFlowReducer.AddMessageAppends | lib/loan-flow/loanFlowReducer.ts:35-40 | ADD_MESSAGE appends exactly the message and keeps the earlier messages in order |
| LoanFlowReducer.ProgressMarksUploadedAtHundred | lib/loan-flow/loanFlowReducer.ts:144-156 | a progress report stores the progress, marks the slot uploaded exactly when it is 100 and uploading otherwise, and leaves the other slots alone |
| LoanFlowReducer.PersonalDetailChangesOneField | lib/loan-flow/loanFlowReducer.ts:77-88 | SET_PERSONAL_DETAIL changes the named personal detail and no other part of the state |
| LoanFlowReducer.ResultsStopProcessing | lib/loan-flow/loanFlowReducer.ts:116-213 | SET_ERROR, SET_CREDIT_EVALUATION and SET_APPROVAL_STATUS all turn the processing indicator off |
| LoanFlowReducer.ResetAndClear | lib/loan-flow/loanFlowReducer.ts:214-225 | RESET_FLOW gives the initial state; CLEAR_MESSAGES, which has no case, falls to the default and leaves the state, messages included, unchanged |
| AgentChat.UpdateAgentMessage | lib/hooks/useAgentChat.ts:41-47 | the list keeps its length, identifiers and roles; exactly the messages carrying the identifier get the updater applied to their content, all others are unchanged |
| AgentChat.UpdateFreshLast | lib/hooks/useAgentChat.ts:41-47 | when only the last message carries the identifier, the update rewrites that message and no other |
| AgentChat.AppendToken | lib/hooks/useAgentChat.ts:114-119 | the new content starts with the old and ends with the token; one space is put between them exactly when the old content is non-empty and does not end with a space |
| AgentChat.TokenJoinsWithOneSpace | lib/hooks/useAgentChat.ts:114-119 | the three cases of the separator: empty content gives the token, content ending in a space gets the token appended, other content gets a space and the token |
| AgentChat.JoinSplit | lib/hooks/useAgentChat.ts:103-105 | joining the parts of `split('\n\n')` with the separator gives the buffer back |
| AgentChat.SplitIsShaped | lib/hooks/useAgentChat.ts:103-105 | the parts `split` returns hold no separator, and none but the last is cut short of one |
| AgentChat.SplitJoin | lib/hooks/useAgentChat.ts:103-105 | splitting a join of such parts gives the parts back (with JoinSplit, split and join are inverse) |
| AgentChat.UnterminatedFrameIsDropped | lib/hooks/useAgentChat.ts:103-105 | the frames processed are all parts but the last, which stays in the buffer |
| AgentChat.SplitAppend | lib/hooks/useAgentChat.ts:100-105 | appending a chunk keeps the complete frames found so far and only extends the unterminated tail |
| AgentChat.ReadOneChunk | lib/hooks/useAgentChat.ts:100-105 | one read of the loop: the frames done so far plus the complete frames of the new buffer are the complete frames of the whole stream read so far, and the new buffer is its tail |
| AgentChat.NoSeparatorNoFrames | lib/hooks/useAgentChat.ts:100-105 | a body with no blank-line separator (such as one JSON document) yields no frame at all, so the reply stays empty |
| AgentChat.DataLineRoundTrip | lib/hooks/useAgentChat.ts:107-113 | `data:` followed by white space and a payload gives back that payload, except that `[DONE]` is skipped |
| AgentChat.PayloadIgnoresPadding | lib/hooks/useAgentChat.ts:107-110 | white space before a frame does not change the payload read from it |
| AgentChat.ApplyMeta | lib/hooks/useAgentChat.ts:49-57 | a falsy meta changes nothing; the upload flag is raised exactly when the meta's `requires_upload` is truthy or it was already raised; the letter is replaced exactly when `sanction_letter` is truthy; the text is unchanged |
| AgentChat.ProcessFramesAppend | lib/hooks/useAgentChat.ts:100-124 | processing frames in two reads is processing them in one, up to the first frame that throws |
| AgentChat.ResumeAfterThrow | lib/hooks/useAgentChat.ts:113-126 | once a frame has thrown (a payload `JSON.parse` rejects), no later frame has an effect |
| AgentChat.UploadFlagOnlyRises | lib/hooks/useAgentChat.ts:49-57 | during a reply the upload flag, once raised, is never lowered by any frame |
| AgentChat.GetOrCreateSpec | lib/hooks/useAgentChat.ts:12-19 | without a window the answer is "" and storage is untouched; a stored non-empty value is returned; otherwise the fresh value is stored and returned |
| AgentChat.GetOrCreateIsStable | lib/hooks/useAgentChat.ts:12-19 | a second `getOrCreate` of the same key returns the first answer and changes nothing, whatever fresh value it would have used |
| AgentChat.UploadedTextIsTrimmed | lib/hooks/useAgentChat.ts:148 | the message sent after an upload is non-empty and already trimmed, so `sendMessage` does not drop it |
| AgentChat.LocalStorage.GetOrCreate | lib/hooks/useAgentChat.ts:12-19 | the returned value and the new storage are those of `GetOrCreateSpec` on the old storage |
| AgentChat.ChatSession.constructor | lib/hooks/useAgentChat.ts:22-34 | the hook starts with the agent's greeting as its only message, not streaming, no upload asked for, no letter and no identifiers |
| AgentChat.ChatSession.LoadIds | lib/hooks/useAgentChat.ts:36-39 | identifiers already read are kept; empty ones are read through `getOrCreate`; nothing else changes |
| AgentChat.ChatSession.HandleMeta | lib/hooks/useAgentChat.ts:49-57 | the new upload flag and letter are `ApplyMeta` of the old ones; messages, streaming flag and identifiers are unchanged |
| AgentChat.ChatSession.ApplyFrame | lib/hooks/useAgentChat.ts:107-122 | one frame: the outcome and the new view are one `Step` of the reply; the agent message, when its identifier is fresh, shows the new text |
| AgentChat.ChatSession.ApplyFrames | lib/hooks/useAgentChat.ts:107-123 | the loop over one read's frames gives `ProcessFrames` of them, stopping at the first throw |
| AgentChat.ChatSession.ReadStream | lib/hooks/useAgentChat.ts:100-124 | the read loop over all chunks processes exactly the complete frames of the concatenated stream, in order, up to the first throw |
| AgentChat.ChatSession.SendMessage | lib/hooks/useAgentChat.ts:59-132 | blank content or a reply in progress changes nothing; otherwise the user's trimmed message and an agent message are appended, the agent message ends with the streamed text or the apology, and streaming ends |
| AgentChat.ChatSession.Exchange | lib/hooks/useAgentChat.ts:70-129 | the user's message and the agent's reply are appended to the old messages; the reply is the text of the complete frames, or the apology when the request fails or a frame throws |
| AgentChat.ChatSession.UploadSalarySlip | lib/hooks/useAgentChat.ts:134-157 | a failed request appends "Upload failed" and changes nothing else; a reached one lowers the upload flag and then sends the fixed upload message as `sendMessage` would: during a reply in progress nothing more changes, otherwise the user's message and the agent's reply are appended, the upload flag and letter are the reply's, and streaming ends |
| DocumentUpload.CountsPartition | lib/hooks/useDocumentUpload.ts:108-124 | every slot has exactly one of the four statuses, so the four counts add up to the number of slots |
| DocumentUpload.CountAll | lib/hooks/useDocumentUpload.ts:16-18 | a status count reaches the number of slots exactly when every slot has that status |
| DocumentUpload.AreAllDocumentsUploaded | lib/hooks/useDocumentUpload.ts:16-18 | true exactly when each of the four slots is uploaded |
| DocumentUpload.GetUploadSummary | lib/hooks/useDocumentUpload.ts:108-125 | total is 4, pending is what is neither uploaded nor uploading, complete exactly when all four are uploaded, and the percentage is 25 per uploaded slot |
| DocumentUpload.SummaryAgreesWithSlots | lib/hooks/useDocumentUpload.ts:108-125 | the summary is complete exactly when `areAllDocumentsUploaded` holds, and its pending count includes the failed slots and is never negative |
| DocumentUpload.RemoveResetsSlot | lib/hooks/useDocumentUpload.ts:89-100 | removing a document returns its slot to the initial slot, leaves the other slots alone and leaves the set incomplete |
| DocumentUpload.ProgressActions | lib/hooks/useDocumentUpload.ts:51-56 | one UPDATE_DOCUMENT_PROGRESS per report, in order, for the slot being uploaded |
| DocumentUpload.SelectFile | lib/hooks/useDocumentUpload.ts:21-86 | an invalid file is refused with its validation error; a valid one has not returned exactly while the upload is still pending |
| DocumentUpload.HandleFileSelectAsWritten | lib/hooks/useDocumentUpload.ts:51-56 | as written the progress callback lands in `uploadFile`'s second parameter; an invalid file is still refused |
| DocumentUpload.HandleFileSelect | lib/hooks/useDocumentUpload.ts:21-86 | with the callback in its place the call always returns, and an invalid file is refused |
| DocumentUpload.InvalidFileOnlySetsError | lib/hooks/useDocumentUpload.ts:26-33 | an invalid file dispatches only SET_ERROR with the validator's message, touches no slot and returns false |
| DocumentUpload.ProgressTouchesOneSlot | lib/hooks/useDocumentUpload.ts:51-56 | the progress reports change only the slot being uploaded |
| DocumentUpload.StartTouchesOneSlot | lib/hooks/useDocumentUpload.ts:36-56 | the start of a valid selection leaves the other slots and the rest of the state alone |
| DocumentUpload.ValidRun | lib/hooks/useDocumentUpload.ts:36-85 | the actions of a valid selection, by the outcome of the file read |
| DocumentUpload.StartThenSlot | lib/hooks/useDocumentUpload.ts:58-74 | whatever was reported, the final UPLOAD_DOCUMENT decides the slot and the other slots are untouched |
| DocumentUpload.StartThenFailure | lib/hooks/useDocumentUpload.ts:75-85 | whatever was reported, a failure marks the slot as error and records the message |
| DocumentUpload.SuccessfulUploadEndsUploaded | lib/hooks/useDocumentUpload.ts:21-86 | a valid file that is read ends uploaded at 100 with its URL and data, the other slots untouched, and the call returns true |
| DocumentUpload.FailedUploadMarksError | lib/hooks/useDocumentUpload.ts:75-85 | a read error marks the slot as error, records "Upload failed. Please try again." and returns false |
| DocumentUpload.AsWrittenUploadNeverSettles | lib/hooks/useDocumentUpload.ts:51-56 | as written a valid file leaves its slot uploading at 0, the set incomplete, and the call never returns, however long the interval runs |
| MockServices.SliceLast | lib/loan-flow/mockServices.ts:15-17 | `slice(-n)` is the last n characters, or the whole of a shorter string |
| MockServices.SliceFirst | lib/loan-flow/mockServices.ts:19-21 | `slice(0, n)` is the first n characters, or the whole of a shorter string |
| MockServices.MasksRevealLastFour | lib/loan-flow/mockServices.ts:15-25 | two masked mobile (or Aadhaar) numbers are equal exactly when their last four characters are; the masks have a fixed length |
| MockServices.PanMaskRevealsEnds | lib/loan-flow/mockServices.ts:19-21 | two masked ten-character PANs are equal exactly when their first two and last two characters are |
| MockServices.VerifyOtp | lib/loan-flow/mockServices.ts:30-36 | an OTP is accepted exactly when it is six digits |
| MockServices.VerifiedOtpIsValid | lib/loan-flow/mockServices.ts:30-36 | every accepted OTP passes the OTP validator, but the validator also accepts "123 456", which the service refuses |
| MockServices.PerformCreditEvaluation | lib/loan-flow/mockServices.ts:41-61 | the score is a whole number of at most 850 stamped with the time; approved exactly when the score is at least 650, rejected otherwise |
| MockServices.MatchesBackendCredit | lib/loan-flow/mockServices.ts:52-56 | the browser's score is the back end's or one more (rounding half up rather than to even), and the two always agree on approval |
| MockServices.ScoreAtMostEightHundred | lib/loan-flow/mockServices.ts:52-53 | the income multiplier is capped at 2, so the cap of 850 never binds and the score is at most 800 |
| MockServices.ProcessApproval | lib/loan-flow/mockServices.ts:65-70 | the demo approval always approves |
| MockServices.GenerateSanctionLetterData | lib/loan-flow/mockServices.ts:77-100 | the letter carries the applicant and the offer, is dated now, is valid until the same time 30 days later, and its reference starts with `SL-` |
| MockServices.ReferenceCarriesTimestamp | lib/loan-flow/mockServices.ts:86 | the digits after `SL-` read back as the generation timestamp and are followed by `-` |
| MockServices.ProgressReports | lib/loan-flow/mockServices.ts:111-116 | tick k reports 10·k |
| MockServices.UploadFile | lib/loan-flow/mockServices.ts:104-136 | the reports and the state of the promise after the given ticks are those of the progress model |
| MockServices.ReportsRiseToHundred | lib/loan-flow/mockServices.ts:111-116 | a completed upload reports ten values rising by ten each to 100, each in (0, 100] |
| MockServices.NotCallableNeverSettles | lib/loan-flow/mockServices.ts:111-131 | with a truthy non-function callback the promise never settles; with a real callback it settles exactly from the tenth tick on |
| Calculations.CalculateEmi | lib/loan-flow/calculations.ts:8-19 | the rounded instalment exists exactly when the compounded balance factor is not 1 (otherwise the division gives no finite value), and always for a positive rate and tenure |
| Calculations.PositiveRateGrows | lib/loan-flow/calculations.ts:13-16 | a positive rate over a positive tenure compounds to a factor above 1 |
| Calculations.EmiMatchesBackend | lib/loan-flow/calculations.ts:8-19 | for a positive principal, rate and tenure the instalment is the back end's amortised instalment rounded half up, and is non-negative |
| Calculations.ZeroRateHasNoEmi | lib/loan-flow/calculations.ts:13-18 | at a zero rate the formula divides zero by zero, unlike the back end's even split |
| Calculations.CalculateProcessingFee | lib/loan-flow/calculations.ts:24-31 | the fee is between 1000 and 10000 |
| Calculations.ProcessingFeeBands | lib/loan-flow/calculations.ts:24-31 | the fee is 1000 up to an amount of 66,666.67, 10000 from 666,666.67, and 1.5% of the amount rounded in between |
| Calculations.ProcessingFeeMonotone | lib/loan-flow/calculations.ts:24-31 | a larger loan never has a smaller fee |
| Calculations.CalculateApr | lib/loan-flow/calculations.ts:37-48 | the APR is finite exactly when the instalment exists and the amount is not zero, and then it is the yearly cost per rupee in percent, to two decimals, within half a hundredth |
| Calculations.DetermineInterestRate | lib/loan-flow/calculations.ts:53-78 | a salaried applicant gets one of 10.5, 11, 11.5, 12.5, 14 and a self-employed one one of 11.5, 12, 12.5, 13.5, 15 |
| Calculations.RateNonIncreasingInScore | lib/loan-flow/calculations.ts:53-78 | a better score never raises the rate, and self-employment adds exactly one point |
| Calculations.RateBands | lib/loan-flow/calculations.ts:53-78 | the score bands 800, 750, 700 and 650 and the salaried rate of each |
| Calculations.GenerateLoanOffer | lib/loan-flow/calculations.ts:83-106 | the offer keeps the amount and tenure, its rate is the band's, total payable is instalment times tenure, total interest is payable less amount, the fee is clamped, and the APR is finite exactly for a non-zero amount |
| Calculations.OfferUsesBackendInstalment | lib/loan-flow/calculations.ts:83-106 | for a positive amount the offer's instalment is the back end's instalment at the offered rate, rounded, and non-negative |
| Validators.ValidateMobile | lib/loan-flow/validators.ts:7-19 | valid exactly when the digits of the input are ten and start with 6 to 9; a wrong digit count gives the length message |
| Validators.MobileIgnoresFormatting | lib/loan-flow/validators.ts:7-19 | a number is judged by its digits alone |
| Validators.CountryCodeRefused | lib/loan-flow/validators.ts:7-19 | a ten-digit number written with `+91` is refused with the length message |
| Validators.HyphenAccepted | lib/loan-flow/validators.ts:7-19 | a valid number split by a hyphen is still valid |
| Validators.ValidateEmail | lib/loan-flow/validators.ts:21-29 | valid exactly when the address has the shape local part, `@`, name, `.`, suffix with no white space or second `@`; otherwise the e-mail message |
| Validators.EmailShapeIsPattern | lib/loan-flow/validators.ts:21-29 | the evaluation accepts exactly what the regular expression describes (both directions, via EmailShapeMatches and EmailPatternMatches) |
| Validators.EmailShapeMatches | lib/loan-flow/validators.ts:22 | every accepted address is described by the pattern |
| Validators.EmailPatternMatches | lib/loan-flow/validators.ts:22 | every address the pattern describes is accepted |
| Validators.ValidatePan | lib/loan-flow/validators.ts:31-40 | valid exactly when the upper-cased input is five letters, four digits, one letter; otherwise the PAN message |
| Validators.PanIgnoresCase | lib/loan-flow/validators.ts:31-40 | lower-case letters are accepted: lowering a PAN does not change the verdict |
| Validators.ValidateAadhaar | lib/loan-flow/validators.ts:42-50 | valid exactly when the input has twelve digits, whatever separates them |
| Validators.ValidateOtp | lib/loan-flow/validators.ts:52-60 | valid exactly when the input has six digits, whatever separates them |
| Validators.DigitCountsIgnoreFormatting | lib/loan-flow/validators.ts:42-60 | separators change neither the Aadhaar nor the OTP verdict |
| Validators.ValidateMonthlyIncome | lib/loan-flow/validators.ts:62-72 | valid exactly from 10,000 to 1,00,00,000; below the minimum the minimum message |
| Validators.ValidateLoanAmount | lib/loan-flow/validators.ts:74-89 | valid exactly from 10,000 to 50,00,000 and, when a truthy income is known, at most 60 times it; below the minimum the minimum message |
| Validators.IncomeOnlyTightens | lib/loan-flow/validators.ts:74-89 | knowing the income only refuses more amounts, and a higher income refuses fewer |
| Validators.ZeroIncomeIgnored | lib/loan-flow/validators.ts:83 | a zero income is falsy and is treated as no income |
| Validators.ValidIncomeAllowsMinimumLoan | lib/loan-flow/validators.ts:62-89 | every accepted income allows the minimum loan, and allows the maximum exactly when 60 months of it reach it |
| Validators.ValidateFullName | lib/loan-flow/validators.ts:91-101 | valid exactly when the trimmed name has at least three characters and the name has only letters and white space |
| Validators.ValidNameFramedByLetters | lib/loan-flow/validators.ts:91-101 | an accepted name, once trimmed, begins and ends with a letter |
| Validators.ValidateFile | lib/loan-flow/validators.ts:103-116 | valid exactly when the file is within the size limit and of an allowed type; the size is checked first |
| Validators.LargerLimitAcceptsMore | lib/loan-flow/validators.ts:103-116 | raising the size limit never refuses a file that passed |
| LoanUtils.InstalmentsRepayPrincipal | lib/loan-flow/utils.ts:10-27 | the rounded instalments over the tenure repay the principal to within half a rupee per month |
| LoanUtils.CalculateProcessingFee | lib/loan-flow/utils.ts:32-35 | 1.5% of a non-negative amount, rounded, is non-negative |
| LoanUtils.FeesAgreeInBand | lib/loan-flow/utils.ts:32-35 | this fee agrees with the clamped fee of calculations.ts inside its band, is smaller below it and larger above it |
| LoanUtils.DetermineInterestRate | lib/loan-flow/utils.ts:41-66 | the rate is between 8.5 and 10.5 |
| LoanUtils.RateFloorNeverBinds | lib/loan-flow/utils.ts:41-66 | the discounts add up to at most 2, so the rate is exactly 10.5 less the discounts that apply |
| LoanUtils.RateNonIncreasing | lib/loan-flow/utils.ts:41-66 | a higher income or a larger loan never raises the rate, and salaried work never costs more |
| LoanUtils.CalculateCreditScore | lib/loan-flow/utils.ts:71-99 | the mock score is between 650 and 830 |
| LoanUtils.ZeroIncomeRatio | lib/loan-flow/utils.ts:71-99 | with no income a non-negative loan earns no ratio bonus, a negative one the full bonus (JavaScript division by zero) |
| LoanUtils.RatioShrinks | lib/loan-flow/utils.ts:71-99 | a higher income keeps the loan-to-income ratio below any bound it was below |
| LoanUtils.ScoreNonDecreasingInIncome | lib/loan-flow/utils.ts:71-99 | for a non-negative loan a higher income never lowers the score |
| LoanUtils.GetRiskCategory | lib/loan-flow/utils.ts:104-108 | low risk exactly from 750, high risk exactly below 650, medium otherwise |
| LoanUtils.MockScoresNeverHighRisk | lib/loan-flow/utils.ts:71-108 | the mock score is never high risk, and a salaried applicant earning at least 50,000 with a loan under two years' income is low risk |
| LoanUtils.ValidatePan | lib/loan-flow/utils.ts:113-116 | the boolean PAN check agrees with the PAN validator |
| LoanUtils.ValidateAadhaar | lib/loan-flow/utils.ts:121-124 | twelve digits once white space is removed, and nothing else |
| LoanUtils.ValidateMobile | lib/loan-flow/utils.ts:129-132 | exactly ten digits, the first 6 to 9, nothing else |
| LoanUtils.ValidateEmail | lib/loan-flow/utils.ts:137-140 | the boolean e-mail check accepts exactly what the e-mail pattern describes |
| LoanUtils.StrictChecksImplyValidators | lib/loan-flow/utils.ts:121-132 | what passes these mobile and Aadhaar checks passes the validators |
| LoanUtils.HyphenOnlyPassesValidator | lib/loan-flow/utils.ts:129-132 | the converse fails: a valid number split by a hyphen passes the validator but not this check |

## Left out

- Language-model access (`llm_service.py`): prompts, model calls, streaming callbacks and JSON extraction. Each reply is an input record, or `None` for a failed call.
- The language-model interface the agents and graph nodes import: `graph/nodes.py:12` and the legacy agents import `LLMConfigError`, `LLMServiceError`, `ensure_json_keys` and `get_llm().chat_json` from `llm_service.py`. The file defines none of the first three, and the `AgenticLLMService` that `get_llm()` returns (`llm_service.py:250`) has no `chat_json`. As shipped, those imports fail with ImportError. The model assumes the interface the callers use: only `LLMConfigError` and `LLMServiceError` become `None`; any other exception would propagate and is not modelled.
- The graph runtime: graph compilation, checkpointers, `Command(resume=...)`, `astream` and event streaming. The routing table is a function, and a turn is the sequence of states the graph emits.
- HTTP and file I/O:
  - the streaming endpoint `/chat/stream`, `/state/{thread_id}` and `/health`;
  - the routers under `backend/app/api`, the Next.js routes and `storage_service.py`;
  - the upload file write and loading the offer file.
  Only the `/chat` handlers and `/reset` are modelled.
- `_extract_pdf_text`'s PDF parser: a stored file's pages are given as text, or `None` when the parser fails.
- The Neo4j driver and Cypher queries: the connection is a boolean and the detection rows are a parameter. The ingest side effect is not modelled.
- `credit_bureau.py` and the tools built on it: the bureau's score is an input.
- Clocks and randomness:
  - UUIDs, reference-number suffixes, base64 document hashes, `datetime.utcnow`, `Date.now`, `Math.random` and `crypto.randomUUID` are parameters;
  - times are integers (seconds).
- Fields that only report progress: `agent_thoughts`, `current_goal`, `updated_at`, `created_at` and the fraud fields of the graph state. The underwriting confidence is kept.
- Formatting: `formatCurrency`, `formatDate`, the sanction letter's ISO dates, the text inside `${}`, and the random helpers of `utils.ts` (`generateReferenceNumber`, `generateDocumentHash`, `getValidityDate`).
- The bot texts of the conversation table.
- IEEE floating point:
  - numbers are exact reals;
  - `NaN` and infinities become `None` where the code would produce them;
  - integer widths play no part.
- Unicode: character classes, `strip`, `lower` and `upper` are the ASCII ones.
- React: timers, rendering and the asynchronous batching of state updates. The stale `isStreaming` closure is not modelled: a call reads the current state. The `useLoanFlow` timer choreography and the PDF rendering of the sanction letter are not modelled either.
- `TextDecoder`: the response body arrives as already-decoded text chunks.
- Concurrency: the session store and the chat hook are single-threaded.
- `settings.py` and `config.py`: the strict-verification flag is a parameter.
- Emi.CalculateEmi: requires a rate of at least zero, because a negative rate can make the denominator zero (division by zero in Python). Callers pass a non-negative rate.
- AgentChat.ChatSession.SendMessage: its message-list postcondition holds only when the new identifiers are fresh in the list (`FreshId`). With a colliding id, `updateAgentMessage` would also rewrite the older message.
- AgentChat.ChatSession.UploadSalarySlip: the same holds for the messages it sends through `sendMessage`; with a colliding id only their number is stated.
- SalesAgent.CoerceFloat: the texts "inf", "infinity" and "nan" (in any case, with a sign) are refused (`None`), where Python's `float` gives a non-finite value; values beyond the double range stay exact instead of becoming infinite; only ASCII digits are read.
- SalesAgent.CoerceIntTruncates: `_coerce_int("inf")` raises an `OverflowError` its `try` does not catch; the model answers `None` for it, as for every refused text.
- Api.Checkpoints.Reset: the checkpointer's `aput` is called with the configuration and the state only; whether the installed LangGraph accepts that call is not modelled, and the reset is taken to store the state.
- OfferMart.FoundByOwnPan: requires that no earlier offer carries the same PAN, since the lookup returns the first match.
- TextUtils.AmountRoundTrip: stated over any numeral of `n` rather than over a printed number. The unit multiplier's independence of the numeral is `TextUtils.MultiplierIgnoresNumeral`.
- NodeExtract.FindNumberUnit: its own contract says only that a match starts at a digit. The leftmost-match property is `NodeExtract.FindNumberUnitIsLeftmost`.
- NodeExtract.ExtractTenureMonths: its own contract gives only non-negativity. The month and year readings are `NodeExtract.TenureByMonths`, `NodeExtract.TenureByYears` and `NodeExtract.TenureMonthsRoundTrip`.
- NodeExtract.ExtractNumber: the parsed value is stated for numerals (`NodeExtract.NumberRoundTrip`), not for every token with commas or a decimal point.
- LoanState.DefaultLoanData: the field bounds are proved for the default record only, because assignments are not validated (see above).
- Nodes.SalesAgentNode, Nodes.VerificationAgentNode, Nodes.UnderwritingAgentNode: these thread the running tool-call log (`Nodes.LogToolCall`). `_append_tool_call` as written keeps only the last call; see Findings.

- SessionStore.DefaultSession: holds an empty `history`, which `session_store.py:6-34` does not declare; as written a new session has no such attribute (Findings, `MasterAgent.AsWrittenFirstMessageFails`).
- SessionStore.SessionState.constructor: initialises the same undeclared `history` field, empty.
- SalesAgent.SalesTurnKeepsCollected: states the turn on a session with a `history` list. As written `handle_sales` raises AttributeError at `sales_agent.py:71`, before any change (`MasterAgent.AsWrittenOpenTurnRaises`).
- SalesAgent.SalesFrame: the same: as written the sales turn raises at `sales_agent.py:71`.
- SalesAgent.ReplySource: the same: as written the sales turn raises at `sales_agent.py:71` before any reply.
- SalesAgent.HandleSalesInPlace: the same: as written the sales turn raises at `sales_agent.py:71`.
- VerificationAgent.MissingContactAsksFirst: states the turn on a session with a `history` list. As written `_extract_inputs_with_llm` raises AttributeError at `verification_agent.py:19`; the `except` at `:67` does not catch it (`MasterAgent.AsWrittenOpenTurnRaises`).
- VerificationAgent.FraudStoredBeforeDecision: the same: as written the verification turn raises at `verification_agent.py:19`.
- VerificationAgent.FallbackFailsClosed: the same: as written the verification turn raises at `verification_agent.py:19`.
- VerificationAgent.DecisionMapping: the same: as written the verification turn raises at `verification_agent.py:19`.
- VerificationAgent.ModelCanOverrideFailedKyc: the same: as written the verification turn raises at `verification_agent.py:19`.
- VerificationAgent.VerificationFrame: the same: as written the verification turn raises at `verification_agent.py:19`.
- VerificationAgent.HandleVerificationInPlace: the same: as written the verification turn raises at `verification_agent.py:19`.
- MasterAgent.UnderwritingTurnAppendsOnly: is about the corrected `history`. As written the appends at `master_agent.py:53`, `66`, `82`, `102`, `119` and `123` raise AttributeError (`MasterAgent.AsWrittenOpenTurnRaises`).
- MasterAgent.VerificationTurnAppendsOnly: the same: as written there is no list to append to.
- MasterAgent.DispatchAppendsOnly: the same: as written there is no list to append to.
- MasterAgent.UserMessageRecorded: the corrected half: as written the append at `master_agent.py:47` raises and nothing is recorded (`MasterAgent.AsWrittenFirstMessageFails`).
- MasterAgent.VerificationRejectionEndsTurn: describes the corrected turn. As written this turn raises, at `master_agent.py:47` or `verification_agent.py:19`, before any reply (`MasterAgent.AsWrittenOpenTurnRaises`).
- MasterAgent.UnderwritingFollowsVerification: the same: as written the verification turn raises before underwriting runs.
- MasterAgent.UploadRequestParks: describes the corrected turn. As written every turn that could ask for an upload raises (`MasterAgent.AsWrittenOpenTurnRaises`). An underwriting turn leaves the stage parked on the record all the same (`MasterAgent.AsWrittenRaiseKeepsDecision`).
- MasterAgent.AwaitingSalary: describes the corrected turn. As written the prompt's append at `master_agent.py:123` raises, even for an empty message. With a slip, the append at `:119` raises after underwriting ran.
- MasterAgent.UnderwritingTurnLetter: describes the corrected turn. As written the append at `master_agent.py:102` raises before the letter is returned, though the approval stays on the record (`MasterAgent.AsWrittenRaiseKeepsDecision`).
- MasterAgent.VerificationTurnLetter: the same: as written the verification turn raises at `verification_agent.py:19`.
- MasterAgent.LetterExactlyOnApproval: describes the corrected turn. As written no open turn but the unknown stage's returns (`MasterAgent.AsWrittenOpenTurnRaises`).
- MasterAgent.RecordInPlace: models the append at `master_agent.py:53` on the corrected `history`. As written it raises and `update_session` is not reached.
- MasterAgent.DispatchInPlace: is proved equal to the corrected turn. As written the turn is `MasterAgent.HandleMessageAsWritten`, which raises on every open stage but the unknown one.
- MasterAgent.HandleMessage: the same; where the turn as written returns, the two agree (`MasterAgent.AsWrittenReturnsAgree`).

## Findings

| source | as written | input that shows it | evidently intended | confidence | as-written member | corrected member |
|---|---|---|---|---|---|---|
| backend/app/graph/nodes.py:44-55 | `_append_tool_call` copies the log stored in the state each time, so a node that calls two tools returns a log with only the second call | the sales node with a purpose, amount and tenure: `analyze_purpose` then `calculate_emi` are called and the returned log lacks `analyze_purpose` | each call is appended to the node's running log, so both calls are kept in order | high (not executed) | Nodes.AsWrittenLosesFirstCall | Nodes.RunningLogKeepsBothCalls |
| backend/app/services/session_store.py:6-34 | the dataclass declares no `history`, yet `master_agent.py:47`, `sales_agent.py:71` and `verification_agent.py:19` read or append `session.history`; the AttributeError escapes every handler | a new session and the message "hi": `session.history.append(...)` raises before anything is recorded | a `history: list` field defaulting to an empty list, to which the turn appends the user's message and the replies | high (not executed) | MasterAgent.AsWrittenFirstMessageFails | MasterAgent.UserMessageRecorded |
| backend/app/main.py:90-124 | `chat_endpoint` never seeds a new thread: `is_new_thread` is passed on unused and `create_initial_state` is only called by `/reset`, so the sales node reads `state["loan_data"]` (`graph/nodes.py:130`) from a state holding only the input's keys | a first message without a thread id: the `KeyError` is caught and answered as 500 "Internal error: 'loan_data'" | a new thread starts from `create_initial_state(thread_id)` and gets the sales agent's first question | high (not executed) | Api.AsWrittenNewThreadIs500 | Api.NewThreadStartsFromInitialState |
| backend/app/main.py:97-109 | `chat_endpoint`'s `except Exception` also catches the handlers' `HTTPException`s and re-raises each as a 500 | an upload with content type `text/plain` gets 500 "Internal error: 400: Invalid file type: text/plain" | the 400 raised at `main.py:178` reaches the client | high (not executed) | Api.AsWrittenRefusedUploadIs500 | Api.RefusedUploadIs400 |
| lib/hooks/useDocumentUpload.ts:51-56 | `uploadFile(file, docType, cb)` passes the document type where `uploadFile(file, onProgress)` (`mockServices.ts:104-107`) expects the callback; calling the string throws inside the interval, so the promise never settles | any valid file: the slot stays "uploading" at 0 and `handleFileSelect` never returns | `uploadFile(file, cb)`: the slot ends "uploaded" at 100 and the call returns true | high (not executed) | DocumentUpload.AsWrittenUploadNeverSettles | DocumentUpload.SuccessfulUploadEndsUploaded |
