/** The legacy in-memory session store of backend/app/services/session_store.py:
    one mutable session record per id, all held in a single map. The clock
    is a parameter `now` (seconds). */
module SessionStore {
  import opened Wrappers

  datatype Role = User | Assistant

  /** One line of the conversation history. */
  datatype Entry = Entry(role: Role, content: string)

  /** The values of a session record. Two attributes go beyond the declared
      dataclass fields. `dtiRatio` is assigned by the underwriting handler,
      which creates it. `history` is read and appended to by the agents but
      never declared nor assigned, so as written each use raises
      AttributeError (`MasterAgent.HandleMessageAsWritten`). Here it is the
      list the agents evidently expect, empty in a new session. */
  datatype Session = Session(
    sessionId: string, stage: string, createdAt: int, lastUpdatedAt: int,
    fullName: Option<string>, phoneNumber: Option<string>, address: Option<string>,
    requestedAmount: Option<real>, tenureMonths: Option<int>, loanPurpose: Option<string>,
    monthlyIncome: Option<real>, expectedInput: Option<string>,
    creditScore: Option<int>, preapprovedLimit: Option<real>, fraudRiskScore: Option<int>,
    fraudFlags: seq<string>, salarySlipUploaded: bool, salarySlipPath: Option<string>,
    applicationStatus: string, rejectionReason: Option<string>,
    history: seq<Entry>, dtiRatio: Option<real>)

  /** `interest_rate`: declared with this default and never reassigned. */
  const SessionInterestRate: real := 18.0

  /** A handler's reply together with the session it leaves. */
  datatype Handled = Handled(session: Session, reply: string)

  /** The statuses after which the dispatcher runs no handler. */
  predicate IsTerminal(status: string) {
    status == "approved" || status == "rejected" || status == "manual_review"
  }

  /** `SessionState(session_id=id)` created at time `now`, with the empty
      `history` the agents expect (the dataclass declares none). */
  function DefaultSession(id: string, now: int): (s: Session)
    ensures s.sessionId == id && s.createdAt == now && s.lastUpdatedAt == now
    ensures s.stage == "sales" && s.expectedInput == Some("amount")
    ensures s.applicationStatus == "in_progress" && !s.salarySlipUploaded
    ensures s.requestedAmount.None? && s.tenureMonths.None? && s.loanPurpose.None? && s.monthlyIncome.None?
    ensures s.fullName.None? && s.phoneNumber.None? && s.address.None?
    ensures s.creditScore.None? && s.rejectionReason.None? && s.fraudFlags == [] && s.history == []
  {
    Session(id, "sales", now, now, None, None, None, None, None, None, None, Some("amount"),
            None, None, None, [], false, None, "in_progress", None, [], None)
  }

  /** A fresh session is open: no handler is skipped for it. */
  lemma {:induction false} FreshSessionIsOpen(id: string, now: int)
    ensures !IsTerminal(DefaultSession(id, now).applicationStatus)
  {
    var s := DefaultSession(id, now);
    assert s.applicationStatus[0] == 'i';
  }

  /** The mutable session record. */
  class SessionState {
    const sessionId: string
    var stage: string
    const createdAt: int
    var lastUpdatedAt: int
    var fullName: Option<string>
    var phoneNumber: Option<string>
    var address: Option<string>
    var requestedAmount: Option<real>
    var tenureMonths: Option<int>
    var loanPurpose: Option<string>
    var monthlyIncome: Option<real>
    var expectedInput: Option<string>
    var creditScore: Option<int>
    var preapprovedLimit: Option<real>
    var fraudRiskScore: Option<int>
    var fraudFlags: seq<string>
    var salarySlipUploaded: bool
    var salarySlipPath: Option<string>
    var applicationStatus: string
    var rejectionReason: Option<string>
    var history: seq<Entry>
    var dtiRatio: Option<real>
    const interestRate: real := SessionInterestRate

    /** The record's current values. */
    function Snapshot(): Session
      reads this
    {
      Session(sessionId, stage, createdAt, lastUpdatedAt, fullName, phoneNumber, address,
              requestedAmount, tenureMonths, loanPurpose, monthlyIncome, expectedInput,
              creditScore, preapprovedLimit, fraudRiskScore, fraudFlags, salarySlipUploaded,
              salarySlipPath, applicationStatus, rejectionReason, history, dtiRatio)
    }

    /** A new record, holding the default session and its empty `history`. */
    constructor (id: string, now: int)
      ensures Snapshot() == DefaultSession(id, now)
    {
      sessionId, stage, createdAt, lastUpdatedAt := id, "sales", now, now;
      fullName, phoneNumber, address := None, None, None;
      requestedAmount, tenureMonths, loanPurpose, monthlyIncome := None, None, None, None;
      expectedInput := Some("amount");
      creditScore, preapprovedLimit, fraudRiskScore, fraudFlags := None, None, None, [];
      salarySlipUploaded, salarySlipPath := false, None;
      applicationStatus, rejectionReason := "in_progress", None;
      history, dtiRatio := [], None;
    }

    /** `touch()`: only the last-update time changes. */
    method Touch(now: int)
      modifies this`lastUpdatedAt
      ensures Snapshot() == old(Snapshot()).(lastUpdatedAt := now)
    {
      lastUpdatedAt := now;
    }

    /** `history.append(entry)`. */
    method Append(entry: Entry)
      modifies this`history
      ensures Snapshot() == old(Snapshot()).(history := old(history) + [entry])
    {
      history := history + [entry];
    }
  }

  /** The module-level `_SESSIONS` dictionary. */
  class Store {
    var sessions: map<string, SessionState>

    /** Every session is stored under its own id. */
    ghost predicate Valid()
      reads this
    {
      forall id :: id in sessions ==> sessions[id].sessionId == id
    }

    constructor ()
      ensures sessions == map[] && Valid()
    {
      sessions := map[];
    }

    /** `get_session(id)`: the stored session, touched; on the first access
        to `id` a default session is created and stored. */
    method GetSession(id: string, now: int) returns (s: SessionState)
      requires Valid()
      modifies this, if id in sessions then {sessions[id]} else {}
      ensures Valid() && id in sessions && sessions[id] == s && s.sessionId == id
      ensures id in old(sessions) ==>
        s == old(sessions[id]) && sessions == old(sessions)
        && s.Snapshot() == old(sessions[id].Snapshot()).(lastUpdatedAt := now)
      ensures id !in old(sessions) ==>
        fresh(s) && sessions == old(sessions)[id := s] && s.Snapshot() == DefaultSession(id, now)
    {
      if id !in sessions {
        var created := new SessionState(id, now);
        sessions := sessions[id := created];
      }
      s := sessions[id];
      s.Touch(now);
    }

    /** `update_session(session)`: touches the session and stores it under its
        own id, replacing whatever that id held, so the number of entries
        grows only for a new id; other ids keep their entries. */
    method UpdateSession(s: SessionState, now: int)
      requires Valid()
      modifies this, s`lastUpdatedAt
      ensures Valid() && sessions == old(sessions)[s.sessionId := s]
      ensures s.Snapshot() == old(s.Snapshot()).(lastUpdatedAt := now)
      ensures s.sessionId in old(sessions) ==> |sessions| == |old(sessions)|
      ensures s.sessionId !in old(sessions) ==> |sessions| == |old(sessions)| + 1
    {
      s.Touch(now);
      sessions := sessions[s.sessionId := s];
      if s.sessionId in old(sessions) {
        assert sessions.Keys == old(sessions).Keys;
      } else {
        assert sessions.Keys == old(sessions).Keys + {s.sessionId};
      }
    }
  }
}
