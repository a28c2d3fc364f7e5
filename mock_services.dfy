/** The mock back-end services of lib/loan-flow/mockServices.ts: masking of
    identifiers, the OTP rule, the credit formula, the approval stub, the
    sanction-letter fields and the simulated upload. Timer delays are left
    out; the clock, random suffixes and the file reader are parameters. */
module MockServices {
  import opened Wrappers
  import opened Numeric
  import opened Strings
  import opened LoanFlowTypes
  import Validators
  import Credit

  // ------------------------------------------------------------ masking

  /** `s.slice(-n)`: the last `n` characters, or all of a shorter string. */
  function SliceLast(s: string, n: nat): (r: string)
    ensures |r| == if |s| < n then |s| else n
    ensures r == s[|s| - |r|..]
  {
    if |s| <= n then s else s[|s| - n..]
  }

  /** `s.slice(0, n)`: the first `n` characters, or all of a shorter string. */
  function SliceFirst(s: string, n: nat): (r: string)
    ensures |r| == if |s| < n then |s| else n
    ensures r == s[..|r|]
  {
    if |s| <= n then s else s[..n]
  }

  /** `maskMobile(mobile)`. */
  function MaskMobile(mobile: string): string {
    "******" + SliceLast(mobile, 4)
  }

  /** `maskPAN(pan)`. */
  function MaskPan(pan: string): string {
    SliceFirst(pan, 2) + "****" + SliceLast(pan, 2)
  }

  /** `maskAadhaar(aadhaar)`. */
  function MaskAadhaar(aadhaar: string): string {
    "****-****-" + SliceLast(aadhaar, 4)
  }

  /** A masked mobile or Aadhaar number reveals its last four characters
      and nothing else: two numbers of at least four characters have the
      same mask exactly when they end alike. */
  lemma {:induction false} MasksRevealLastFour(m1: string, m2: string)
    requires |m1| >= 4 && |m2| >= 4
    ensures MaskMobile(m1) == MaskMobile(m2) <==> m1[|m1| - 4..] == m2[|m2| - 4..]
    ensures MaskAadhaar(m1) == MaskAadhaar(m2) <==> m1[|m1| - 4..] == m2[|m2| - 4..]
    ensures |MaskMobile(m1)| == 10 && |MaskAadhaar(m1)| == 14
  {
    var t1, t2 := m1[|m1| - 4..], m2[|m2| - 4..];
    if MaskMobile(m1) == MaskMobile(m2) {
      assert t1 == MaskMobile(m1)[6..] && t2 == MaskMobile(m2)[6..];
    }
    if MaskAadhaar(m1) == MaskAadhaar(m2) {
      assert t1 == MaskAadhaar(m1)[10..] && t2 == MaskAadhaar(m2)[10..];
    }
  }

  /** A masked ten-character PAN reveals its first two and last two
      characters and nothing else. */
  lemma {:induction false} PanMaskRevealsEnds(p1: string, p2: string)
    requires |p1| == 10 && |p2| == 10
    ensures MaskPan(p1) == MaskPan(p2) <==> p1[..2] == p2[..2] && p1[8..] == p2[8..]
    ensures |MaskPan(p1)| == 8
  {
    if MaskPan(p1) == MaskPan(p2) {
      assert p1[..2] == MaskPan(p1)[..2] && p2[..2] == MaskPan(p2)[..2];
      assert p1[8..] == MaskPan(p1)[6..] && p2[8..] == MaskPan(p2)[6..];
    }
  }

  // ------------------------------------------------------------ OTP

  /** The rule of `verifyOTP(otp)`: `/^\\d{6}$/`. */
  function VerifyOtp(otp: string): (ok: bool)
    ensures ok <==> |otp| == 6 && AllDigits(otp)
  {
    |otp| == 6 && forall k :: 0 <= k < 6 ==> IsDigit(otp[k])
  }

  /** Every OTP the mock service accepts passes the OTP validator; an OTP
      typed as two groups of three passes the validator but is refused. */
  lemma {:induction false} VerifiedOtpIsValid(otp: string, a: string, b: string)
    requires |a| == 3 && |b| == 3 && AllDigits(a) && AllDigits(b)
    ensures VerifyOtp(otp) ==> Validators.ValidateOtp(otp).isValid
    ensures Validators.ValidateOtp(a + " " + b).isValid && !VerifyOtp(a + " " + b)
  {
    if VerifyOtp(otp) { DigitsOfAllDigits(otp); }
    DigitsOfAppend(a + " ", b);
    DigitsOfAppend(a, " ");
    assert DigitsOf(" ") == [];
    DigitsOfAllDigits(a);
    DigitsOfAllDigits(b);
    assert (a + " " + b)[3] == ' ';
  }

  // ------------------------------------------------------------ credit

  /** `performCreditEvaluation(pan, aadhaar, monthlyIncome)`; the PAN and
      Aadhaar are not consulted and the timestamp is a parameter. */
  function PerformCreditEvaluation(pan: string, aadhaar: string, monthlyIncome: real, now: string): (e: CreditEvaluation)
    ensures e.score.Some? && e.evaluatedAt == Some(now)
    ensures e.status == CreditApproved <==> e.score.value >= 650.0
    ensures e.status == CreditApproved || e.status == CreditRejected
    ensures e.score.value <= 850.0 && e.score.value == e.score.value.Floor as real
  {
    var incomeMultiplier := MinReal(monthlyIncome / 50000.0, 2.0);
    var score := MinInt(850, RoundHalfUp(600.0 + incomeMultiplier * 100.0));
    CreditEvaluation(if score >= 650 then CreditApproved else CreditRejected, Some(score as real), Some(now))
  }

  /** The browser's formula is the back end's with `Math.round` in place of
      Python's `round`: the scores differ by at most one point, only on a
      tie, and the approval decisions always agree. */
  lemma {:induction false} MatchesBackendCredit(monthlyIncome: real, now: string)
    ensures var e := PerformCreditEvaluation("", "", monthlyIncome, now);
      var b := Credit.EvaluateCredit(monthlyIncome);
      b.score as real <= e.score.value <= b.score as real + 1.0
      && (e.status == CreditApproved <==> b.status == "approved")
  {
    var x := 600.0 + Credit.IncomeMultiplier(monthlyIncome) * 100.0;
    HalfEvenBelowHalfUp(x);
    RoundHalfUpNear(x);
  }

  /** The cap of 850 never binds: the multiplier is at most 2. */
  lemma {:induction false} ScoreAtMostEightHundred(monthlyIncome: real, now: string)
    ensures PerformCreditEvaluation("", "", monthlyIncome, now).score.value <= 800.0
  {
  }

  // ------------------------------------------------------------ approval and letter

  /** `processApproval()`: the demo always approves. */
  function ProcessApproval(): (s: ApprovalStatus)
    ensures s == Approved
  {
    Approved
  }

  /** `validUntil.setDate(validUntil.getDate() + days)`: the same local time
      of day, `days` calendar days later. */
  function AddDays(t: LocalTime, days: int): LocalTime {
    t.(day := t.day + days)
  }

  /** `generateSanctionLetterData(applicantName, loanOffer)`. The clock
      (`now`, `nowMs`), the random suffix and the document hash are given. */
  function GenerateSanctionLetterData(applicantName: string, loanOffer: LoanOffer, now: LocalTime,
                                      nowMs: nat, randomSuffix: string, documentHash: string): (l: SanctionLetter)
    ensures l.applicantName == applicantName && l.loanDetails == loanOffer
    ensures l.generatedAt == now
    ensures l.validUntil.day == l.generatedAt.day + 30 && l.validUntil.msOfDay == l.generatedAt.msOfDay
    ensures StartsWith(l.referenceNumber, "SL-")
  {
    var referenceNumber := "SL-" + NatToString(nowMs) + "-" + randomSuffix;
    SanctionLetter(referenceNumber, None, now, None, AddDays(now, 30), documentHash, applicantName, loanOffer)
  }

  /** The reference number carries the generation timestamp: the digits
      after `SL-` read back as `nowMs`. */
  lemma {:induction false} ReferenceCarriesTimestamp(applicantName: string, loanOffer: LoanOffer, now: LocalTime,
                                                    nowMs: nat, randomSuffix: string, documentHash: string)
    ensures var r := GenerateSanctionLetterData(applicantName, loanOffer, now, nowMs, randomSuffix, documentHash).referenceNumber;
      var n := |NatToString(nowMs)|;
      3 + n < |r| && r[3 + n] == '-' && AllDigits(r[3..3 + n]) && NatOf(r[3..3 + n]) == nowMs
  {
    var d := NatToString(nowMs);
    var r := "SL-" + d + "-" + randomSuffix;
    assert r[3..3 + |d|] == d;
  }

  // ------------------------------------------------------------ upload

  /** What `uploadFile` receives as `onProgress`: nothing, a callback, or a
      value that is truthy but not a function. */
  datatype ProgressSink = NoCallback | Callback | NotCallable

  /** The state of the promise `uploadFile` returns. */
  datatype UploadOutcome = UploadPending | Resolved(url: string, base64: string) | ReadRejected(reason: string)

  const ReadFailure: string := "Failed to read file"

  /** The progress values reported over the first `n` ticks: 10, 20, … */
  function ProgressReports(n: nat): (r: seq<real>)
    ensures |r| == n
    ensures forall k :: 0 <= k < n ==> r[k] == 10.0 * (k + 1) as real
  {
    if n == 0 then [] else ProgressReports(n - 1) + [10.0 * n as real]
  }

  /** The progress values a sink receives over `ticks` firings: only a
      callback receives any, and the interval stops after ten. */
  function ReportsAfter(sink: ProgressSink, ticks: nat): seq<real> {
    if sink == Callback then ProgressReports(if ticks < 10 then ticks else 10) else []
  }

  /** The promise after `ticks` firings of the interval, the file reader
      giving `read` (the data URL, or `None` on a read error). */
  function OutcomeAfter(sink: ProgressSink, ticks: nat, read: Option<string>, url: string): UploadOutcome {
    if sink == NotCallable || ticks < 10 then UploadPending
    else if read.Some? then Resolved(url, read.value)
    else ReadRejected(ReadFailure)
  }

  /** `uploadFile(file, onProgress)` observed over the first `ticks` firings
      of its 200 ms interval. Calling a non-function throws inside the
      interval callback: the rest of that tick is skipped and the interval,
      never cleared, keeps firing. */
  method UploadFile(sink: ProgressSink, ticks: nat, read: Option<string>, url: string)
    returns (reports: seq<real>, outcome: UploadOutcome)
    ensures reports == ReportsAfter(sink, ticks)
    ensures outcome == OutcomeAfter(sink, ticks, read, url)
  {
    var progress := 0;
    var tick := 0;
    var cleared := false;
    reports := [];
    outcome := UploadPending;
    while tick < ticks && !cleared
      invariant tick <= ticks && progress == 10 * tick
      invariant sink == Callback ==> reports == ProgressReports(tick)
      invariant sink != Callback ==> reports == []
      invariant cleared <==> sink != NotCallable && tick == 10
      invariant sink != NotCallable ==> tick <= 10
      invariant outcome == OutcomeAfter(sink, if cleared then 10 else 0, read, url)
      decreases ticks - tick
    {
      progress := progress + 10;
      tick := tick + 1;
      if sink != NotCallable {
        if sink == Callback {
          reports := reports + [(if progress <= 100 then progress else 100) as real];
        }
        if progress >= 100 {
          cleared := true;
          outcome := if read.Some? then Resolved(url, read.value) else ReadRejected(ReadFailure);
        }
      }
    }
  }

  /** The reports of a completed upload rise in steps of ten from 10 to
      100, each within (0, 100]. */
  lemma {:induction false} ReportsRiseToHundred()
    ensures var r := ProgressReports(10);
      r[9] == 100.0 && (forall k :: 0 <= k < 10 ==> 0.0 < r[k] <= 100.0)
      && (forall k :: 0 < k < 10 ==> r[k] == r[k - 1] + 10.0)
  {
  }

  /** A non-function progress sink never lets the upload settle, however
      long the interval runs. */
  lemma {:induction false} NotCallableNeverSettles(ticks: nat, read: Option<string>, url: string)
    ensures OutcomeAfter(NotCallable, ticks, read, url) == UploadPending
    ensures OutcomeAfter(Callback, ticks, read, url).UploadPending? <==> ticks < 10
  {
  }
}
