/** The document-upload hook of lib/hooks/useDocumentUpload.ts: counts over
    the four document slots, the reset of a slot, and the actions
    `handleFileSelect` dispatches. The hook's `dispatch` is the reducer of
    lib/loan-flow/loanFlowReducer.ts, so a run is a sequence of actions
    applied with `ReduceAll`. */
module DocumentUpload {
  import opened Wrappers
  import opened Numeric
  import opened LoanFlowTypes
  import opened LoanFlowReducer
  import Validators
  import MockServices

  /** The number of slots in `docs` whose status is `st`. */
  function CountStatus(docs: seq<DocumentFile>, st: DocumentUploadStatus): (n: nat)
    ensures n <= |docs|
  {
    if docs == [] then 0
    else (if docs[0].status == st then 1 else 0) + CountStatus(docs[1..], st)
  }

  /** Every slot of `docs` has one of the four statuses. */
  lemma {:induction false} CountsPartition(docs: seq<DocumentFile>)
    ensures CountStatus(docs, Pending) + CountStatus(docs, Uploading)
            + CountStatus(docs, Uploaded) + CountStatus(docs, UploadError) == |docs|
  {
    if docs != [] { CountsPartition(docs[1..]); }
  }

  /** A count reaches the length exactly when every slot has the status. */
  lemma {:induction false} CountAll(docs: seq<DocumentFile>, st: DocumentUploadStatus)
    ensures CountStatus(docs, st) == |docs| <==> forall k :: 0 <= k < |docs| ==> docs[k].status == st
  {
    if docs != [] {
      CountAll(docs[1..], st);
      if CountStatus(docs, st) == |docs| {
        assert docs[0].status == st;
        forall k | 0 < k < |docs| ensures docs[k].status == st {
          assert docs[k] == docs[1..][k - 1];
        }
      }
      if forall k :: 0 <= k < |docs| ==> docs[k].status == st {
        assert forall k :: 0 <= k < |docs| - 1 ==> docs[1..][k] == docs[k + 1];
      }
    }
  }

  /** `areAllDocumentsUploaded()`. */
  function AreAllDocumentsUploaded(documents: DocumentsState): (all: bool)
    ensures all <==> forall k: DocumentKind :: documents.Get(k).status == Uploaded
  {
    var vs := documents.Values();
    assert vs[0] == documents.Get(SalarySlip) && vs[1] == documents.Get(BankStatement)
           && vs[2] == documents.Get(AddressProof) && vs[3] == documents.Get(Selfie);
    forall k | 0 <= k < |vs| :: vs[k].status == Uploaded
  }

  datatype UploadSummary = UploadSummary(total: nat, uploaded: nat, uploading: nat, pending: int,
                                         isComplete: bool, percentage: int)

  /** `getUploadSummary()`. */
  function GetUploadSummary(documents: DocumentsState): (s: UploadSummary)
    ensures s.total == 4 && s.pending == 4 - s.uploaded - s.uploading
    ensures s.isComplete <==> s.uploaded == 4
    ensures s.percentage == 25 * s.uploaded && s.percentage in {0, 25, 50, 75, 100}
  {
    var vs := documents.Values();
    var uploaded := CountStatus(vs, Uploaded);
    var uploading := CountStatus(vs, Uploading);
    var percentage := RoundHalfUp(uploaded as real / 4.0 * 100.0);
    assert percentage == 25 * uploaded;
    UploadSummary(4, uploaded, uploading, 4 - uploaded - uploading, uploaded == 4, percentage)
  }

  /** The summary is complete exactly when every document is uploaded, and
      its pending count includes the slots whose upload failed. */
  lemma {:induction false} SummaryAgreesWithSlots(documents: DocumentsState)
    ensures GetUploadSummary(documents).isComplete == AreAllDocumentsUploaded(documents)
    ensures GetUploadSummary(documents).pending
            == CountStatus(documents.Values(), Pending) + CountStatus(documents.Values(), UploadError)
    ensures GetUploadSummary(documents).pending >= 0
  {
    var vs := documents.Values();
    CountAll(vs, Uploaded);
    CountsPartition(vs);
    assert vs[0] == documents.Get(SalarySlip) && vs[1] == documents.Get(BankStatement)
           && vs[2] == documents.Get(AddressProof) && vs[3] == documents.Get(Selfie);
  }

  /** `removeDocument(docType)`: the slot is replaced by one holding only
      status pending and progress 0. */
  function RemoveDocument(kind: DocumentKind): LoanFlowAction {
    UploadDocument(kind, DocumentFile(None, Pending, 0.0, None, None, None, None, None))
  }

  /** Removing a document returns its slot to the initial slot, leaves the
      other slots alone, and leaves the set incomplete. */
  lemma {:induction false} RemoveResetsSlot(s: LoanFlowState, kind: DocumentKind)
    ensures var r := Reduce(s, RemoveDocument(kind));
      r.documents.Get(kind) == InitialDocument
      && (forall j :: j != kind ==> r.documents.Get(j) == s.documents.Get(j))
      && !AreAllDocumentsUploaded(r.documents)
  {
  }

  // ------------------------------------------------------------ file selection

  const UploadFailedMessage: string := "Upload failed. Please try again."

  /** The actions one call of `handleFileSelect` dispatches, and what the
      call returns: `None` when its promise never settles. */
  datatype FileSelectRun = FileSelectRun(actions: seq<LoanFlowAction>, returned: Option<bool>)

  /** The slot recorded before the upload starts. */
  function UploadingSlot(file: FileInfo): DocumentFile {
    DocumentFile(Some(file), Uploading, 0.0, None, None, None, Some(file.name), Some(file.size))
  }

  /** The slot recorded once the upload has resolved. */
  function UploadedSlot(file: FileInfo, url: string, base64: string, now: string): DocumentFile {
    UploadingSlot(file).(status := Uploaded, progress := 100.0, url := Some(url),
                         base64 := Some(base64), uploadedAt := Some(now))
  }

  /** One progress action per report. */
  function ProgressActions(kind: DocumentKind, reports: seq<real>): (r: seq<LoanFlowAction>)
    ensures |r| == |reports|
    ensures forall k :: 0 <= k < |r| ==> r[k] == UpdateDocumentProgress(kind, reports[k])
  {
    if reports == [] then [] else [UpdateDocumentProgress(kind, reports[0])] + ProgressActions(kind, reports[1..])
  }

  /** The refusal of an invalid file. */
  function RefuseFile(file: FileInfo): FileSelectRun {
    FileSelectRun([SetError(Validators.ValidateFile(file, Validators.DefaultMaxSizeMB).error)], Some(false))
  }

  /** The actions dispatched before the upload settles. */
  function StartActions(kind: DocumentKind, file: FileInfo, reports: seq<real>): seq<LoanFlowAction> {
    [UploadDocument(kind, UploadingSlot(file))] + ProgressActions(kind, reports)
  }

  /** A call of `handleFileSelect(docType, file)` whose `uploadFile` receives
      `sink` as its progress callback, observed over `ticks` firings of the
      upload interval. The reader's data URL (`None` on a read error), the
      object URL and the clock are given. */
  function SelectFile(sink: MockServices.ProgressSink, ticks: nat, kind: DocumentKind, file: FileInfo,
                      read: Option<string>, url: string, now: string): (run: FileSelectRun)
    ensures !Validators.ValidateFile(file, Validators.DefaultMaxSizeMB).isValid ==> run == RefuseFile(file)
    ensures run.returned.None? <==> Validators.ValidateFile(file, Validators.DefaultMaxSizeMB).isValid
                                    && MockServices.OutcomeAfter(sink, ticks, read, url).UploadPending?
  {
    if !Validators.ValidateFile(file, Validators.DefaultMaxSizeMB).isValid then RefuseFile(file)
    else
      var start := StartActions(kind, file, MockServices.ReportsAfter(sink, ticks));
      match MockServices.OutcomeAfter(sink, ticks, read, url)
      case UploadPending => FileSelectRun(start, None)
      case Resolved(u, b) =>
        FileSelectRun(start + [UploadDocument(kind, UploadedSlot(file, u, b, now))], Some(true))
      case ReadRejected(_) =>
        FileSelectRun(start + [SetDocumentStatus(kind, UploadError), SetError(Some(UploadFailedMessage))], Some(false))
  }

  /** `handleFileSelect(docType, file)` as written: `uploadFile` is called
      as `uploadFile(file, docType, callback)`, so its progress callback is
      the slot name, a string. */
  function HandleFileSelectAsWritten(kind: DocumentKind, file: FileInfo, ticks: nat, read: Option<string>,
                                     url: string, now: string): (run: FileSelectRun)
    ensures !Validators.ValidateFile(file, Validators.DefaultMaxSizeMB).isValid ==> run == RefuseFile(file)
  {
    SelectFile(MockServices.NotCallable, ticks, kind, file, read, url, now)
  }

  /** `handleFileSelect(docType, file)` with the progress callback passed
      as `uploadFile`'s second argument; the upload settles after ten
      ticks. */
  function HandleFileSelect(kind: DocumentKind, file: FileInfo, read: Option<string>, url: string, now: string)
    : (run: FileSelectRun)
    ensures !Validators.ValidateFile(file, Validators.DefaultMaxSizeMB).isValid ==> run == RefuseFile(file)
    ensures run.returned.Some?
  {
    SelectFile(MockServices.Callback, 10, kind, file, read, url, now)
  }

  /** An invalid file only sets the error, touches no slot, and returns
      false. */
  lemma {:induction false} InvalidFileOnlySetsError(s: LoanFlowState, kind: DocumentKind, file: FileInfo,
                                                    read: Option<string>, url: string, now: string)
    requires !Validators.ValidateFile(file, Validators.DefaultMaxSizeMB).isValid
    ensures var run := HandleFileSelect(kind, file, read, url, now);
      run.returned == Some(false) && |run.actions| == 1 && run.actions[0].SetError?
      && ReduceAll(s, run.actions).documents == s.documents
      && ReduceAll(s, run.actions).error == Validators.ValidateFile(file, Validators.DefaultMaxSizeMB).error
  {
    var run := HandleFileSelect(kind, file, read, url, now);
    assert run.actions[1..] == [];
  }

  /** Progress reports change only the slot being uploaded. */
  lemma {:induction false} ProgressTouchesOneSlot(s: LoanFlowState, kind: DocumentKind, reports: seq<real>)
    ensures var r := ReduceAll(s, ProgressActions(kind, reports));
      (forall j :: j != kind ==> r.documents.Get(j) == s.documents.Get(j))
      && r.error == s.error && r.messages == s.messages
    decreases |reports|
  {
    if reports != [] {
      var acts := ProgressActions(kind, reports);
      assert acts[1..] == ProgressActions(kind, reports[1..]);
      ProgressTouchesOneSlot(Reduce(s, acts[0]), kind, reports[1..]);
    }
  }

  /** Dispatching one action and then the rest. */
  lemma {:induction false} ReduceAllCons(s: LoanFlowState, a: LoanFlowAction, rest: seq<LoanFlowAction>)
    ensures ReduceAll(s, [a] + rest) == ReduceAll(Reduce(s, a), rest)
  {
    assert ([a] + rest)[0] == a && ([a] + rest)[1..] == rest;
  }

  /** The start of a valid selection, the uploading slot and then the
      progress reports, changes only the slot being uploaded. */
  lemma {:induction false} StartTouchesOneSlot(s: LoanFlowState, kind: DocumentKind, file: FileInfo, reports: seq<real>)
    ensures var r := ReduceAll(s, StartActions(kind, file, reports));
      (forall j :: j != kind ==> r.documents.Get(j) == s.documents.Get(j)) && r.error == s.error
  {
    var rest := ProgressActions(kind, reports);
    ReduceAllCons(s, UploadDocument(kind, UploadingSlot(file)), rest);
    var s1 := Reduce(s, UploadDocument(kind, UploadingSlot(file)));
    assert s1.documents == s.documents.Set(kind, UploadingSlot(file)) && s1.error == s.error;
    ProgressTouchesOneSlot(s1, kind, reports);
  }

  /** The run of a valid selection, by the outcome of the read. */
  lemma {:induction false} ValidRun(kind: DocumentKind, file: FileInfo, read: Option<string>, url: string, now: string)
    requires Validators.ValidateFile(file, Validators.DefaultMaxSizeMB).isValid
    ensures var start := StartActions(kind, file, MockServices.ProgressReports(10));
      var run := HandleFileSelect(kind, file, read, url, now);
      (read.Some? ==> run == FileSelectRun(start + [UploadDocument(kind, UploadedSlot(file, url, read.value, now))], Some(true)))
      && (read.None? ==> run == FileSelectRun(start + [SetDocumentStatus(kind, UploadError), SetError(Some(UploadFailedMessage))], Some(false)))
  {
  }

  /** Whatever was reported, a final slot replaces the uploaded slot and
      leaves the others as they were. */
  lemma {:induction false} StartThenSlot(s: LoanFlowState, kind: DocumentKind, file: FileInfo, reports: seq<real>,
                                         d: DocumentFile)
    ensures var r := ReduceAll(s, StartActions(kind, file, reports) + [UploadDocument(kind, d)]);
      r.documents.Get(kind) == d && (forall j :: j != kind ==> r.documents.Get(j) == s.documents.Get(j))
  {
    var start := StartActions(kind, file, reports);
    StartTouchesOneSlot(s, kind, file, reports);
    ReduceAllAppend(s, start, [UploadDocument(kind, d)]);
    var s1 := ReduceAll(s, start);
    ReduceAllCons(s1, UploadDocument(kind, d), []);
    assert [UploadDocument(kind, d)] + [] == [UploadDocument(kind, d)];
  }

  /** Whatever was reported, a failure marks the slot and records the
      message, leaving the other slots as they were. */
  lemma {:induction false} StartThenFailure(s: LoanFlowState, kind: DocumentKind, file: FileInfo, reports: seq<real>)
    ensures var r := ReduceAll(s, StartActions(kind, file, reports)
                                  + [SetDocumentStatus(kind, UploadError), SetError(Some(UploadFailedMessage))]);
      r.documents.Get(kind).status == UploadError && r.error == Some(UploadFailedMessage)
      && (forall j :: j != kind ==> r.documents.Get(j) == s.documents.Get(j))
  {
    var start := StartActions(kind, file, reports);
    var last := [SetDocumentStatus(kind, UploadError), SetError(Some(UploadFailedMessage))];
    StartTouchesOneSlot(s, kind, file, reports);
    ReduceAllAppend(s, start, last);
    var s1 := ReduceAll(s, start);
    ReduceAllCons(s1, last[0], [last[1]]);
    var s2 := Reduce(s1, last[0]);
    ReduceAllCons(s2, last[1], []);
    assert last == [last[0]] + [last[1]] && [last[1]] == [last[1]] + [];
  }

  /** A valid file that is read successfully ends uploaded at 100% with its
      URL, the other slots untouched, and the call returns true. */
  lemma {:induction false} SuccessfulUploadEndsUploaded(s: LoanFlowState, kind: DocumentKind, file: FileInfo,
                                                        data: string, url: string, now: string)
    requires Validators.ValidateFile(file, Validators.DefaultMaxSizeMB).isValid
    ensures var run := HandleFileSelect(kind, file, Some(data), url, now);
      var r := ReduceAll(s, run.actions);
      run.returned == Some(true)
      && r.documents.Get(kind).status == Uploaded && r.documents.Get(kind).progress == 100.0
      && r.documents.Get(kind).url == Some(url) && r.documents.Get(kind).base64 == Some(data)
      && (forall j :: j != kind ==> r.documents.Get(j) == s.documents.Get(j))
  {
    ValidRun(kind, file, Some(data), url, now);
    StartThenSlot(s, kind, file, MockServices.ProgressReports(10), UploadedSlot(file, url, data, now));
  }

  /** A read error marks the slot as failed, records the error message, and
      the call returns false. */
  lemma {:induction false} FailedUploadMarksError(s: LoanFlowState, kind: DocumentKind, file: FileInfo,
                                                  url: string, now: string)
    requires Validators.ValidateFile(file, Validators.DefaultMaxSizeMB).isValid
    ensures var run := HandleFileSelect(kind, file, None, url, now);
      var r := ReduceAll(s, run.actions);
      run.returned == Some(false)
      && r.documents.Get(kind).status == UploadError && r.error == Some(UploadFailedMessage)
      && (forall j :: j != kind ==> r.documents.Get(j) == s.documents.Get(j))
  {
    ValidRun(kind, file, None, url, now);
    StartThenFailure(s, kind, file, MockServices.ProgressReports(10));
  }

  /** As written, a valid file leaves its slot uploading at 0% and the call
      never returns, however long the interval runs and whatever the file
      reader would give. */
  lemma {:induction false} AsWrittenUploadNeverSettles(s: LoanFlowState, kind: DocumentKind, file: FileInfo,
                                                       ticks: nat, read: Option<string>, url: string, now: string)
    requires Validators.ValidateFile(file, Validators.DefaultMaxSizeMB).isValid
    ensures var run := HandleFileSelectAsWritten(kind, file, ticks, read, url, now);
      var r := ReduceAll(s, run.actions);
      run.returned.None?
      && r.documents.Get(kind).status == Uploading && r.documents.Get(kind).progress == 0.0
      && !AreAllDocumentsUploaded(r.documents)
  {
    var run := HandleFileSelectAsWritten(kind, file, ticks, read, url, now);
    assert run.actions == StartActions(kind, file, []);
    assert run.actions[1..] == [];
  }
}
