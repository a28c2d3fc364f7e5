/** The uploaded-document checks of
    backend/app/services/document_verification_service.py: presence of the
    file, then per document type either a plain acceptance or, in strict
    mode, an identity match of the PAN or Aadhaar number against the text of
    the PDF or the file name. The file system and the PDF reader are given as
    a `StoredFile`; the strict flag is a parameter. */
module DocumentVerification {
  import opened Wrappers
  import opened Strings

  // ------------------------------------------------------------ whitespace

  /** `re.sub(r"\s+", "", s)`: every whitespace character removed. */
  function RemoveSpaces(s: string): (r: string)
    ensures |r| <= |s|
    ensures forall k :: 0 <= k < |r| ==> !IsSpace(r[k])
  {
    if s == [] then []
    else if IsSpace(s[0]) then RemoveSpaces(s[1..])
    else [s[0]] + RemoveSpaces(s[1..])
  }

  lemma {:induction false} RemoveSpacesAppend(a: string, b: string)
    ensures RemoveSpaces(a + b) == RemoveSpaces(a) + RemoveSpaces(b)
  {
    if a != [] {
      assert (a + b)[1..] == a[1..] + b;
      RemoveSpacesAppend(a[1..], b);
    } else {
      assert a + b == b;
    }
  }

  /** A string without whitespace is left as it is. */
  lemma {:induction false} RemoveSpacesOfSpaceless(s: string)
    requires forall k :: 0 <= k < |s| ==> !IsSpace(s[k])
    ensures RemoveSpaces(s) == s
  {
    if s != [] {
      RemoveSpacesOfSpaceless(s[1..]);
      assert [s[0]] + s[1..] == s;
    }
  }

  /** Removing whitespace keeps exactly the other characters. */
  lemma {:induction false} RemoveSpacesKeeps(s: string)
    ensures forall c :: c in RemoveSpaces(s) <==> c in s && !IsSpace(c)
  {
    if s != [] {
      RemoveSpacesKeeps(s[1..]);
      assert s == [s[0]] + s[1..];
    }
  }

  /** `_normalize_aadhaar`: the empty string for a missing or empty number,
      the number without whitespace otherwise. */
  function NormalizeAadhaar(value: Option<string>): (r: string)
    ensures forall k :: 0 <= k < |r| ==> !IsSpace(r[k])
  {
    if !StrTruthy(value) then "" else RemoveSpaces(value.value)
  }

  /** Normalising keeps the number's other characters and drops nothing
      else, and normalising twice changes nothing. */
  lemma {:induction false} NormalizeAadhaarKeepsOthers(value: string)
    ensures forall c :: c in NormalizeAadhaar(Some(value)) <==> c in value && !IsSpace(c)
    ensures NormalizeAadhaar(Some(NormalizeAadhaar(Some(value)))) == NormalizeAadhaar(Some(value))
  {
    RemoveSpacesKeeps(value);
    RemoveSpacesOfSpaceless(NormalizeAadhaar(Some(value)));
  }

  // ------------------------------------------------------------ PAN pattern

  /** `\b[A-Z]{5}\d{4}[A-Z]\b` matches the ten characters at `i`. */
  predicate PanAt(t: string, i: nat) {
    i + 10 <= |t| && WordBoundary(t, i) && WordBoundary(t, i + 10)
    && (forall k :: i <= k < i + 5 ==> IsUpper(t[k]))
    && (forall k :: i + 5 <= k < i + 9 ==> IsDigit(t[k]))
    && IsUpper(t[i + 9])
  }

  /** `PAN_RE.findall(t[pos:])`: the scan tries each position from the left
      and resumes after a match. */
  function PanFindAll(t: string, pos: nat): seq<string>
    requires pos <= |t|
    decreases |t| - pos
  {
    if pos == |t| then []
    else if PanAt(t, pos) then [t[pos..pos + 10]] + PanFindAll(t, pos + 10)
    else PanFindAll(t, pos + 1)
  }

  /** `set(PAN_RE.findall(t))`. */
  function PanMatches(t: string): set<string> {
    var ms := PanFindAll(t, 0);
    set k | 0 <= k < |ms| :: ms[k]
  }

  /** Two PAN matches never overlap: inside a match every position lies
      between two word characters, so no word boundary starts another. */
  lemma {:induction false} PanMatchesDisjoint(t: string, i: nat, j: nat)
    requires PanAt(t, i) && i < j < i + 10
    ensures !PanAt(t, j)
  {
    if PanAt(t, j) {
      assert IsWordChar(t[j - 1]) && IsWordChar(t[j]);
      assert false;
    }
  }

  /** The scan from `pos` finds exactly the matches that start at or after `pos`. */
  lemma {:induction false} PanFindAllExact(t: string, pos: nat, x: string)
    requires pos <= |t|
    ensures x in PanFindAll(t, pos) <==> exists i: nat :: pos <= i && PanAt(t, i) && t[i..i + 10] == x
    decreases |t| - pos
  {
    if pos == |t| {
      assert forall i :: pos <= i ==> !PanAt(t, i);
    } else if PanAt(t, pos) {
      PanFindAllExact(t, pos + 10, x);
      forall i | pos < i < pos + 10 ensures !PanAt(t, i) {
        PanMatchesDisjoint(t, pos, i);
      }
    } else {
      PanFindAllExact(t, pos + 1, x);
    }
  }

  /** A PAN is among the matches exactly when the pattern matches it
      somewhere in the text, so the left-to-right scan misses none. */
  lemma {:induction false} PanMatchesExact(t: string, x: string)
    ensures x in PanMatches(t) <==> exists i: nat :: PanAt(t, i) && t[i..i + 10] == x
  {
    PanFindAllExact(t, 0, x);
    var ms := PanFindAll(t, 0);
    if x in ms {
      var k :| 0 <= k < |ms| && ms[k] == x;
      assert x in PanMatches(t);
    }
  }

  // ------------------------------------------------------------ Aadhaar pattern

  predicate FourDigitsAt(t: string, j: nat) {
    j + 4 <= |t| && forall k :: j <= k < j + 4 ==> IsDigit(t[k])
  }

  /** The position after an optional whitespace character (`\s?`). */
  function SkipSpace(t: string, j: nat): nat {
    if j < |t| && IsSpace(t[j]) then j + 1 else j
  }

  /** Where `\b\d{4}\s?\d{4}\s?\d{4}\b` matching at `i` ends, if it matches.
      The greedy `\s?` needs no backtracking: when it does not take a
      whitespace character, the digit that must follow is not there. */
  function AadhaarEnd(t: string, i: nat): (e: Option<nat>)
    ensures e.Some? ==> i + 12 <= e.value <= |t|
  {
    if !(i <= |t| && WordBoundary(t, i) && FourDigitsAt(t, i)) then None
    else
      var a := SkipSpace(t, i + 4);
      if !FourDigitsAt(t, a) then None
      else
        var b := SkipSpace(t, a + 4);
        if FourDigitsAt(t, b) && WordBoundary(t, b + 4) then Some(b + 4) else None
  }

  lemma {:induction false} FourDigitsNormalize(t: string, j: nat)
    requires FourDigitsAt(t, j)
    ensures RemoveSpaces(t[j..j + 4]) == t[j..j + 4] && AllDigits(t[j..j + 4])
  {
    RemoveSpacesOfSpaceless(t[j..j + 4]);
  }

  lemma {:induction false} SkippedNormalize(t: string, j: nat)
    requires j <= |t|
    ensures SkipSpace(t, j) <= |t| && RemoveSpaces(t[j..SkipSpace(t, j)]) == []
  {
    if SkipSpace(t, j) == j + 1 {
      assert t[j..j + 1] == [t[j]];
    }
  }

  /** Three digit groups with at most whitespace between them normalise
      to the twelve digits. */
  lemma {:induction false} GroupsNormalize(g1: string, s1: string, g2: string, s2: string, g3: string)
    requires |g1| == 4 && |g2| == 4 && |g3| == 4 && AllDigits(g1) && AllDigits(g2) && AllDigits(g3)
    requires RemoveSpaces(s1) == [] && RemoveSpaces(s2) == []
    ensures RemoveSpaces(g1 + s1 + g2 + s2 + g3) == g1 + g2 + g3
  {
    RemoveSpacesOfSpaceless(g1);
    RemoveSpacesOfSpaceless(g2);
    RemoveSpacesOfSpaceless(g3);
    RemoveSpacesAppend(g1 + s1 + g2 + s2, g3);
    RemoveSpacesAppend(g1 + s1 + g2, s2);
    RemoveSpacesAppend(g1 + s1, g2);
    RemoveSpacesAppend(g1, s1);
  }

  /** Every Aadhaar match is twelve digits once its whitespace is removed. */
  lemma {:induction false} AadhaarMatchIsTwelveDigits(t: string, i: nat, e: nat)
    requires AadhaarEnd(t, i) == Some(e)
    ensures |RemoveSpaces(t[i..e])| == 12 && AllDigits(RemoveSpaces(t[i..e]))
  {
    var a, b := AadhaarShape(t, i, e);
    GroupsAtNormalize(t, i, a, b);
  }

  /** A match is three groups of four digits, each of the two gaps between
      them at most one character wide and skipped as whitespace. */
  lemma {:induction false} AadhaarShape(t: string, i: nat, e: nat) returns (a: nat, b: nat)
    requires AadhaarEnd(t, i) == Some(e)
    ensures a == SkipSpace(t, i + 4) && b == SkipSpace(t, a + 4) && e == b + 4 && e <= |t|
    ensures FourDigitsAt(t, i) && FourDigitsAt(t, a) && FourDigitsAt(t, b)
  {
    a := SkipSpace(t, i + 4);
    b := SkipSpace(t, a + 4);
  }

  lemma {:induction false} GroupsAtNormalize(t: string, i: nat, a: nat, b: nat)
    requires a == SkipSpace(t, i + 4) && b == SkipSpace(t, a + 4)
    requires FourDigitsAt(t, i) && FourDigitsAt(t, a) && FourDigitsAt(t, b)
    ensures |RemoveSpaces(t[i..b + 4])| == 12 && AllDigits(RemoveSpaces(t[i..b + 4]))
  {
    FourDigitsNormalize(t, i);
    FourDigitsNormalize(t, a);
    FourDigitsNormalize(t, b);
    SkippedNormalize(t, i + 4);
    SkippedNormalize(t, a + 4);
    FiveSlices(t, i, i + 4, a, a + 4, b, b + 4);
    GroupsNormalize(t[i..i + 4], t[i + 4..a], t[a..a + 4], t[a + 4..b], t[b..b + 4]);
  }

  /** `AADHAAR_RE.findall(t[pos:])`, each match with its whitespace removed;
      the scan resumes after a match, so a match overlapping an earlier one
      is not reported. */
  function AadhaarFindAll(t: string, pos: nat): (r: seq<string>)
    requires pos <= |t|
    ensures forall k :: 0 <= k < |r| ==> |r[k]| == 12 && AllDigits(r[k])
    decreases |t| - pos
  {
    if pos == |t| then []
    else
      match AadhaarEnd(t, pos)
      case Some(e) =>
        AadhaarMatchIsTwelveDigits(t, pos, e);
        [RemoveSpaces(t[pos..e])] + AadhaarFindAll(t, e)
      case None => AadhaarFindAll(t, pos + 1)
  }

  /** `{re.sub(r"\s+", "", m) for m in AADHAAR_RE.findall(t)}`. */
  function AadhaarMatches(t: string): (r: set<string>)
    ensures forall x :: x in r ==> |x| == 12 && AllDigits(x)
  {
    var ms := AadhaarFindAll(t, 0);
    set k | 0 <= k < |ms| :: ms[k]
  }

  const OverlapSample: string := "1234 5678 9012 3456"

  lemma {:induction false} SampleFirstMatch()
    ensures AadhaarEnd(OverlapSample, 0) == Some(14)
    ensures RemoveSpaces(OverlapSample[0..14]) == "123456789012"
  {
    SampleFirstEnd();
    SampleFirstText();
  }

  lemma {:induction false} SampleFirstEnd()
    ensures AadhaarEnd(OverlapSample, 0) == Some(14)
  {
    var t := OverlapSample;
    assert WordBoundary(t, 0) && FourDigitsAt(t, 0);
    assert SkipSpace(t, 4) == 5 && FourDigitsAt(t, 5);
    assert SkipSpace(t, 9) == 10 && FourDigitsAt(t, 10);
  }

  lemma {:induction false} SampleFirstText()
    ensures RemoveSpaces(OverlapSample[0..14]) == "123456789012"
  {
    assert OverlapSample[0..14] == "1234" + " " + "5678" + " " + "9012";
    GroupsNormalize("1234", " ", "5678", " ", "9012");
  }

  lemma {:induction false} SampleRestHasNoMatch()
    ensures AadhaarFindAll(OverlapSample, 14) == []
  {
    var t := OverlapSample;
    assert AadhaarEnd(t, 18) == None;
    assert AadhaarFindAll(t, 18) == [];
    assert AadhaarEnd(t, 17) == None;
    assert AadhaarEnd(t, 16) == None;
    assert AadhaarEnd(t, 15) == None;
    assert AadhaarEnd(t, 14) == None;
  }

  lemma {:induction false} SampleScan()
    ensures AadhaarFindAll(OverlapSample, 0) == ["123456789012"]
  {
    SampleFirstMatch();
    SampleRestHasNoMatch();
  }

  lemma {:induction false} SampleSecondMatch()
    ensures AadhaarEnd(OverlapSample, 5) == Some(19)
  {
    var t := OverlapSample;
    assert WordBoundary(t, 5) && FourDigitsAt(t, 5);
    assert SkipSpace(t, 9) == 10 && FourDigitsAt(t, 10);
    assert SkipSpace(t, 14) == 15 && FourDigitsAt(t, 15);
  }

  lemma {:induction false} SingleScanSet(t: string, x: string)
    requires AadhaarFindAll(t, 0) == [x]
    ensures AadhaarMatches(t) == {x}
  {
    var ms := AadhaarFindAll(t, 0);
    assert ms[0] == x;
    assert x in AadhaarMatches(t);
  }

  /** The scan does not report a match that overlaps an earlier one: in
      "1234 5678 9012 3456" the pattern also matches at the second group,
      yet only the first twelve digits are reported. */
  lemma {:induction false} OverlappingAadhaarNotReported()
    ensures AadhaarEnd(OverlapSample, 5) == Some(19)
    ensures AadhaarMatches(OverlapSample) == {"123456789012"}
  {
    SampleSecondMatch();
    SampleScan();
    SingleScanSet(OverlapSample, "123456789012");
  }

  // ------------------------------------------------------------ the file

  /** What the file system holds under the upload's path: its size, its
      first five bytes, and the page texts the PDF reader extracts (`None`
      when the reader fails, a `None` page when a page has no text). */
  datatype StoredFile = StoredFile(size: nat, header: string, pages: Option<seq<Option<string>>>)

  /** Page texts joined with newlines. */
  function JoinPages(pages: seq<Option<string>>): string {
    if pages == [] then ""
    else if |pages| == 1 then StrOr(pages[0], "")
    else StrOr(pages[0], "") + "\n" + JoinPages(pages[1..])
  }

  /** `_extract_pdf_text`: empty unless the file starts with `%PDF-` and the
      reader succeeds. */
  function ExtractPdfText(f: StoredFile): (r: string)
    ensures f.header != "%PDF-" || f.pages.None? ==> r == ""
  {
    if f.header != "%PDF-" then "" else if f.pages.None? then "" else JoinPages(f.pages.value)
  }

  /** The final component of a path. */
  function BaseName(path: string): (r: string)
    ensures forall k :: 0 <= k < |r| ==> r[k] != '/'
    ensures EndsWith(path, r)
  {
    if path == [] then []
    else if path[|path| - 1] == '/' then []
    else BaseName(path[..|path| - 1]) + [path[|path| - 1]]
  }

  /** The index of the last `c` in `s`. */
  function LastIndexOf(s: string, c: char): (r: Option<nat>)
    ensures r.Some? ==> r.value < |s| && s[r.value] == c
    ensures forall k :: 0 <= k < |s| && (r.None? || k > r.value) ==> s[k] != c
  {
    if s == [] then None
    else if s[|s| - 1] == c then Some(|s| - 1)
    else LastIndexOf(s[..|s| - 1], c)
  }

  /** `PurePath(name).suffix` of a final component: from the last dot on,
      unless that dot starts or ends the name. */
  function Suffix(name: string): string {
    match LastIndexOf(name, '.')
    case Some(i) => if 0 < i < |name| - 1 then name[i..] else ""
    case None => ""
  }

  /** A name has the suffix ".pdf", in any case, exactly when it ends in
      ".pdf" in any case after at least one other character. */
  lemma {:induction false} PdfSuffixIff(name: string)
    ensures ToLower(Suffix(name)) == ".pdf" <==> |name| >= 5 && ToLower(name[|name| - 4..]) == ".pdf"
  {
    var suf := Suffix(name);
    if ToLower(suf) == ".pdf" {
      var i := LastIndexOf(name, '.').value;
      assert |suf| == 4 && suf == name[i..];
      assert i == |name| - 4;
    }
  }

  /** The upload counts as a PDF by its content type or its file name. */
  predicate IsPdf(contentType: Option<string>, filename: string) {
    ToLower(StrOr(contentType, "")) == "application/pdf" || ToLower(Suffix(BaseName(filename))) == ".pdf"
  }

  // ------------------------------------------------------------ the checks

  /** The returned dictionary; `manual_review_note` is absent unless set. */
  datatype DocCheck = DocCheck(verified: bool, checks: seq<string>, reason: Option<string>,
                               manualReviewNote: Option<string>)

  const MissingReason: string := "File missing or empty."
  const AddressMismatchReason: string := "Address proof does not match provided Aadhaar."
  const PanMismatchReason: string := "Selfie PAN could not be verified against PAN."
  const AddressDemoNote: string := "Strict identity text match disabled in demo mode."
  const PanDemoNote: string := "Strict PAN/OCR match disabled in demo mode."
  const ImageNote: string := "Image OCR unavailable; accepted for demo."

  /** The shape of the answer for a present file: a refusal names its reason,
      only an acceptance carries a note, and the check list is
      `file_present` followed by the passing check, if any. */
  predicate Reported(r: DocCheck) {
    (r.verified <==> r.reason.None?) && (r.manualReviewNote.Some? ==> r.verified)
    && |r.checks| == (if r.verified then 2 else 1) && r.checks[0] == "file_present"
  }

  function Accept(check: string): (r: DocCheck)
    ensures Reported(r) && r.verified && r.manualReviewNote.None?
  {
    DocCheck(true, ["file_present", check], None, None)
  }

  /** An acceptance that asks for a manual review. */
  function AcceptNoted(check: string, note: string): (r: DocCheck)
    ensures Reported(r) && r.verified && r.manualReviewNote == Some(note)
  {
    DocCheck(true, ["file_present", check], None, Some(note))
  }

  function Refuse(reason: string): (r: DocCheck)
    ensures Reported(r) && r.reason == Some(reason)
  {
    DocCheck(false, ["file_present"], Some(reason), None)
  }

  /** `expected_aadhaar[-4:]`. */
  function LastFour(s: string): string {
    if |s| <= 4 then s else s[|s| - 4..]
  }

  /** The text the identity checks search: the upper-cased PDF text for a
      PDF upload, empty otherwise. */
  function SearchText(f: StoredFile, filename: string, contentType: Option<string>): string {
    if IsPdf(contentType, filename) then ToUpper(ExtractPdfText(f)) else ""
  }

  /** `verify_uploaded_document`. */
  function VerifyUploadedDocument(docType: string, file: Option<StoredFile>, filename: string,
                                  contentType: Option<string>, pan: Option<string>,
                                  aadhaar: Option<string>, strict: bool): (r: DocCheck)
    ensures r.verified <==> r.reason.None?
    ensures r.manualReviewNote.Some? ==> r.verified
    ensures !(file.Some? && file.value.size > 0) <==> r.checks == []
    ensures r.checks != [] ==> r.checks[0] == "file_present" && |r.checks| == (if r.verified then 2 else 1)
  {
    if !(file.Some? && file.value.size > 0) then DocCheck(false, [], Some(MissingReason), None)
    else
      var text := SearchText(file.value, filename, contentType);
      var fileUpper := ToUpper(filename);
      var expectedPan := Strip(ToUpper(StrOr(pan, "")));
      var expectedAadhaar := NormalizeAadhaar(aadhaar);
      if docType == "salary_slip" || docType == "bank_statement" then Accept("basic_document_uploaded")
      else if docType == "address_proof" then AddressProofCheck(text, fileUpper, expectedAadhaar, strict)
      else if docType == "selfie_pan" then SelfiePanCheck(text, fileUpper, expectedPan, contentType, strict)
      else Accept("unknown_doc_type_accepted")
  }

  /** The address-proof branch, given the search text, the upper-cased file
      name and the normalised Aadhaar number. */
  function AddressProofCheck(text: string, fileUpper: string, expectedAadhaar: string, strict: bool): (r: DocCheck)
    ensures Reported(r)
  {
    if !strict then AcceptNoted("address_proof_uploaded_demo_mode", AddressDemoNote)
    else if expectedAadhaar != "" && expectedAadhaar in AadhaarMatches(text) then Accept("aadhaar_match_pdf")
    else if expectedAadhaar != "" && Contains(fileUpper, LastFour(expectedAadhaar)) then Accept("aadhaar_match_filename_tail")
    else Refuse(AddressMismatchReason)
  }

  /** The selfie-with-PAN branch, given the search text, the upper-cased file
      name and the normalised PAN. */
  function SelfiePanCheck(text: string, fileUpper: string, expectedPan: string,
                          contentType: Option<string>, strict: bool): (r: DocCheck)
    ensures Reported(r)
  {
    if !strict then AcceptNoted("selfie_pan_uploaded_demo_mode", PanDemoNote)
    else if expectedPan != "" && expectedPan in PanMatches(text) then Accept("pan_match_pdf")
    else if expectedPan != "" && Contains(fileUpper, expectedPan) then Accept("pan_match_filename")
    else if StartsWith(ToLower(StrOr(contentType, "")), "image/") && expectedPan != "" then
      AcceptNoted("selfie_image_uploaded_manual_review", ImageNote)
    else Refuse(PanMismatchReason)
  }

  // ------------------------------------------------------------ properties

  /** A missing or empty file is refused before anything else. */
  lemma {:induction false} MissingFileRefused(docType: string, file: Option<StoredFile>, filename: string,
                                              contentType: Option<string>, pan: Option<string>,
                                              aadhaar: Option<string>, strict: bool)
    requires file.None? || file.value.size == 0
    ensures VerifyUploadedDocument(docType, file, filename, contentType, pan, aadhaar, strict)
         == DocCheck(false, [], Some(MissingReason), None)
  {
  }

  /** Outside strict mode every present file is accepted, whatever its type. */
  lemma {:induction false} DemoModeAcceptsPresentFiles(docType: string, f: StoredFile, filename: string,
                                                       contentType: Option<string>, pan: Option<string>,
                                                       aadhaar: Option<string>)
    requires f.size > 0
    ensures VerifyUploadedDocument(docType, Some(f), filename, contentType, pan, aadhaar, false).verified
  {
  }

  /** In strict mode an address proof passes exactly when the normalised
      Aadhaar number is found in the PDF text or its last four characters in
      the file name. */
  lemma {:induction false} StrictAddressProof(f: StoredFile, filename: string, contentType: Option<string>,
                                              pan: Option<string>, aadhaar: Option<string>)
    requires f.size > 0
    ensures var r := VerifyUploadedDocument("address_proof", Some(f), filename, contentType, pan, aadhaar, true);
      var exp := NormalizeAadhaar(aadhaar);
      (r.verified <==> exp != "" && (exp in AadhaarMatches(SearchText(f, filename, contentType))
                                     || Contains(ToUpper(filename), LastFour(exp))))
      && (!r.verified ==> r.reason == Some(AddressMismatchReason))
  {
  }

  /** Only a twelve-digit number can be found in the PDF text: any other
      Aadhaar value passes, if at all, on the file name alone. */
  lemma {:induction false} OnlyTwelveDigitsMatchText(f: StoredFile, filename: string, contentType: Option<string>,
                                                     pan: Option<string>, aadhaar: Option<string>)
    requires f.size > 0
    requires var exp := NormalizeAadhaar(aadhaar); !(|exp| == 12 && AllDigits(exp))
    ensures VerifyUploadedDocument("address_proof", Some(f), filename, contentType, pan, aadhaar, true).verified
        <==> NormalizeAadhaar(aadhaar) != "" && Contains(ToUpper(filename), LastFour(NormalizeAadhaar(aadhaar)))
  {
    var exp := NormalizeAadhaar(aadhaar);
    assert exp !in AadhaarMatches(SearchText(f, filename, contentType));
  }

  /** In strict mode a selfie with PAN passes exactly when the upper-cased,
      stripped PAN is matched by the PAN pattern somewhere in the PDF text,
      appears in the file name, or the upload is an image and a PAN was
      given. */
  lemma {:induction false} StrictSelfiePan(f: StoredFile, filename: string, contentType: Option<string>,
                                           pan: Option<string>, aadhaar: Option<string>)
    requires f.size > 0
    ensures var r := VerifyUploadedDocument("selfie_pan", Some(f), filename, contentType, pan, aadhaar, true);
      var exp := Strip(ToUpper(StrOr(pan, "")));
      var text := SearchText(f, filename, contentType);
      (r.verified <==> exp != "" && ((exists i: nat :: PanAt(text, i) && text[i..i + 10] == exp)
                                     || Contains(ToUpper(filename), exp)
                                     || StartsWith(ToLower(StrOr(contentType, "")), "image/")))
      && (!r.verified ==> r.reason == Some(PanMismatchReason))
  {
    var exp := Strip(ToUpper(StrOr(pan, "")));
    var text := SearchText(f, filename, contentType);
    SelfiePanIsBranch(f, filename, contentType, pan, aadhaar, true);
    StrictSelfiePanBranch(text, ToUpper(filename), exp, contentType);
    PanMatchesExact(text, exp);
  }

  lemma {:induction false} SelfiePanIsBranch(f: StoredFile, filename: string, contentType: Option<string>,
                                             pan: Option<string>, aadhaar: Option<string>, strict: bool)
    requires f.size > 0
    ensures VerifyUploadedDocument("selfie_pan", Some(f), filename, contentType, pan, aadhaar, strict)
         == SelfiePanCheck(SearchText(f, filename, contentType), ToUpper(filename),
                           Strip(ToUpper(StrOr(pan, ""))), contentType, strict)
  {
  }

  lemma {:induction false} StrictSelfiePanBranch(text: string, fileUpper: string, exp: string, contentType: Option<string>)
    ensures var r := SelfiePanCheck(text, fileUpper, exp, contentType, true);
      (r.verified <==> exp != "" && (exp in PanMatches(text) || Contains(fileUpper, exp)
                                     || StartsWith(ToLower(StrOr(contentType, "")), "image/")))
      && (!r.verified ==> r.reason == Some(PanMismatchReason))
  {
  }

  /** The PDF text is read only for a PDF upload: for any other upload the
      file's header and pages make no difference. */
  lemma {:induction false} TextOnlyForPdf(docType: string, f: StoredFile, g: StoredFile, filename: string,
                                          contentType: Option<string>, pan: Option<string>,
                                          aadhaar: Option<string>, strict: bool)
    requires !IsPdf(contentType, filename) && f.size == g.size
    ensures VerifyUploadedDocument(docType, Some(f), filename, contentType, pan, aadhaar, strict)
         == VerifyUploadedDocument(docType, Some(g), filename, contentType, pan, aadhaar, strict)
  {
  }
}
