/** The regular-expression fallbacks of backend/app/graph/nodes.py that read
    a number, a tenure, an employment type, an e-mail address, a PAN, an
    Aadhaar number and a mobile number out of the user's last message.
    Each `re.search` is modelled by a scan that returns the leftmost match. */
module NodeExtract {
  import opened Wrappers
  import opened Strings
  import TextUtils

  /** Every character of `s[lo..hi]` satisfies `p`. */
  predicate AllIn(s: string, lo: nat, hi: nat, p: char -> bool) {
    hi <= |s| && forall k :: lo <= k < hi ==> p(s[k])
  }

  predicate IsDigitOrComma(c: char) { IsDigit(c) || c == ',' }

  /** The rupee sign removed before a number is read. */
  const Rupee: char := '\U{20B9}'

  /** The text `_extract_number` searches: the message without the rupee
      sign and without the letters "rs". */
  function NumberText(text: string): string {
    RemoveAll(RemoveChar(text, Rupee), "rs")
  }

  /** The end of the match of `\d[\d,]*\.?\d*` that starts at the digit `i`. */
  function NumberTokenEnd(s: string, i: nat): (e: nat)
    requires i < |s| && IsDigit(s[i])
    ensures i < e <= |s|
    ensures forall k :: i <= k < e ==> TextUtils.IsAmountChar(s[k])
    ensures CountChar(RemoveChar(s[i..e], ','), '.') <= 1
  {
    var j := RunEnd(s, i + 1, IsDigitOrComma);
    if j < |s| && s[j] == '.' then
      var e := RunEnd(s, j + 1, IsDigit);
      TokenDots(s, i, j, e);
      e
    else
      TokenDots(s, i, j, j);
      j
  }

  lemma {:induction false} TokenDots(s: string, i: nat, j: nat, e: nat)
    requires i < j <= e <= |s|
    requires forall k :: i <= k < j ==> IsDigitOrComma(s[k])
    requires j < e ==> s[j] == '.'
    requires forall k :: j < k < e ==> IsDigit(s[k])
    ensures forall k :: i <= k < e ==> TextUtils.IsAmountChar(s[k])
    ensures CountChar(RemoveChar(s[i..e], ','), '.') <= 1
  {
    var t := s[i..e];
    CountDotsUpTo(t, j - i);
  }

  lemma {:induction false} CountDotsUpTo(t: string, m: nat)
    requires m <= |t|
    requires forall k :: 0 <= k < m ==> IsDigitOrComma(t[k])
    requires m < |t| ==> t[m] == '.'
    requires forall k :: m < k < |t| ==> IsDigit(t[k])
    ensures CountChar(RemoveChar(t, ','), '.') <= 1
    decreases |t|
  {
    if t == [] {
    } else if m > 0 {
      CountDotsUpTo(t[1..], m - 1);
      if t[0] == ',' {
      } else {
        assert RemoveChar(t, ',') == [t[0]] + RemoveChar(t[1..], ',');
        assert ([t[0]] + RemoveChar(t[1..], ','))[1..] == RemoveChar(t[1..], ',');
      }
    } else {
      NoDotsInDigits(t[1..]);
      assert RemoveChar(t, ',') == [t[0]] + RemoveChar(t[1..], ',');
      assert ([t[0]] + RemoveChar(t[1..], ','))[1..] == RemoveChar(t[1..], ',');
    }
  }

  lemma {:induction false} NoDotsInDigits(t: string)
    requires forall k :: 0 <= k < |t| ==> IsDigit(t[k])
    ensures CountChar(RemoveChar(t, ','), '.') == 0
  {
    if t != [] {
      NoDotsInDigits(t[1..]);
      assert RemoveChar(t, ',') == [t[0]] + RemoveChar(t[1..], ',');
      assert ([t[0]] + RemoveChar(t[1..], ','))[1..] == RemoveChar(t[1..], ',');
    }
  }

  /** `_extract_number(text)`. The `float` conversion after the match can
      never fail, so the result is present exactly when a digit is. */
  function ExtractNumber(text: string): (r: Option<real>)
    ensures r.Some? <==> text != "" && FindFrom(NumberText(text), 0, IsDigit) < |NumberText(text)|
    ensures r.Some? ==> r.value >= 0.0
  {
    if text == "" then None
    else
      var s := NumberText(text);
      var i := FindFrom(s, 0, IsDigit);
      if i == |s| then None
      else
        var e := NumberTokenEnd(s, i);
        TokenParses(s, i, e);
        Some(TextUtils.ParseDecimal(RemoveChar(s[i..e], ',')).value)
  }

  /** A token that opens with a digit, holds only amount characters and at
      most one dot once its commas are removed parses as a decimal. */
  lemma {:induction false} TokenParses(s: string, i: nat, e: nat)
    requires i < e <= |s| && IsDigit(s[i])
    requires forall k :: i <= k < e ==> TextUtils.IsAmountChar(s[k])
    requires CountChar(RemoveChar(s[i..e], ','), '.') <= 1
    ensures forall k :: 0 <= k < |RemoveChar(s[i..e], ',')| ==> TextUtils.IsDigitOrDot(RemoveChar(s[i..e], ',')[k])
    ensures TextUtils.ParseDecimal(RemoveChar(s[i..e], ',')).Some?
  {
    var token := RemoveChar(s[i..e], ',');
    assert forall k :: 0 <= k < |token| ==> TextUtils.IsDigitOrDot(token[k]) by {
      assert forall k :: 0 <= k < e - i ==> TextUtils.IsAmountChar(s[i..e][k]);
      RemoveCharKeeps(s[i..e], ',', TextUtils.IsAmountChar);
    }
    assert |token| > CountChar(token, '.') by {
      assert token != [] && token[0] == s[i] by {
        assert s[i..e] == [s[i]] + s[i + 1..e];
      }
      assert token == [token[0]] + token[1..];
      TextUtils.CountBound(token[1..], '.');
    }
  }

  /** One of the unit words, ending at a word boundary, starts at `w`. */
  predicate UnitAt(s: string, w: nat, units: seq<string>)
    requires w <= |s|
    decreases |units|
  {
    units != [] &&
    ((|units[0]| <= |s| - w && s[w..w + |units[0]|] == units[0] && WordBoundary(s, w + |units[0]|))
     || UnitAt(s, w, units[1..]))
  }

  /** `(\d+)\s*(unit|...)\b` matches with its digit run starting at `d`. */
  predicate NumberUnitAt(s: string, d: nat, units: seq<string>)
  {
    d < |s| && IsDigit(s[d]) && (d == 0 || !IsDigit(s[d - 1]))
    && UnitAt(s, RunEnd(s, RunEnd(s, d, IsDigit), IsSpace), units)
  }

  /** The leftmost match of `(\d+)\s*(unit|...)\b` at or after `i`, as the
      start of its digit run. A match can only start at the first digit of a
      run: a later start has the same continuation. */
  function FindNumberUnit(s: string, i: nat, units: seq<string>): (r: Option<nat>)
    requires i <= |s|
    ensures r.Some? ==> i <= r.value < |s| && IsDigit(s[r.value])
    decreases |s| - i
  {
    var d := FindFrom(s, i, IsDigit);
    if d == |s| then None
    else
      var e := RunEnd(s, d, IsDigit);
      if UnitAt(s, RunEnd(s, e, IsSpace), units) then Some(d)
      else FindNumberUnit(s, e, units)
  }

  /** `r` is the leftmost match at or after `i`, or none when there is none. */
  predicate Leftmost(s: string, i: nat, units: seq<string>, r: Option<nat>) {
    (r.Some? ==> NumberUnitAt(s, r.value, units) && forall d :: i <= d < r.value ==> !NumberUnitAt(s, d, units))
    && (r.None? ==> forall d :: i <= d < |s| ==> !NumberUnitAt(s, d, units))
  }

  /** The search finds a match, and no match starts before it; when it finds
      none, no match starts at or after `i`. */
  lemma {:induction false} FindNumberUnitIsLeftmost(s: string, i: nat, units: seq<string>)
    requires i <= |s|
    requires i == 0 || i == |s| || !IsDigit(s[i - 1]) || !IsDigit(s[i])
    ensures Leftmost(s, i, units, FindNumberUnit(s, i, units))
    decreases |s| - i
  {
    var d := FindFrom(s, i, IsDigit);
    NoMatchBeforeDigit(s, i, d, units);
    if d == |s| {
      assert FindNumberUnit(s, i, units) == None;
    } else {
      var e := RunEnd(s, d, IsDigit);
      if UnitAt(s, RunEnd(s, e, IsSpace), units) {
        assert FindNumberUnit(s, i, units) == Some(d);
        assert d == i || !IsDigit(s[d - 1]);
      } else {
        var r := FindNumberUnit(s, e, units);
        assert r == FindNumberUnit(s, i, units);
        FindNumberUnitIsLeftmost(s, e, units);
        NoMatchInsideRun(s, d, e, units);
        JoinNoMatch(s, i, d, e, units, r);
      }
    }
  }

  /** No match in `[i, d)` nor in the run `[d, e)`, and the search result
      from `e`, give the search result from `i`. */
  lemma {:induction false} JoinNoMatch(s: string, i: nat, d: nat, e: nat, units: seq<string>, r: Option<nat>)
    requires i <= d <= e <= |s|
    requires forall x :: i <= x < d ==> !NumberUnitAt(s, x, units)
    requires forall x :: d <= x < e ==> !NumberUnitAt(s, x, units)
    requires r.Some? ==> e <= r.value
    requires Leftmost(s, e, units, r)
    ensures Leftmost(s, i, units, r)
  {
  }

  lemma {:induction false} NoMatchBeforeDigit(s: string, i: nat, d: nat, units: seq<string>)
    requires i <= d <= |s|
    requires forall k :: i <= k < d ==> !IsDigit(s[k])
    ensures forall x :: i <= x < d ==> !NumberUnitAt(s, x, units)
  {
  }

  lemma {:induction false} NoMatchInsideRun(s: string, d: nat, e: nat, units: seq<string>)
    requires d < e <= |s| && e == RunEnd(s, d, IsDigit)
    requires !UnitAt(s, RunEnd(s, e, IsSpace), units)
    ensures forall x :: d <= x < e ==> !NumberUnitAt(s, x, units)
  {
    forall x | d < x < e ensures !NumberUnitAt(s, x, units) {
      assert IsDigit(s[x - 1]);
    }
  }

  /** The number written in the digit run that starts at `d`. */
  function RunValue(s: string, d: nat): nat
    requires d <= |s|
  {
    var e := RunEnd(s, d, IsDigit);
    assert AllDigits(s[d..e]) by {
      forall k | 0 <= k < e - d ensures IsDigit(s[d..e][k]) { assert s[d..e][k] == s[d + k]; }
    }
    NatOf(s[d..e])
  }

  const MonthUnits: seq<string> := ["months", "month", "mos", "m"]
  const YearUnits: seq<string> := ["years", "year", "yrs", "yr"]

  /** `_extract_tenure_months(text)`: a number of months anywhere in the text
      wins over a number of years. */
  function ExtractTenureMonths(text: string): (r: Option<int>)
    ensures text == "" ==> r == None
    ensures r.Some? ==> r.value >= 0
  {
    if text == "" then None
    else
      var lowered := ToLower(text);
      match FindNumberUnit(lowered, 0, MonthUnits)
      case Some(d) => Some(RunValue(lowered, d))
      case None =>
        match FindNumberUnit(lowered, 0, YearUnits)
        case Some(d) => Some(RunValue(lowered, d) * 12)
        case None => None
  }

  /** `_extract_employment_type(text)`. */
  function ExtractEmploymentType(text: string): (r: Option<string>)
    ensures text == "" ==> r == None
    ensures r.Some? ==> r.value in {"salaried", "self_employed", "freelancer", "unemployed"}
    ensures r == Some("salaried") <==> text != "" && Contains(ToLower(text), "salaried")
  {
    if text == "" then None
    else
      var lowered := ToLower(text);
      if Contains(lowered, "salaried") then Some("salaried")
      else if Contains(lowered, "self") && Contains(lowered, "employ") then Some("self_employed")
      else if Contains(lowered, "freelanc") then Some("freelancer")
      else if Contains(lowered, "unemploy") then Some("unemployed")
      else None
  }

  predicate IsLocalChar(c: char) {
    IsLetter(c) || IsDigit(c) || c == '.' || c == '_' || c == '%' || c == '+' || c == '-'
  }

  predicate IsDomainChar(c: char) { IsLetter(c) || IsDigit(c) || c == '.' || c == '-' }

  /** The top-level part `\.[A-Za-z]{2,}` with its dot at `t`: the end of its letters. */
  predicate TldAt(s: string, t: nat)
    requires t < |s|
  {
    s[t] == '.' && RunEnd(s, t + 1, IsLetter) >= t + 3
  }

  /** Backtracking of `[A-Za-z0-9.-]+` over the domain that starts at `a`: the
      rightmost dot below `t` (and after at least one domain character) that
      is followed by two letters. */
  function LastTld(s: string, a: nat, t: nat): (r: Option<nat>)
    requires a < t <= |s|
    requires forall k :: a <= k < t ==> IsDomainChar(s[k])
    ensures r.Some? ==> a < r.value < t && TldAt(s, r.value)
    ensures r.Some? ==> forall x :: r.value < x < t ==> !TldAt(s, x)
    ensures r.None? ==> forall x :: a < x < t ==> !TldAt(s, x)
    decreases t
  {
    if t == a + 1 then None
    else if TldAt(s, t - 1) then Some(t - 1)
    else LastTld(s, a, t - 1)
  }

  /** The end of the match of `[A-Za-z0-9.-]+\.[A-Za-z]{2,}` from `a`, if any. */
  function DomainEnd(s: string, a: nat): (r: Option<nat>)
    requires a <= |s|
    ensures r.Some? ==> a < r.value <= |s|
  {
    var e := RunEnd(s, a, IsDomainChar);
    if e == a then None
    else match LastTld(s, a, e)
      case None => None
      case Some(t) => Some(RunEnd(s, t + 1, IsLetter))
  }

  /** The leftmost match of the e-mail pattern at or after `i`, as `(start, end)`. */
  function FindEmail(s: string, i: nat): (r: Option<(nat, nat)>)
    requires i <= |s|
    ensures r.Some? ==> i <= r.value.0 < r.value.1 <= |s|
    ensures r.Some? ==> exists q :: r.value.0 < q < r.value.1 && s[q] == '@'
    decreases |s| - i
  {
    var p := FindFrom(s, i, IsLocalChar);
    if p == |s| then None
    else
      var q := RunEnd(s, p, IsLocalChar);
      if q < |s| && s[q] == '@' then
        match DomainEnd(s, q + 1)
        case Some(end) => Some((p, end))
        case None => FindEmail(s, q)
      else FindEmail(s, q)
  }

  /** `_extract_email(text)`. */
  function ExtractEmail(text: string): (r: Option<string>)
    ensures text == "" ==> r == None
    ensures r.Some? ==> Contains(text, r.value) && '@' in r.value
  {
    if text == "" then None
    else match FindEmail(text, 0)
      case None => None
      case Some((p, e)) =>
        SliceContained(text, p, e);
        var q :| p < q < e && text[q] == '@';
        assert text[p..e][q - p] == '@';
        Some(text[p..e])
  }

  /** The shape of a PAN: five capital letters, four digits, one capital letter. */
  predicate PanShape(s: string, p: nat)
    requires p + 10 <= |s|
  {
    AllIn(s, p, p + 5, IsUpper) && AllIn(s, p + 5, p + 9, IsDigit) && IsUpper(s[p + 9])
  }

  /** `\b[A-Z]{5}\d{4}[A-Z]\b` matches at `p`. */
  predicate PanAt(s: string, p: nat) {
    p + 10 <= |s| && WordBoundary(s, p) && PanShape(s, p) && WordBoundary(s, p + 10)
  }

  /** The leftmost `p >= i` at which `at` holds, if any. */
  function FindPan(s: string, i: nat): (r: Option<nat>)
    requires i <= |s|
    ensures r.Some? ==> i <= r.value && PanAt(s, r.value)
    ensures r.Some? ==> forall p :: i <= p < r.value ==> !PanAt(s, p)
    ensures r.None? ==> forall p :: i <= p <= |s| ==> !PanAt(s, p)
    decreases |s| - i
  {
    if PanAt(s, i) then Some(i)
    else if i == |s| then None
    else FindPan(s, i + 1)
  }

  /** `_extract_pan(text)`: the leftmost PAN-shaped word of the upper-cased text. */
  function ExtractPan(text: string): (r: Option<string>)
    ensures text == "" ==> r == None
    ensures r.Some? ==> |r.value| == 10 && PanShape(r.value, 0)
  {
    if text == "" then None
    else
      var upper := ToUpper(text);
      match FindPan(upper, 0)
      case None => None
      case Some(p) =>
        var pan := upper[p..p + 10];
        assert forall k :: 0 <= k < 10 ==> pan[k] == upper[p + k];
        Some(pan)
  }

  /** Four digits start at `i`. */
  predicate FourDigits(s: string, i: nat) {
    i + 4 <= |s| && AllIn(s, i, i + 4, IsDigit)
  }

  /** The optional `\s?` at `i`. */
  function SkipSpace(s: string, i: nat): (j: nat)
    ensures j == i || j == i + 1
  {
    if i < |s| && IsSpace(s[i]) then i + 1 else i
  }

  /** The end of the match of `\b\d{4}\s?\d{4}\s?\d{4}\b` at `p`, if it matches. */
  function AadhaarEnd(s: string, p: nat): (r: Option<nat>)
    ensures r.Some? ==> p + 12 <= r.value <= p + 14 && r.value <= |s|
  {
    if p > |s| || !WordBoundary(s, p) || !FourDigits(s, p) then None
    else
      var b := SkipSpace(s, p + 4);
      if !FourDigits(s, b) then None
      else
        var c := SkipSpace(s, b + 4);
        if !FourDigits(s, c) || !WordBoundary(s, c + 4) then None
        else Some(c + 4)
  }

  function FindAadhaar(s: string, i: nat): (r: Option<nat>)
    requires i <= |s|
    ensures r.Some? ==> i <= r.value && AadhaarEnd(s, r.value).Some?
    ensures r.Some? ==> forall p :: i <= p < r.value ==> AadhaarEnd(s, p).None?
    ensures r.None? ==> forall p :: i <= p <= |s| ==> AadhaarEnd(s, p).None?
    decreases |s| - i
  {
    if AadhaarEnd(s, i).Some? then Some(i)
    else if i == |s| then None
    else FindAadhaar(s, i + 1)
  }

  /** `_extract_aadhaar(text)`: the leftmost match with its plain spaces
      removed (other white space between the groups is kept). */
  function ExtractAadhaar(text: string): (r: Option<string>)
    ensures text == "" ==> r == None
    ensures r.Some? ==> 12 <= |r.value| <= 14 && ' ' !in r.value
  {
    if text == "" then None
    else match FindAadhaar(text, 0)
      case None => None
      case Some(p) =>
        var e := AadhaarEnd(text, p).value;
        var v := RemoveChar(text[p..e], ' ');
        AadhaarDigitsKept(text, p, e);
        Some(v)
  }

  lemma {:induction false} AadhaarDigitsKept(s: string, p: nat, e: nat)
    requires AadhaarEnd(s, p) == Some(e)
    ensures 12 <= |RemoveChar(s[p..e], ' ')|
  {
    var b := SkipSpace(s, p + 4);
    var c := SkipSpace(s, b + 4);
    var g1, g2, g3 := s[p..p + 4], s[b..b + 4], s[c..c + 4];
    var w1, w2 := s[p + 4..b], s[b + 4..c];
    assert s[p..e] == g1 + w1 + g2 + w2 + g3 by { FiveSlices(s, p, p + 4, b, b + 4, c, c + 4); }
    DigitsKept(s, p);
    DigitsKept(s, b);
    DigitsKept(s, c);
    GroupsKept(g1, w1, g2, w2, g3);
  }

  /** Removing the spaces keeps three four-character groups that hold none. */
  lemma {:induction false} GroupsKept(g1: string, w1: string, g2: string, w2: string, g3: string)
    requires |g1| == |g2| == |g3| == 4
    requires RemoveChar(g1, ' ') == g1 && RemoveChar(g2, ' ') == g2 && RemoveChar(g3, ' ') == g3
    ensures 12 <= |RemoveChar(g1 + w1 + g2 + w2 + g3, ' ')|
  {
    RemoveCharAppend(g1 + w1 + g2 + w2, g3, ' ');
    RemoveCharAppend(g1 + w1 + g2, w2, ' ');
    RemoveCharAppend(g1 + w1, g2, ' ');
    RemoveCharAppend(g1, w1, ' ');
  }

  lemma {:induction false} DigitsKept(s: string, i: nat)
    requires FourDigits(s, i)
    ensures RemoveChar(s[i..i + 4], ' ') == s[i..i + 4]
  {
    RemoveCharAbsent(s[i..i + 4], ' ');
  }

  /** `\b\d{10}\b` matches at `p`. */
  predicate MobileAt(s: string, p: nat) {
    p + 10 <= |s| && WordBoundary(s, p) && AllIn(s, p, p + 10, IsDigit) && WordBoundary(s, p + 10)
  }

  function FindMobile(s: string, i: nat): (r: Option<nat>)
    requires i <= |s|
    ensures r.Some? ==> i <= r.value && MobileAt(s, r.value)
    ensures r.Some? ==> forall p :: i <= p < r.value ==> !MobileAt(s, p)
    ensures r.None? ==> forall p :: i <= p <= |s| ==> !MobileAt(s, p)
    decreases |s| - i
  {
    if MobileAt(s, i) then Some(i)
    else if i == |s| then None
    else FindMobile(s, i + 1)
  }

  /** `_extract_mobile(text)`: the leftmost stand-alone run of exactly ten digits. */
  function ExtractMobile(text: string): (r: Option<string>)
    ensures text == "" ==> r == None
    ensures r.Some? ==> |r.value| == 10 && AllDigits(r.value)
  {
    if text == "" then None
    else match FindMobile(text, 0)
      case None => None
      case Some(p) =>
        var m := text[p..p + 10];
        assert forall k :: 0 <= k < 10 ==> m[k] == text[p + k];
        Some(m)
  }

  // ---- Round trips: a well-formed value written alone is read back ----

  /** A numeral is read back as its value. */
  lemma {:induction false} NumberRoundTrip(n: nat)
    ensures ExtractNumber(NatToString(n)) == Some(n as real)
  {
    var num := NatToString(n);
    NumeralIsNumberText(num);
    NumeralToken(num);
    assert num[0..|num|] == num;
    RemoveCharAbsent(num, ',');
    TextUtils.ParseDecimalOfDigits(num);
  }

  lemma {:induction false} NumeralIsNumberText(num: string)
    requires AllDigits(num)
    ensures NumberText(num) == num
  {
    RemoveCharAbsent(num, Rupee);
    RemoveAllNoHead(num, "rs");
  }

  lemma {:induction false} NumeralToken(num: string)
    requires |num| > 0 && AllDigits(num)
    ensures FindFrom(num, 0, IsDigit) == 0
    ensures NumberTokenEnd(num, 0) == |num|
  {
    FindFromIs(num, 0, IsDigit, 0);
    RunEndIs(num, 1, IsDigitOrComma, |num|);
  }

  lemma {:induction false} RemoveAllNoHead(s: string, p: string)
    requires p != []
    requires forall k :: 0 <= k < |s| ==> s[k] != p[0]
    ensures RemoveAll(s, p) == s
    decreases |s|
  {
    if s != [] {
      RemoveAllNoHead(s[1..], p);
      assert [s[0]] + s[1..] == s;
    }
  }

  /** `n months` and `n years` are read as `n` and `12 n` months. */
  lemma {:induction false} TenureMonthsRoundTrip(n: nat)
    ensures ExtractTenureMonths(NatToString(n) + " months") == Some(n)
    ensures ExtractTenureMonths(NatToString(n) + " years") == Some(12 * n)
  {
    var num := NatToString(n);
    MonthsText(num);
    YearsText(num);
  }

  lemma {:induction false} MonthsText(num: string)
    requires |num| > 0 && AllDigits(num)
    ensures ExtractTenureMonths(num + " months") == Some(NatOf(num))
  {
    var text := num + " months";
    var w := |num| + 1;
    assert IsDigit(text[0]) && RunEnd(text, 0, IsDigit) == |num| && RunEnd(text, |num|, IsSpace) == w
      && text[w..] == "months" && ToLower(text) == text && RunValue(text, 0) == NatOf(num) by {
      NumeralUnitHead(num, " months");
    }
    MonthsAtEnd(text, w);
    FindAtStart(text, MonthUnits, |num|, w);
    TenureByMonths(text, 0, NatOf(num));
  }

  /** A lower-case text with a month match at `d` is read as the months of that match. */
  lemma {:induction false} TenureByMonths(text: string, d: nat, v: nat)
    requires text != "" && ToLower(text) == text
    requires FindNumberUnit(text, 0, MonthUnits) == Some(d) && d <= |text|
    requires RunValue(text, d) == v
    ensures ExtractTenureMonths(text) == Some(v)
  {
    var lowered := ToLower(text);
    assert FindNumberUnit(lowered, 0, MonthUnits) == Some(d);
  }

  /** "months" closing the text is a month unit. */
  lemma {:induction false} MonthsAtEnd(s: string, w: nat)
    requires w + 6 == |s| && s[w..] == "months"
    ensures UnitAt(s, w, MonthUnits)
  {
    assert s[w..w + 6] == "months";
  }

  lemma {:induction false} YearsText(num: string)
    requires |num| > 0 && AllDigits(num)
    ensures ExtractTenureMonths(num + " years") == Some(12 * NatOf(num))
  {
    var text := num + " years";
    assert ToLower(text) == text && RunValue(text, 0) == NatOf(num) by {
      NumeralUnitHead(num, " years");
    }
    YearsNoMonths(num);
    YearsMatch(num);
    TenureByYears(text, 0, NatOf(num));
    assert NatOf(num) * 12 == 12 * NatOf(num);
  }

  /** A lower-case text with no month match and a year match at `d` is read
      as the years of that match. */
  lemma {:induction false} TenureByYears(text: string, d: nat, v: nat)
    requires text != "" && ToLower(text) == text
    requires FindNumberUnit(text, 0, MonthUnits) == None
    requires FindNumberUnit(text, 0, YearUnits) == Some(d) && d <= |text|
    requires RunValue(text, d) == v
    ensures ExtractTenureMonths(text) == Some(v * 12)
  {
    var lowered := ToLower(text);
    assert FindNumberUnit(lowered, 0, MonthUnits) == None;
    assert FindNumberUnit(lowered, 0, YearUnits) == Some(d);
    assert RunValue(lowered, d) * 12 == v * 12;
  }

  lemma {:induction false} YearsMatch(num: string)
    requires |num| > 0 && AllDigits(num)
    ensures FindNumberUnit(num + " years", 0, YearUnits) == Some(0)
  {
    var text := num + " years";
    var w := |num| + 1;
    assert IsDigit(text[0]) && RunEnd(text, 0, IsDigit) == |num| && RunEnd(text, |num|, IsSpace) == w
      && text[w..] == "years" by {
      NumeralUnitHead(num, " years");
    }
    YearsAtEnd(text, w);
    FindAtStart(text, YearUnits, |num|, w);
  }

  /** "years" closing the text is a year unit. */
  lemma {:induction false} YearsAtEnd(s: string, w: nat)
    requires w + 5 == |s| && s[w..] == "years"
    ensures UnitAt(s, w, YearUnits)
  {
    assert s[w..w + 5] == "years";
  }

  /** A text that opens with a digit run, spaces and a unit matches at 0. */
  lemma {:induction false} FindAtStart(s: string, units: seq<string>, e: nat, w: nat)
    requires 0 < |s| && IsDigit(s[0])
    requires RunEnd(s, 0, IsDigit) == e && RunEnd(s, e, IsSpace) == w
    requires w <= |s| && UnitAt(s, w, units)
    ensures FindNumberUnit(s, 0, units) == Some(0)
  {
    FindFromIs(s, 0, IsDigit, 0);
  }

  lemma {:induction false} YearsNoMonths(num: string)
    requires |num| > 0 && AllDigits(num)
    ensures FindNumberUnit(num + " years", 0, MonthUnits) == None
  {
    var text := num + " years";
    var w := |num| + 1;
    assert IsDigit(text[0]) && RunEnd(text, 0, IsDigit) == |num| && RunEnd(text, |num|, IsSpace) == w
      && text[w] == 'y' by {
      NumeralUnitHead(num, " years");
    }
    assert !UnitAt(text, w, MonthUnits) by { UnitAtOtherHead(text, w, MonthUnits, 'm'); }
    assert forall k :: |num| <= k < |text| ==> !IsDigit(text[k]) by { NumeralUnitChars(num, " years"); }
    NoMatchAfterFirstRun(text, MonthUnits, |num|, w);
  }

  /** A text whose only digit run opens it and is not followed by a unit has no match. */
  lemma {:induction false} NoMatchAfterFirstRun(s: string, units: seq<string>, e: nat, w: nat)
    requires 0 < |s| && IsDigit(s[0])
    requires RunEnd(s, 0, IsDigit) == e && RunEnd(s, e, IsSpace) == w
    requires w <= |s| && !UnitAt(s, w, units)
    requires forall k :: e <= k < |s| ==> !IsDigit(s[k])
    ensures FindNumberUnit(s, 0, units) == None
  {
    FindFromIs(s, 0, IsDigit, 0);
    FindFromIs(s, e, IsDigit, |s|);
    assert FindNumberUnit(s, e, units) == None;
  }

  lemma {:induction false} NumeralUnitHead(num: string, unit: string)
    requires |num| > 0 && AllDigits(num)
    requires unit == " months" || unit == " years"
    ensures IsDigit((num + unit)[0])
    ensures ToLower(num + unit) == num + unit
    ensures RunEnd(num + unit, 0, IsDigit) == |num|
    ensures RunEnd(num + unit, |num|, IsSpace) == |num| + 1
    ensures (num + unit)[|num| + 1..] == unit[1..]
    ensures RunValue(num + unit, 0) == NatOf(num)
  {
    var text := num + unit;
    NumeralUnitChars(num, unit);
    assert ToLower(text) == text by { LowerOfLowered(text); }
    assert RunEnd(text, 0, IsDigit) == |num| by { RunEndIs(text, 0, IsDigit, |num|); }
    assert RunEnd(text, |num|, IsSpace) == |num| + 1 by {
      assert text[|num|] == ' ';
      RunEndIs(text, |num|, IsSpace, |num| + 1);
    }
    assert text[|num| + 1..] == unit[1..];
    RunValueOfNumeral(text, num);
  }

  lemma {:induction false} RunValueOfNumeral(text: string, num: string)
    requires |num| > 0 && AllDigits(num) && num <= text
    requires RunEnd(text, 0, IsDigit) == |num|
    ensures RunValue(text, 0) == NatOf(num)
  {
    assert text[0..|num|] == num;
  }

  lemma {:induction false} NumeralUnitChars(num: string, unit: string)
    requires AllDigits(num)
    requires unit == " months" || unit == " years"
    ensures forall k :: 0 <= k < |num| ==> (num + unit)[k] == num[k] && IsDigit((num + unit)[k])
    ensures forall k :: |num| <= k < |num + unit| ==> (num + unit)[k] == unit[k - |num|]
    ensures forall k :: |num| <= k < |num + unit| ==> !IsDigit((num + unit)[k])
    ensures forall k :: 0 <= k < |num + unit| ==> !IsUpper((num + unit)[k])
    ensures (num + unit)[|num|] == ' '
  {
    assert forall k :: 0 <= k < |unit| ==> !IsUpper(unit[k]) && !IsDigit(unit[k]);
  }

  /** No unit matches where the text holds a letter other than the one all units begin with. */
  lemma {:induction false} UnitAtOtherHead(s: string, w: nat, units: seq<string>, head: char)
    requires w < |s| && s[w] != head
    requires forall k :: 0 <= k < |units| ==> |units[k]| > 0 && units[k][0] == head
    ensures !UnitAt(s, w, units)
    decreases |units|
  {
    if units != [] {
      assert units[0][0] == head;
      if |units[0]| <= |s| - w {
        assert s[w..w + |units[0]|][0] != units[0][0];
      }
      UnitAtOtherHead(s, w, units[1..], head);
    }
  }

  /** A PAN written alone is read back. */
  lemma {:induction false} PanRoundTrip(pan: string)
    requires |pan| == 10 && PanShape(pan, 0)
    ensures ExtractPan(pan) == Some(pan)
  {
    assert forall k :: 0 <= k < 10 ==> !IsLower(pan[k]);
    assert ToUpper(pan) == pan;
    assert PanAt(pan, 0);
    assert pan[0..10] == pan;
  }

  /** A ten-digit number written alone is read back. */
  lemma {:induction false} MobileRoundTrip(m: string)
    requires |m| == 10 && AllDigits(m)
    ensures ExtractMobile(m) == Some(m)
  {
    assert MobileAt(m, 0);
    assert m[0..10] == m;
  }

  /** A run of digits of any other length than ten is not a mobile number. */
  lemma {:induction false} MobileNeedsExactlyTen(s: string)
    requires |s| > 0 && AllDigits(s) && |s| != 10
    ensures ExtractMobile(s) == None
  {
    forall p | 0 <= p <= |s| ensures !MobileAt(s, p) {
      if p + 10 <= |s| && WordBoundary(s, p) {
        assert p == 0;
        assert IsWordChar(s[10]);
      }
    }
  }

  /** Three groups of four digits separated by single spaces are read back
      without the spaces. */
  lemma {:induction false} AadhaarRoundTrip(a: string, b: string, c: string)
    requires |a| == 4 && |b| == 4 && |c| == 4 && AllDigits(a) && AllDigits(b) && AllDigits(c)
    ensures ExtractAadhaar(a + " " + b + " " + c) == Some(a + b + c)
  {
    var t := a + " " + b + " " + c;
    AadhaarSpacedMatch(a, b, c);
    assert FindAadhaar(t, 0) == Some(0);
    assert t[0..14] == t;
    AadhaarSpacesRemoved(a, b, c);
  }

  lemma {:induction false} AadhaarSpacedMatch(a: string, b: string, c: string)
    requires |a| == 4 && |b| == 4 && |c| == 4 && AllDigits(a) && AllDigits(b) && AllDigits(c)
    ensures AadhaarEnd(a + " " + b + " " + c, 0) == Some(14)
  {
    var t := a + " " + b + " " + c;
    assert |t| == 14;
    assert forall k :: 0 <= k < 4 ==> t[k] == a[k];
    assert forall k :: 0 <= k < 4 ==> t[5 + k] == b[k];
    assert forall k :: 0 <= k < 4 ==> t[10 + k] == c[k];
    assert t[4] == ' ' && t[9] == ' ';
    assert FourDigits(t, 0);
    assert SkipSpace(t, 4) == 5;
    assert FourDigits(t, 5);
    assert SkipSpace(t, 9) == 10;
    assert FourDigits(t, 10);
    assert WordBoundary(t, 0) && WordBoundary(t, 14);
  }

  lemma {:induction false} AadhaarSpacesRemoved(a: string, b: string, c: string)
    requires AllDigits(a) && AllDigits(b) && AllDigits(c)
    ensures RemoveChar(a + " " + b + " " + c, ' ') == a + b + c
  {
    RemoveCharAppend(a + " " + b + " ", c, ' ');
    RemoveCharAppend(a + " " + b, " ", ' ');
    RemoveCharAppend(a + " ", b, ' ');
    RemoveCharAppend(a, " ", ' ');
    RemoveCharAbsent(a, ' ');
    RemoveCharAbsent(b, ' ');
    RemoveCharAbsent(c, ' ');
    assert RemoveChar(" ", ' ') == [];
  }

  /** `LastTld` is the rightmost top-level dot below `t`. */
  lemma {:induction false} LastTldIs(s: string, a: nat, t: nat, x: nat)
    requires a < x < t <= |s|
    requires forall k :: a <= k < t ==> IsDomainChar(s[k])
    requires TldAt(s, x)
    requires forall y :: x < y < t ==> !TldAt(s, y)
    ensures LastTld(s, a, t) == Some(x)
    decreases t
  {
    if t - 1 != x {
      LastTldIs(s, a, t - 1, x);
    }
  }

  /** `local@domain.tld` written alone is read back whole. */
  /** A domain of domain characters whose last dot is followed by letters
      only runs to the end of the text. */
  lemma {:induction false} DomainRunsToEnd(s: string, a: nat, x: nat)
    requires a < x < |s| - 2 && s[x] == '.'
    requires forall k :: a <= k < x ==> IsLetter(s[k]) || IsDigit(s[k])
    requires forall k :: x < k < |s| ==> IsLetter(s[k])
    ensures DomainEnd(s, a) == Some(|s|)
  {
    RunEndIs(s, a, IsDomainChar, |s|);
    RunEndIs(s, x + 1, IsLetter, |s|);
    forall y | x < y < |s| ensures !TldAt(s, y) {
      assert IsLetter(s[y]);
    }
    LastTldIs(s, a, |s|, x);
  }

  /** Where the parts of an assembled address sit. */
  lemma {:induction false} EmailLayout(local: string, domain: string, tld: string)
    ensures var s := local + "@" + domain + "." + tld;
      var q := |local|;
      var x := q + 1 + |domain|;
      |s| == x + 1 + |tld|
      && (forall k :: 0 <= k < q ==> s[k] == local[k])
      && s[q] == '@'
      && (forall k :: 0 <= k < |domain| ==> s[q + 1 + k] == domain[k])
      && s[x] == '.'
      && (forall k :: 0 <= k < |tld| ==> s[x + 1 + k] == tld[k])
  {
    var s := local + "@" + domain + "." + tld;
    var q := |local|;
    var x := q + 1 + |domain|;
    assert forall k :: 0 <= k < q ==> s[k] == local[k];
    assert forall k :: 0 <= k < |domain| ==> s[q + 1 + k] == domain[k];
    assert forall k :: 0 <= k < |tld| ==> s[x + 1 + k] == tld[k];
  }

  lemma {:induction false} EmailRoundTrip(local: string, domain: string, tld: string)
    requires |local| > 0 && forall k :: 0 <= k < |local| ==> IsLocalChar(local[k])
    requires |domain| > 0 && forall k :: 0 <= k < |domain| ==> IsLetter(domain[k]) || IsDigit(domain[k])
    requires |tld| >= 2 && forall k :: 0 <= k < |tld| ==> IsLetter(tld[k])
    ensures ExtractEmail(local + "@" + domain + "." + tld) == Some(local + "@" + domain + "." + tld)
  {
    var s := local + "@" + domain + "." + tld;
    var q := |local|;
    var x := q + 1 + |domain|;
    EmailLayout(local, domain, tld);
    FindFromIs(s, 0, IsLocalChar, 0);
    RunEndIs(s, 0, IsLocalChar, q);
    DomainRunsToEnd(s, q + 1, x);
    assert FindEmail(s, 0) == Some((0, |s|));
    assert s[0..|s|] == s;
  }
}
