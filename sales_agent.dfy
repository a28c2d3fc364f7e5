/** The legacy sales handler of backend/app/agents/sales_agent.py. It fills
    the amount, tenure, purpose and income of a session, from a language-model
    reply when there is one (`None` when the model call raised) and from the
    deterministic fallback otherwise. */
module SalesAgent {
  import opened Wrappers
  import opened Strings
  import opened LlmJson
  import opened SessionStore
  import TextUtils
  import Numeric

  // ------------------------------------------------------------ coercions

  predicate IsSign(c: char) { c == '+' || c == '-' }

  predicate IsDigitOrUnderscore(c: char) { IsDigit(c) || c == '_' }

  predicate IsExponentMark(c: char) { c == 'e' || c == 'E' }

  /** Python's `digitpart`: digits, with single underscores allowed between
      two digits ("1_000"). */
  predicate IsDigitPart(s: string) {
    |s| > 0 && IsDigit(s[0]) && IsDigit(s[|s| - 1])
    && (forall k :: 0 <= k < |s| ==> IsDigitOrUnderscore(s[k]))
    && (forall j, k :: 0 <= j < |s| && 0 <= k < |s| && k == j + 1 ==> !(s[j] == '_' && s[k] == '_'))
  }

  lemma {:induction false} UnderscoresRemoved(s: string)
    requires forall k :: 0 <= k < |s| ==> IsDigitOrUnderscore(s[k])
    ensures AllDigits(RemoveChar(s, '_'))
  {
    RemoveCharKeeps(s, '_', IsDigitOrUnderscore);
  }

  /** The digits of a digit part, read without its underscores. */
  function DigitPartDigits(s: string): (d: string)
    requires IsDigitPart(s)
    ensures AllDigits(d) && 0 < |d| <= |s|
  {
    UnderscoresRemoved(s);
    var d := RemoveChar(s, '_');
    assert d != [] by {
      assert s == [s[0]] + s[1..];
      assert RemoveChar(s, '_') == [s[0]] + RemoveChar(s[1..], '_');
    }
    d
  }

  /** Python's `number`, `[digitpart] "." digitpart | digitpart ["."]`: a
      whole part, a fractional part, or both, around at most one dot. */
  function ParseMantissa(m: string): (r: Option<real>)
    ensures r.Some? ==> r.value >= 0.0
  {
    var d := FindFrom(m, 0, TextUtils.IsDot);
    if d == |m| then
      if IsDigitPart(m) then Some(NatOf(DigitPartDigits(m)) as real) else None
    else
      var whole, frac := m[..d], m[d + 1..];
      if (whole == [] || IsDigitPart(whole)) && (frac == [] || IsDigitPart(frac)) && !(whole == [] && frac == []) then
        var w := if whole == [] then 0 else NatOf(DigitPartDigits(whole));
        var f := if frac == [] then 0.0
                 else NatOf(DigitPartDigits(frac)) as real / Numeric.Pow10(|DigitPartDigits(frac)|);
        Some(w as real + f)
      else None
  }

  /** Python's `exponent` after its `e` or `E`: an optional sign and a digit part. */
  function ParseExponent(e: string): Option<int> {
    if e != [] && IsSign(e[0]) then
      if IsDigitPart(e[1..]) then
        var n: int := NatOf(DigitPartDigits(e[1..]));
        Some(if e[0] == '-' then -n else n)
      else None
    else if IsDigitPart(e) then Some(NatOf(DigitPartDigits(e)))
    else None
  }

  /** `x` times ten to the power `k`, for a `k` of either sign. */
  function Scale(x: real, k: int): real {
    if k >= 0 then x * Numeric.Pow10(k) else x / Numeric.Pow10(-k)
  }

  /** An unsigned float text: a mantissa and an optional exponent. */
  function ParseUnsigned(body: string): Option<real> {
    var x := FindFrom(body, 0, IsExponentMark);
    var mantissa := ParseMantissa(body[..x]);
    var exponent := if x == |body| then Some(0) else ParseExponent(body[x + 1..]);
    if mantissa.Some? && exponent.Some? then Some(Scale(mantissa.value, exponent.value)) else None
  }

  /** Python `float(text)` for a finite decimal text: surrounding white
      space, an optional sign, then an unsigned float text. */
  function ParseFloatText(text: string): (r: Option<real>)
  {
    var t := Strip(text);
    if t != [] && IsSign(t[0]) then
      match ParseUnsigned(t[1..])
      case Some(v) => Some(if t[0] == '-' then -v else v)
      case None => None
    else ParseUnsigned(t)
  }

  /** `_coerce_float(value)`: `None` for null and for anything `float`
      refuses. */
  function CoerceFloat(v: Json): (r: Option<real>)
    ensures v.JNull? || v.JArray? || v.JObject? ==> r == None
    ensures v.JNum? ==> r == Some(v.n)
  {
    match v
    case JNull => None
    case JBool(b) => Some(if b then 1.0 else 0.0)
    case JNum(n) => Some(n)
    case JStr(s) => ParseFloatText(s)
    case _ => None
  }

  /** Python `int(x)` on a float: truncation towards zero. */
  function Truncate(x: real): (n: int)
    ensures x >= 0.0 ==> 0 <= n && n as real <= x < n as real + 1.0
    ensures x < 0.0 ==> n <= 0 && n as real - 1.0 < x <= n as real
  {
    if x >= 0.0 then x.Floor else -((-x).Floor)
  }

  /** `_coerce_int(value)`: `int(float(value))`. */
  function CoerceInt(v: Json): (r: Option<int>)
  {
    match CoerceFloat(v)
    case None => None
    case Some(x) => Some(Truncate(x))
  }

  /** `_coerce_int` accepts exactly what `_coerce_float` accepts and drops
      the fraction towards zero, so its magnitude never exceeds the float's. */
  lemma {:induction false} CoerceIntTruncates(v: Json)
    ensures CoerceInt(v).Some? <==> CoerceFloat(v).Some?
    ensures CoerceInt(v).Some? ==>
      var n, x := CoerceInt(v).value, CoerceFloat(v).value;
      (x >= 0.0 ==> 0 <= n && n as real <= x) && (x <= 0.0 ==> n <= 0 && x <= n as real)
      && x - 1.0 < n as real < x + 1.0
  {
  }

  /** A digit string is read as its value. */
  lemma {:induction false} CoerceFloatOfNumeral(t: string)
    requires |t| > 0 && AllDigits(t)
    ensures CoerceFloat(JStr(t)) == Some(NatOf(t) as real)
  {
    NumeralUnsigned(t);
    UnsignedText(t);
  }

  /** A digit string after a minus sign is read as its value `v`, negated. */
  lemma {:induction false} CoerceFloatOfNegatedNumeral(t: string, v: real)
    requires |t| > 0 && AllDigits(t) && v == NatOf(t) as real
    ensures CoerceFloat(JStr("-" + t)) == Some(-v)
  {
    NumeralUnsigned(t);
    NegatedText(t, v);
  }

  /** As a whole number, a digit string is its value. */
  lemma {:induction false} CoerceIntOfNumeral(t: string)
    requires |t| > 0 && AllDigits(t)
    ensures CoerceInt(JStr(t)) == Some(NatOf(t))
  {
    var x := NatOf(t) as real;
    assert Truncate(x) == NatOf(t);
    CoerceFloatOfNumeral(t);
  }

  lemma {:induction false} NumeralUnsigned(t: string)
    requires |t| > 0 && AllDigits(t)
    ensures ParseUnsigned(t) == Some(NatOf(t) as real)
  {
    NumeralParts(t);
    UnsignedWithoutExponent(t);
  }

  /** A digit string is a digit part of its own value, with no dot and no
      exponent mark. */
  lemma {:induction false} NumeralParts(t: string)
    requires |t| > 0 && AllDigits(t)
    ensures IsDigitPart(t) && DigitPartDigits(t) == t
    ensures FindFrom(t, 0, IsExponentMark) == |t| && FindFrom(t, 0, TextUtils.IsDot) == |t|
    ensures ParseMantissa(t) == Some(NatOf(t) as real)
    ensures ParseExponent(t) == Some(NatOf(t))
  {
    RemoveCharAbsent(t, '_');
    FindFromIs(t, 0, IsExponentMark, |t|);
    FindFromIs(t, 0, TextUtils.IsDot, |t|);
  }

  lemma {:induction false} UnsignedWithoutExponent(body: string)
    requires FindFrom(body, 0, IsExponentMark) == |body|
    ensures ParseUnsigned(body) == ParseMantissa(body)
  {
    assert body[..|body|] == body;
    assert Numeric.Pow10(0) == 1.0;
  }

  lemma {:induction false} UnsignedWithExponent(body: string, x: nat)
    requires x < |body| && FindFrom(body, 0, IsExponentMark) == x
    requires ParseMantissa(body[..x]).Some? && ParseExponent(body[x + 1..]).Some?
    ensures ParseUnsigned(body) == Some(Scale(ParseMantissa(body[..x]).value, ParseExponent(body[x + 1..]).value))
  {
  }

  /** A text that starts with a digit and ends without white space is read unsigned. */
  lemma {:induction false} UnsignedText(t: string)
    requires |t| > 0 && IsDigitOrUnderscore(t[0]) && !IsSpace(t[|t| - 1])
    ensures ParseFloatText(t) == ParseUnsigned(t)
  {
    DigitsAreStripped(t);
  }

  /** A minus sign negates what the rest reads as. */
  lemma {:induction false} NegatedText(t: string, v: real)
    requires |t| > 0 && !IsSpace(t[|t| - 1]) && ParseUnsigned(t) == Some(v)
    ensures ParseFloatText("-" + t) == Some(-v)
  {
    var m := "-" + t;
    DigitsAreStripped(m);
    assert m[1..] == t;
  }

  /** An exponent scales the mantissa by that power of ten, `Scale(x, k)`
      being `x` times ten to the `k`: "5e5" is 500000 and "5E-1" is 0.5. */
  lemma {:induction false} ExponentScales(m: string, mark: char, e: string)
    requires |m| > 0 && AllDigits(m) && |e| > 0 && AllDigits(e) && IsExponentMark(mark)
    ensures CoerceFloat(JStr(m + [mark] + e)) == Some(Scale(NatOf(m) as real, NatOf(e)))
    ensures CoerceFloat(JStr(m + [mark] + "-" + e)) == Some(Scale(NatOf(m) as real, -(NatOf(e) as int)))
  {
    UpExponent(m, mark, e);
    DownExponent(m, mark, e);
  }

  lemma {:induction false} UpExponent(m: string, mark: char, e: string)
    requires |m| > 0 && AllDigits(m) && |e| > 0 && AllDigits(e) && IsExponentMark(mark)
    ensures CoerceFloat(JStr(m + [mark] + e)) == Some(Scale(NatOf(m) as real, NatOf(e)))
  {
    NumeralParts(e);
    ExponentText(m, mark, e, NatOf(e));
  }

  lemma {:induction false} DownExponent(m: string, mark: char, e: string)
    requires |m| > 0 && AllDigits(m) && |e| > 0 && AllDigits(e) && IsExponentMark(mark)
    ensures CoerceFloat(JStr(m + [mark] + "-" + e)) == Some(Scale(NatOf(m) as real, -(NatOf(e) as int)))
  {
    NegativeExponent(e);
    var ne := "-" + e;
    assert ne[|ne| - 1] == e[|e| - 1];
    var t := m + [mark] + "-" + e;
    assert t == m + [mark] + ne;
    ExponentText(m, mark, ne, -(NatOf(e) as int));
  }

  lemma {:induction false} ScaleBoth(x: real, k: nat)
    ensures Scale(x, k) == x * Numeric.Pow10(k)
    ensures Scale(x, -(k as int)) == x / Numeric.Pow10(k)
  {
  }

  lemma {:induction false} NegativeExponent(e: string)
    requires |e| > 0 && AllDigits(e)
    ensures ParseExponent("-" + e) == Some(-(NatOf(e) as int))
  {
    NumeralParts(e);
    var ne := "-" + e;
    assert ne[1..] == e;
    assert IsSign(ne[0]) && ne[0] == '-';
    var n: int := NatOf(DigitPartDigits(ne[1..]));
    assert n == NatOf(e);
  }

  /** A digit mantissa, an exponent mark and an exponent text read as the
      mantissa scaled by the exponent. */
  lemma {:induction false} ExponentText(m: string, mark: char, e: string, k: int)
    requires |m| > 0 && AllDigits(m) && |e| > 0 && IsExponentMark(mark) && !IsSpace(e[|e| - 1])
    requires ParseExponent(e) == Some(k)
    ensures CoerceFloat(JStr(m + [mark] + e)) == Some(Scale(NatOf(m) as real, k))
  {
    NumeralParts(m);
    var t := m + [mark] + e;
    FindFromIs(t, 0, IsExponentMark, |m|);
    assert t[..|m|] == m && t[|m| + 1..] == e;
    UnsignedWithExponent(t, |m|);
    UnsignedText(t);
  }

  /** An underscore between digits is ignored: "1_000" is 1000. */
  lemma {:induction false} UnderscoreIgnored(a: string, b: string)
    requires |a| > 0 && AllDigits(a) && |b| > 0 && AllDigits(b)
    ensures AllDigits(a + b)
    ensures CoerceFloat(JStr(a + "_" + b)) == Some(NatOf(a + b) as real)
  {
    var t := a + "_" + b;
    assert IsDigitPart(t) by {
      forall j, k | 0 <= j < |t| && 0 <= k < |t| && k == j + 1 ensures !(t[j] == '_' && t[k] == '_') {
        if j < |a| { assert t[j] == a[j]; }
        else { assert t[k] == b[k - |a| - 1]; }
      }
    }
    assert DigitPartDigits(t) == a + b by {
      RemoveCharAppend(a + "_", b, '_');
      RemoveCharAppend(a, "_", '_');
      RemoveCharAbsent(a, '_');
      RemoveCharAbsent(b, '_');
      assert RemoveChar("_", '_') == [];
    }
    FindFromIs(t, 0, IsExponentMark, |t|);
    FindFromIs(t, 0, TextUtils.IsDot, |t|);
    assert ParseMantissa(t) == Some(NatOf(a + b) as real);
    UnsignedWithoutExponent(t);
    UnsignedText(t);
  }

  /** Underscores only between two digits: a doubled, leading or trailing
      underscore is refused, as Python refuses "1__000", "_1" and "1_". */
  lemma {:induction false} StrayUnderscoresRefused(a: string, b: string)
    requires |a| > 0 && AllDigits(a) && |b| > 0 && AllDigits(b)
    ensures CoerceFloat(JStr(a + "__" + b)) == None
    ensures CoerceFloat(JStr("_" + a)) == None
    ensures CoerceFloat(JStr(a + "_")) == None
  {
    var t := a + "__" + b;
    assert forall k :: 0 <= k < |t| ==> IsDigitOrUnderscore(t[k]) by {
      forall k | 0 <= k < |t| ensures IsDigitOrUnderscore(t[k]) {
        if k < |a| { assert t[k] == a[k]; }
        else if k >= |a| + 2 { assert t[k] == b[k - |a| - 2]; }
      }
    }
    RefusedWithoutExponent(t);
    assert t[|a|] == '_' && t[|a| + 1] == '_';
    var u := "_" + a;
    assert forall k :: 0 <= k < |u| ==> IsDigitOrUnderscore(u[k]) by {
      forall k | 0 <= k < |u| ensures IsDigitOrUnderscore(u[k]) {
        if k > 0 { assert u[k] == a[k - 1]; }
      }
    }
    RefusedWithoutExponent(u);
    var w := a + "_";
    assert forall k :: 0 <= k < |w| ==> IsDigitOrUnderscore(w[k]) by {
      forall k | 0 <= k < |w| ensures IsDigitOrUnderscore(w[k]) {
        if k < |a| { assert w[k] == a[k]; }
      }
    }
    RefusedWithoutExponent(w);
  }

  /** An exponent mark with no digits after it is refused ("1e"). */
  lemma {:induction false} EmptyExponentRefused(m: string, mark: char)
    requires |m| > 0 && AllDigits(m) && IsExponentMark(mark)
    ensures CoerceFloat(JStr(m + [mark])) == None
  {
    var t := m + [mark];
    FindFromIs(t, 0, IsExponentMark, |m|);
    assert t[|m| + 1..] == [];
    assert ParseExponent([]) == None;
    UnsignedText(t);
  }

  /** A text of digits and underscores is read exactly when it is a digit part. */
  lemma {:induction false} RefusedWithoutExponent(t: string)
    requires |t| > 0 && forall k :: 0 <= k < |t| ==> IsDigitOrUnderscore(t[k])
    ensures ParseFloatText(t).Some? <==> IsDigitPart(t)
  {
    FindFromIs(t, 0, IsExponentMark, |t|);
    FindFromIs(t, 0, TextUtils.IsDot, |t|);
    UnsignedWithoutExponent(t);
    assert !IsSpace(t[|t| - 1]);
    UnsignedText(t);
  }

  /** A text without white space at either end is its own strip. */
  lemma {:induction false} DigitsAreStripped(t: string)
    requires |t| > 0 && !IsSpace(t[0]) && !IsSpace(t[|t| - 1])
    ensures Strip(t) == t
  {
  }

  // ------------------------------------------------------------ fallback

  const AskTenure: string := "Thanks. What tenure works best for you?"
  const AskAmount: string := "What loan amount are you looking for?"
  const AskPurposeAfterTenure: string := "Got it. What is the purpose of the loan?"
  const RepeatTenure: string := "What tenure works best for you?"
  const AskIncome: string := "Thanks. What is your monthly income in INR?"
  const RepeatPurpose: string := "What is the purpose of the loan?"
  const AskMobile: string := "Thanks. Please share your 10-digit mobile number for KYC."
  const RepeatIncome: string := "What is your monthly income in INR?"

  /** The first of amount, tenure, purpose and income the session lacks. */
  function FirstMissing(s: Session): (f: Option<string>)
    ensures f == None <==>
      s.requestedAmount.Some? && s.tenureMonths.Some? && s.loanPurpose.Some? && s.monthlyIncome.Some?
  {
    if s.requestedAmount.None? then Some("amount")
    else if s.tenureMonths.None? then Some("tenure")
    else if s.loanPurpose.None? then Some("purpose")
    else if s.monthlyIncome.None? then Some("income")
    else None
  }

  /** `_fallback_sales(session, message)`: the first missing field is asked
      for, or taken from the message. */
  function FallbackSales(s: Session, message: string): Handled
  {
    if s.requestedAmount.None? then AmountStep(s, message)
    else if s.tenureMonths.None? then TenureStep(s, message)
    else if s.loanPurpose.None? then PurposeStep(s, Strip(message))
    else if s.monthlyIncome.None? then IncomeStep(s, message)
    else Handled(s.(stage := "verification", expectedInput := None), AskMobile)
  }

  function AmountStep(s: Session, message: string): Handled {
    var amount := TextUtils.ExtractAmount(message);
    if RealTruthy(amount) then
      Handled(s.(requestedAmount := amount, expectedInput := Some("tenure")), AskTenure)
    else Handled(s.(expectedInput := Some("amount")), AskAmount)
  }

  function TenureStep(s: Session, message: string): Handled {
    var tenure := TextUtils.ExtractTenure(message);
    if IntTruthy(tenure) then
      Handled(s.(tenureMonths := tenure, expectedInput := Some("purpose")), AskPurposeAfterTenure)
    else Handled(s.(expectedInput := Some("tenure")), RepeatTenure)
  }

  /** The purpose step, given the stripped message. */
  function PurposeStep(s: Session, purpose: string): Handled {
    if |purpose| >= 3 then
      Handled(s.(loanPurpose := Some(purpose), expectedInput := Some("income")), AskIncome)
    else Handled(s.(expectedInput := Some("purpose")), RepeatPurpose)
  }

  function IncomeStep(s: Session, message: string): Handled {
    var income := TextUtils.ExtractAmount(message);
    if RealTruthy(income) then
      Handled(s.(monthlyIncome := income, expectedInput := None, stage := "verification"), AskMobile)
    else Handled(s.(expectedInput := Some("income")), RepeatIncome)
  }

  /** The session with its four sales fields, stage and expected input taken
      from `t`: what a sales turn may change. */
  function WithSalesFields(s: Session, t: Session): Session {
    s.(requestedAmount := t.requestedAmount, tenureMonths := t.tenureMonths,
       loanPurpose := t.loanPurpose, monthlyIncome := t.monthlyIncome,
       stage := t.stage, expectedInput := t.expectedInput)
  }

  /** The fallback fills at most one field, the first missing one in the
      order amount, tenure, purpose, income, and only with a truthy value; a
      purpose needs at least three characters after stripping. It leaves
      sales for verification only with all four fields present, and changes
      nothing beyond the sales fields. */
  lemma {:induction false} FallbackFollowsOrder(s: Session, message: string)
    requires s.stage == "sales"
    ensures var r := FallbackSales(s, message).session;
      WithSalesFields(s, r) == r
      && (r.requestedAmount != s.requestedAmount ==> FirstMissing(s) == Some("amount") && RealTruthy(r.requestedAmount))
      && (r.tenureMonths != s.tenureMonths ==> FirstMissing(s) == Some("tenure") && IntTruthy(r.tenureMonths))
      && (r.loanPurpose != s.loanPurpose ==>
            FirstMissing(s) == Some("purpose") && |Strip(message)| >= 3 && r.loanPurpose == Some(Strip(message)))
      && (r.monthlyIncome != s.monthlyIncome ==> FirstMissing(s) == Some("income") && RealTruthy(r.monthlyIncome))
      && (r.stage != "sales" ==> r.stage == "verification" && r.expectedInput == None && FirstMissing(r) == None)
  {
    var r := FallbackSales(s, message);
    if s.requestedAmount.None? {
      assert r == AmountStep(s, message);
    } else if s.tenureMonths.None? {
      assert r == TenureStep(s, message);
    } else if s.loanPurpose.None? {
      var purpose := Strip(message);
      assert r == PurposeStep(s, purpose);
    } else if s.monthlyIncome.None? {
      assert r == IncomeStep(s, message);
    }
  }

  /** On a fresh session the fallback asks for the amount until a message
      carries a non-zero one. */
  lemma {:induction false} FreshSessionAsksAmount(id: string, now: int, message: string)
    requires !RealTruthy(TextUtils.ExtractAmount(message))
    ensures FallbackSales(DefaultSession(id, now), message) == Handled(DefaultSession(id, now), AskAmount)
  {
  }

  // ------------------------------------------------------------ model reply

  /** The `updates` object of a model reply; an absent key reads as null. */
  datatype SalesUpdates = SalesUpdates(requestedAmount: Json, tenureMonths: Json, loanPurpose: Json, monthlyIncome: Json)

  const NoUpdates: SalesUpdates := SalesUpdates(JNull, JNull, JNull, JNull)

  /** A model reply; `updates` is `None` when the reply carries a null, empty
      or absent object. */
  datatype SalesReply = SalesReply(reply: Json, updates: Option<SalesUpdates>, nextStage: Json, expectedInput: Json)

  /** The update values accepted: truthy numbers and non-blank purposes. */
  function ApplyUpdates(s: Session, u: SalesUpdates): Session
  {
    TakePurposeIncome(TakeAmountTenure(s, u), CoerceFloat(u.monthlyIncome), CoerceStr(u.loanPurpose))
  }

  function TakeAmountTenure(s: Session, u: SalesUpdates): Session
  {
    var amount := CoerceFloat(u.requestedAmount);
    var tenure := CoerceInt(u.tenureMonths);
    s.(requestedAmount := if RealTruthy(amount) then amount else s.requestedAmount,
       tenureMonths := if IntTruthy(tenure) then tenure else s.tenureMonths)
  }

  /** The coerced income and purpose, where present. */
  function TakePurposeIncome(s: Session, income: Option<real>, purpose: Option<string>): Session
  {
    s.(monthlyIncome := if RealTruthy(income) then income else s.monthlyIncome,
       loanPurpose := if purpose.Some? then purpose else s.loanPurpose)
  }

  predicate IsSalesStage(v: Json) { IsText(v, "sales") || IsText(v, "verification") }

  predicate IsExpectedInput(v: Json) {
    IsText(v, "amount") || IsText(v, "tenure") || IsText(v, "purpose") || IsText(v, "income")
  }

  /** The stage and expected input the reply names, where they are allowed. */
  function ApplySteering(s: Session, nextStage: Json, expected: Json): Session
  {
    s.(stage := if IsSalesStage(nextStage) then nextStage.s else s.stage,
       expectedInput := if IsExpectedInput(expected) then Some(expected.s)
                        else if expected.JNull? then None else s.expectedInput)
  }

  /** `handle_sales(session, message)`. */
  function HandleSales(s: Session, message: string, llm: Option<SalesReply>): Handled
  {
    match llm
    case None => FallbackSales(s, message)
    case Some(res) =>
      var t := ApplySteering(ApplyUpdates(s, res.updates.GetOr(NoUpdates)), res.nextStage, res.expectedInput);
      if IsNonBlankString(res.reply) then Handled(t, res.reply.s) else FallbackSales(t, message)
  }

  /** Expected inputs the sales handler works with. */
  predicate ValidExpected(e: Option<string>) {
    e == None || e.value in {"amount", "tenure", "purpose", "income"}
  }

  /** A sales turn changes only the sales fields, stage and expected input;
      it never clears a collected value; from the sales stage it ends in
      sales or verification; and it keeps the expected input among the four
      questions or none. */
  lemma {:induction false} SalesTurnKeepsCollected(s: Session, message: string, llm: Option<SalesReply>)
    requires s.stage == "sales" && ValidExpected(s.expectedInput)
    ensures var r := HandleSales(s, message, llm).session;
      WithSalesFields(s, r) == r
      && (s.requestedAmount.Some? ==> r.requestedAmount.Some?)
      && (s.tenureMonths.Some? ==> r.tenureMonths.Some?)
      && (s.loanPurpose.Some? ==> r.loanPurpose.Some?)
      && (s.monthlyIncome.Some? ==> r.monthlyIncome.Some?)
      && (r.stage == "sales" || r.stage == "verification")
      && ValidExpected(r.expectedInput)
  {
    if llm.Some? {
      var res := llm.value;
      var t := ApplySteering(ApplyUpdates(s, res.updates.GetOr(NoUpdates)), res.nextStage, res.expectedInput);
      assert t.stage == "sales" || t.stage == "verification";
      assert ValidExpected(t.expectedInput);
      if !IsNonBlankString(res.reply) {
        StageOfFallback(t, message);
      }
    } else {
      StageOfFallback(s, message);
    }
  }

  /** The fallback keeps a stage of sales or verification among those two
      and leaves an expected input among the four questions or none. */
  lemma {:induction false} StageOfFallback(s: Session, message: string)
    requires s.stage == "sales" || s.stage == "verification"
    ensures var r := FallbackSales(s, message).session;
      WithSalesFields(s, r) == r
      && (s.requestedAmount.Some? ==> r.requestedAmount.Some?)
      && (s.tenureMonths.Some? ==> r.tenureMonths.Some?)
      && (s.loanPurpose.Some? ==> r.loanPurpose.Some?)
      && (s.monthlyIncome.Some? ==> r.monthlyIncome.Some?)
      && (r.stage == "sales" || r.stage == "verification")
      && ValidExpected(r.expectedInput)
  {
    var r := FallbackSales(s, message);
    if s.requestedAmount.None? {
      assert r == AmountStep(s, message);
    } else if s.tenureMonths.None? {
      assert r == TenureStep(s, message);
    } else if s.loanPurpose.None? {
      var purpose := Strip(message);
      assert r == PurposeStep(s, purpose);
    } else if s.monthlyIncome.None? {
      assert r == IncomeStep(s, message);
    }
  }

  /** A sales turn writes only the sales fields, stage and expected input. */
  lemma {:induction false} SalesFrame(s: Session, message: string, llm: Option<SalesReply>)
    ensures var r := HandleSales(s, message, llm).session;
      WithSalesFields(s, r) == r && r.applicationStatus == s.applicationStatus && r.history == s.history
  {
    var t := if llm.Some? then ApplySteering(ApplyUpdates(s, llm.value.updates.GetOr(NoUpdates)), llm.value.nextStage, llm.value.expectedInput) else s;
    assert WithSalesFields(s, t) == t;
    var r := FallbackSales(t, message);
    if t.requestedAmount.None? {
      assert r == AmountStep(t, message);
    } else if t.tenureMonths.None? {
      assert r == TenureStep(t, message);
    } else if t.loanPurpose.None? {
      var purpose := Strip(message);
      assert r == PurposeStep(t, purpose);
    } else if t.monthlyIncome.None? {
      assert r == IncomeStep(t, message);
    }
  }

  /** Without a model the handler is the fallback; a model reply with a
      non-blank text is returned as it is. */
  lemma {:induction false} ReplySource(s: Session, message: string, llm: Option<SalesReply>)
    ensures llm.None? ==> HandleSales(s, message, llm) == FallbackSales(s, message)
    ensures llm.Some? && IsNonBlankString(llm.value.reply) ==> HandleSales(s, message, llm).reply == llm.value.reply.s
  {
  }

  // ------------------------------------------------------------ in place

  /** `_fallback_sales` on the session record. */
  method FallbackSalesInPlace(session: SessionState, message: string) returns (reply: string)
    modifies session`requestedAmount, session`tenureMonths, session`loanPurpose,
             session`monthlyIncome, session`expectedInput, session`stage
    ensures Handled(session.Snapshot(), reply) == FallbackSales(old(session.Snapshot()), message)
  {
    if session.requestedAmount == None {
      reply := AmountStepInPlace(session, message);
    } else if session.tenureMonths == None {
      reply := TenureStepInPlace(session, message);
    } else if session.loanPurpose == None {
      reply := PurposeStepInPlace(session, Strip(message));
    } else if session.monthlyIncome == None {
      reply := IncomeStepInPlace(session, message);
    } else {
      session.stage := "verification";
      session.expectedInput := None;
      reply := AskMobile;
    }
  }

  method AmountStepInPlace(session: SessionState, message: string) returns (reply: string)
    modifies session`requestedAmount, session`expectedInput
    ensures Handled(session.Snapshot(), reply) == AmountStep(old(session.Snapshot()), message)
  {
    var amount := TextUtils.ExtractAmount(message);
    if RealTruthy(amount) {
      session.requestedAmount := amount;
      session.expectedInput := Some("tenure");
      reply := AskTenure;
    } else {
      session.expectedInput := Some("amount");
      reply := AskAmount;
    }
  }

  method TenureStepInPlace(session: SessionState, message: string) returns (reply: string)
    modifies session`tenureMonths, session`expectedInput
    ensures Handled(session.Snapshot(), reply) == TenureStep(old(session.Snapshot()), message)
  {
    var tenure := TextUtils.ExtractTenure(message);
    if IntTruthy(tenure) {
      session.tenureMonths := tenure;
      session.expectedInput := Some("purpose");
      reply := AskPurposeAfterTenure;
    } else {
      session.expectedInput := Some("tenure");
      reply := RepeatTenure;
    }
  }

  method PurposeStepInPlace(session: SessionState, purpose: string) returns (reply: string)
    modifies session`loanPurpose, session`expectedInput
    ensures Handled(session.Snapshot(), reply) == PurposeStep(old(session.Snapshot()), purpose)
  {
    if |purpose| >= 3 {
      session.loanPurpose := Some(purpose);
      session.expectedInput := Some("income");
      reply := AskIncome;
    } else {
      session.expectedInput := Some("purpose");
      reply := RepeatPurpose;
    }
  }

  method IncomeStepInPlace(session: SessionState, message: string) returns (reply: string)
    modifies session`monthlyIncome, session`expectedInput, session`stage
    ensures Handled(session.Snapshot(), reply) == IncomeStep(old(session.Snapshot()), message)
  {
    var income := TextUtils.ExtractAmount(message);
    if RealTruthy(income) {
      session.monthlyIncome := income;
      session.expectedInput := None;
      session.stage := "verification";
      reply := AskMobile;
    } else {
      session.expectedInput := Some("income");
      reply := RepeatIncome;
    }
  }

  /** The accepted update values written to the record. */
  method ApplyUpdatesInPlace(session: SessionState, u: SalesUpdates)
    modifies session`requestedAmount, session`tenureMonths, session`loanPurpose, session`monthlyIncome
    ensures session.Snapshot() == ApplyUpdates(old(session.Snapshot()), u)
  {
    TakeAmountTenureInPlace(session, u);
    TakePurposeIncomeInPlace(session, CoerceFloat(u.monthlyIncome), CoerceStr(u.loanPurpose));
  }

  method TakeAmountTenureInPlace(session: SessionState, u: SalesUpdates)
    modifies session`requestedAmount, session`tenureMonths
    ensures session.Snapshot() == TakeAmountTenure(old(session.Snapshot()), u)
  {
    var amount := CoerceFloat(u.requestedAmount);
    var tenure := CoerceInt(u.tenureMonths);
    if RealTruthy(amount) {
      session.requestedAmount := amount;
    }
    if IntTruthy(tenure) {
      session.tenureMonths := tenure;
    }
  }

  method TakePurposeIncomeInPlace(session: SessionState, income: Option<real>, purpose: Option<string>)
    modifies session`loanPurpose, session`monthlyIncome
    ensures session.Snapshot() == TakePurposeIncome(old(session.Snapshot()), income, purpose)
  {
    if RealTruthy(income) {
      session.monthlyIncome := income;
    }
    if purpose.Some? {
      session.loanPurpose := purpose;
    }
  }

  /** The accepted stage and expected input written to the record. */
  method ApplySteeringInPlace(session: SessionState, nextStage: Json, expected: Json)
    modifies session`stage, session`expectedInput
    ensures session.Snapshot() == ApplySteering(old(session.Snapshot()), nextStage, expected)
  {
    if IsSalesStage(nextStage) {
      session.stage := nextStage.s;
    }
    if IsExpectedInput(expected) {
      session.expectedInput := Some(expected.s);
    } else if expected.JNull? {
      session.expectedInput := None;
    }
  }

  /** `handle_sales` on the session record. */
  method HandleSalesInPlace(session: SessionState, message: string, llm: Option<SalesReply>) returns (reply: string)
    modifies session`requestedAmount, session`tenureMonths, session`loanPurpose,
             session`monthlyIncome, session`expectedInput, session`stage
    ensures Handled(session.Snapshot(), reply) == HandleSales(old(session.Snapshot()), message, llm)
  {
    if llm.None? {
      reply := FallbackSalesInPlace(session, message);
      return;
    }
    var res := llm.value;
    ApplyUpdatesInPlace(session, res.updates.GetOr(NoUpdates));
    ApplySteeringInPlace(session, res.nextStage, res.expectedInput);
    if IsNonBlankString(res.reply) {
      reply := res.reply.s;
    } else {
      reply := FallbackSalesInPlace(session, message);
    }
  }
}
