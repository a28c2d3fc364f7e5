/** The free-text parsers of backend/app/services/text_utils.py: a loan
    amount with its lakh/crore unit, a tenure, and a 10-digit phone number. */
module TextUtils {
  import opened Wrappers
  import opened Strings
  import opened Numeric

  /** A character of the amount pattern `[0-9][0-9,\.]*` after its first digit. */
  predicate IsAmountChar(c: char) { IsDigit(c) || c == ',' || c == '.' }

  predicate IsDigitOrDot(c: char) { IsDigit(c) || c == '.' }

  predicate IsDot(c: char) { c == '.' }

  /** Python `float(t)` for a text made of digits and dots: it parses iff it
      holds at most one dot and at least one digit. */
  function ParseDecimal(t: string): (r: Option<real>)
    requires forall k :: 0 <= k < |t| ==> IsDigitOrDot(t[k])
    ensures r.Some? <==> CountChar(t, '.') <= 1 && CountChar(t, '.') < |t|
  {
    var d := FindFrom(t, 0, IsDot);
    CountUpToFirst(t, d, '.');
    assert AllDigits(t[..d]) by {
      forall k | 0 <= k < d ensures IsDigit(t[..d][k]) {
        assert !IsDot(t[k]) && IsDigitOrDot(t[k]);
        assert t[..d][k] == t[k];
      }
    }
    if d == |t| then
      if t == [] then None else
        assert t[..d] == t;
        Some(NatOf(t) as real)
    else
      var whole, frac := t[..d], t[d + 1..];
      if !AllDigits(frac) then
        NoDigitsOnlyMeansDot(frac);
        None
      else
        AllDigitsNoDot(frac);
        if whole == [] && frac == [] then None
        else Some(NatOf(whole) as real + NatOf(frac) as real / Pow10(|frac|))
  }

  lemma {:induction false} CountUpToFirst(t: string, d: nat, c: char)
    requires d <= |t|
    requires forall k :: 0 <= k < d ==> t[k] != c
    requires d < |t| ==> t[d] == c
    ensures d == |t| ==> CountChar(t, c) == 0
    ensures d < |t| ==> CountChar(t, c) == 1 + CountChar(t[d + 1..], c)
    ensures CountChar(t, c) <= |t|
  {
    if t != [] && d > 0 {
      CountUpToFirst(t[1..], d - 1, c);
      if d < |t| {
        assert t[1..][d..] == t[d + 1..];
      }
    } else if t != [] {
      CountBound(t[1..], c);
      assert t[d + 1..] == t[1..];
    }
  }

  lemma {:induction false} CountBound(t: string, c: char)
    ensures CountChar(t, c) <= |t|
  {
    if t != [] { CountBound(t[1..], c); }
  }

  lemma {:induction false} AllDigitsNoDot(t: string)
    requires AllDigits(t)
    ensures CountChar(t, '.') == 0
  {
    if t != [] { AllDigitsNoDot(t[1..]); }
  }

  lemma {:induction false} NoDigitsOnlyMeansDot(t: string)
    requires forall k :: 0 <= k < |t| ==> IsDigitOrDot(t[k])
    requires !AllDigits(t)
    ensures CountChar(t, '.') >= 1
  {
    if !IsDigit(t[0]) {
    } else {
      assert !AllDigits(t[1..]) by {
        var k :| 0 <= k < |t| && !IsDigit(t[k]);
        assert t[1..][k - 1] == t[k];
      }
      NoDigitsOnlyMeansDot(t[1..]);
    }
  }

  /** The unit multiplier: "crore" (ten million) wins over "lakh"/"lac"
      (one hundred thousand); without a unit it is 1. */
  function AmountMultiplier(lowered: string): real {
    if Contains(lowered, "crore") then 10000000.0
    else if Contains(lowered, "lakh") || Contains(lowered, "lac") then 100000.0
    else 1.0
  }

  /** The amount characters of `s[i..j]`, commas removed, are digits and dots. */
  lemma {:induction false} TokenChars(s: string, i: nat, j: nat)
    requires i <= j <= |s|
    requires forall k :: i <= k < j ==> IsAmountChar(s[k])
    ensures forall k :: 0 <= k < |RemoveChar(s[i..j], ',')| ==> IsDigitOrDot(RemoveChar(s[i..j], ',')[k])
  {
    assert forall k :: 0 <= k < j - i ==> IsAmountChar(s[i..j][k]);
    RemoveCharKeeps(s[i..j], ',', IsAmountChar);
  }

  /** `extract_amount(text)`. */
  function ExtractAmount(text: string): (r: Option<real>)
    ensures text == "" ==> r == None
    ensures r.Some? ==> r.value >= 0.0
  {
    if text == "" then None else AmountIn(ToLower(text))
  }

  /** The first numeric token of the lowered text, scaled by the unit. */
  function AmountIn(lowered: string): (r: Option<real>)
    ensures r.Some? ==> r.value >= 0.0
  {
    var i := FindFrom(lowered, 0, IsDigit);
    if i == |lowered| then None
    else
      var j := RunEnd(lowered, i, IsAmountChar);
      var token := RemoveChar(lowered[i..j], ',');
      TokenChars(lowered, i, j);
      match ParseDecimal(token)
      case None => None
      case Some(v) => Some(v * AmountMultiplier(lowered))
  }

  /** `extract_tenure(text)`: only the first run of one or two digits counts. */
  function ExtractTenure(text: string): (r: Option<int>)
    ensures text == "" ==> r == None
    ensures r.Some? ==> 0 <= r.value <= 72 && r.value % 12 == 0
  {
    if text == "" then None
    else
      var lowered := ToLower(text);
      var i := FindFrom(lowered, 0, IsDigit);
      if i == |lowered| then
        if Contains(lowered, "one year") then Some(12)
        else if Contains(lowered, "two year") then Some(24)
        else if Contains(lowered, "three year") then Some(36)
        else if Contains(lowered, "four year") then Some(48)
        else None
      else
        var j := RunEnd(lowered, i, IsDigit);
        var run := lowered[i..MinInt(j, i + 2)];
        assert AllDigits(run) by {
          forall k | 0 <= k < |run| ensures IsDigit(run[k]) {
            assert run[k] == lowered[i + k];
          }
        }
        var tenure := NatOf(run);
        if tenure in {12, 24, 36, 48} then Some(tenure)
        else if tenure <= 6 then Some(tenure * 12)
        else None
  }

  /** `extract_phone(text)`. */
  function ExtractPhone(text: string): (r: Option<string>)
    ensures text == "" ==> r == None
    ensures r.Some? ==> |r.value| == 10 && AllDigits(r.value) && EndsWith(DigitsOf(text), r.value)
    ensures r.None? <==> |DigitsOf(text)| < 10
  {
    if text == "" then None
    else
      var digits := DigitsOf(text);
      if |digits| >= 10 then Some(digits[|digits| - 10..]) else None
  }

  lemma {:induction false} DigitsOfDigits(s: string)
    requires AllDigits(s)
    ensures DigitsOf(s) == s
  {
    if s != [] {
      DigitsOfDigits(s[1..]);
      assert [s[0]] + s[1..] == s;
    }
  }

  lemma {:induction false} DigitsOfAppend(a: string, b: string)
    ensures DigitsOf(a + b) == DigitsOf(a) + DigitsOf(b)
  {
    if a != [] {
      assert (a + b)[1..] == a[1..] + b;
      DigitsOfAppend(a[1..], b);
    } else {
      assert a + b == b;
    }
  }

  lemma {:induction false} DigitsOfForeign(s: string)
    requires forall k :: 0 <= k < |s| ==> !IsDigit(s[k])
    ensures DigitsOf(s) == []
  {
    if s != [] { DigitsOfForeign(s[1..]); }
  }

  /** A ten-digit number written after text with no digits is read back unchanged. */
  lemma {:induction false} PhoneRoundTrip(prefix: string, phone: string)
    requires forall k :: 0 <= k < |prefix| ==> !IsDigit(prefix[k])
    requires |phone| == 10 && AllDigits(phone)
    ensures ExtractPhone(prefix + phone) == Some(phone)
  {
    DigitsOfAppend(prefix, phone);
    DigitsOfForeign(prefix);
    DigitsOfDigits(phone);
    assert DigitsOf(prefix + phone) == phone;
  }

  /** A text that opens with the numeral of `n` followed by a character
      outside the amount pattern is read as `n` times the text's unit multiplier. */
  lemma {:induction false} LeadingNumeral(text: string, num: string, n: nat)
    requires |num| > 0 && AllDigits(num) && NatOf(num) == n && num <= text
    requires |num| == |text| || !IsAmountChar(text[|num|])
    ensures AmountIn(text) == Some(n as real * AmountMultiplier(text))
  {
    LeadingNumeralToken(text, num);
    LeadingNumeralValue(text, num, n);
  }

  lemma {:induction false} LeadingNumeralToken(text: string, num: string)
    requires |num| > 0 && AllDigits(num) && num <= text
    requires |num| == |text| || !IsAmountChar(text[|num|])
    ensures FindFrom(text, 0, IsDigit) == 0
    ensures RunEnd(text, 0, IsAmountChar) == |num|
  {
    assert forall k :: 0 <= k < |num| ==> text[k] == num[k];
    FindFromIs(text, 0, IsDigit, 0);
    RunEndIs(text, 0, IsAmountChar, |num|);
  }

  lemma {:induction false} LeadingNumeralValue(text: string, num: string, n: nat)
    requires |num| > 0 && AllDigits(num) && NatOf(num) == n && num <= text
    requires FindFrom(text, 0, IsDigit) == 0
    requires RunEnd(text, 0, IsAmountChar) == |num|
    ensures AmountIn(text) == Some(n as real * AmountMultiplier(text))
  {
    assert RemoveChar(text[0..|num|], ',') == num by {
      assert text[0..|num|] == num;
      RemoveCharAbsent(num, ',');
    }
    ParseDecimalOfNumeral(num, n);
    var m := AmountMultiplier(text);
    assert ParseDecimal(num).value * m == n as real * m;
  }

  lemma {:induction false} ParseDecimalOfDigits(t: string)
    requires |t| > 0 && AllDigits(t)
    ensures forall k :: 0 <= k < |t| ==> IsDigitOrDot(t[k])
    ensures ParseDecimal(t) == Some(NatOf(t) as real)
  {
    FindFromIs(t, 0, IsDot, |t|);
    assert t[..|t|] == t;
  }

  lemma {:induction false} ParseDecimalOfNumeral(t: string, n: nat)
    requires |t| > 0 && AllDigits(t) && NatOf(t) == n
    ensures forall k :: 0 <= k < |t| ==> IsDigitOrDot(t[k])
    ensures ParseDecimal(t) == Some(n as real)
  {
    ParseDecimalOfDigits(t);
  }

  /** A decimal numeral of `n` (such as `NatToString(n)`) followed by a
      lower-case unit text is read as `n` times the text's multiplier;
      `MultiplierIgnoresNumeral` shows that multiplier is the unit's own. */
  lemma {:induction false} AmountRoundTrip(num: string, unit: string, n: nat)
    requires |num| > 0 && AllDigits(num) && NatOf(num) == n
    requires forall k :: 0 <= k < |unit| ==> !IsUpper(unit[k]) && !IsDigit(unit[k])
    requires unit == [] || !IsAmountChar(unit[0])
    ensures ExtractAmount(num + unit) == Some(n as real * AmountMultiplier(num + unit))
  {
    NumeralIsPrefix(num, unit);
    AmountOfLeadingNumeral(num, unit, n);
  }

  lemma {:induction false} AmountOfLeadingNumeral(num: string, unit: string, n: nat)
    requires |num| > 0 && AllDigits(num) && NatOf(num) == n
    requires forall k :: 0 <= k < |unit| ==> !IsUpper(unit[k])
    requires num <= num + unit
    requires |num| == |num + unit| || !IsAmountChar((num + unit)[|num|])
    ensures ExtractAmount(num + unit) == Some(n as real * AmountMultiplier(num + unit))
  {
    LeadingNumeral(num + unit, num, n);
    NumeralTextIsLower(num, unit);
    ExtractLowered(num + unit, Some(n as real * AmountMultiplier(num + unit)));
  }

  lemma {:induction false} ExtractLowered(text: string, v: Option<real>)
    requires text != "" && ToLower(text) == text && AmountIn(text) == v
    ensures ExtractAmount(text) == v
  {
  }

  lemma {:induction false} NumeralIsPrefix(num: string, unit: string)
    requires unit == [] || !IsAmountChar(unit[0])
    ensures num <= num + unit
    ensures |num| == |num + unit| || !IsAmountChar((num + unit)[|num|])
  {
    assert (num + unit)[..|num|] == num;
    if unit != [] {
      assert (num + unit)[|num|] == unit[0];
    }
  }

  lemma {:induction false} NumeralTextIsLower(num: string, unit: string)
    requires AllDigits(num)
    requires forall k :: 0 <= k < |unit| ==> !IsUpper(unit[k])
    ensures ToLower(num + unit) == num + unit
  {
    var text := num + unit;
    assert forall k :: 0 <= k < |num| ==> text[k] == num[k];
    assert forall k :: 0 <= k < |unit| ==> text[|num| + k] == unit[k];
    LowerOfLowered(text);
  }

  lemma {:induction false} MultiplierIgnoresNumeral(num: string, unit: string)
    requires AllDigits(num)
    ensures AmountMultiplier(num + unit) == AmountMultiplier(unit)
  {
    ContainsAfterForeignPrefix(num, unit, "crore");
    ContainsAfterForeignPrefix(num, unit, "lakh");
    ContainsAfterForeignPrefix(num, unit, "lac");
  }

  lemma {:induction false} TooShortToContain(s: string, p: string)
    requires |s| < |p|
    ensures !Contains(s, p)
    decreases |s|
  {
    if |s| > 0 {
      TooShortToContain(s[1..], p);
    }
  }

  lemma {:induction false} LakhMultiplier()
    ensures AmountMultiplier(" lakh") == 100000.0
  {
    assert !Contains(" lakh", "crore") by {
      assert !StartsWith(" lakh", "crore") by { assert " lakh"[0] != "crore"[0]; }
      TooShortToContain(" lakh"[1..], "crore");
    }
    assert Contains(" lakh", "lakh") by {
      assert " lakh"[1..] == "lakh";
      assert StartsWith("lakh", "lakh");
    }
  }

  lemma {:induction false} CroreMultiplier()
    ensures AmountMultiplier(" crore") == 10000000.0
  {
    assert Contains(" crore", "crore") by {
      assert " crore"[1..] == "crore";
      assert StartsWith("crore", "crore");
    }
  }

  /** "5 lakh" is five hundred thousand and "2 crore" twenty million. */
  lemma {:induction false} LakhExample()
    ensures ExtractAmount("5 lakh") == Some(500000.0)
  {
    assert NatOf("5") == 5;
    AmountRoundTrip("5", " lakh", 5);
    MultiplierIgnoresNumeral("5", " lakh");
    LakhMultiplier();
  }

  lemma {:induction false} CroreExample()
    ensures ExtractAmount("2 crore") == Some(20000000.0)
  {
    assert NatOf("2") == 2;
    AmountRoundTrip("2", " crore", 2);
    MultiplierIgnoresNumeral("2", " crore");
    CroreMultiplier();
  }

  lemma {:induction false} TenureOfNumeral(n: nat, unit: string)
    requires n < 100
    requires forall k :: 0 <= k < |unit| ==> !IsUpper(unit[k]) && !IsDigit(unit[k])
    ensures ExtractTenure(NatToString(n) + unit)
         == if n in {12, 24, 36, 48} then Some(n) else if n <= 6 then Some(n * 12) else None
  {
    var num := NatToString(n);
    var text := num + unit;
    assert forall k :: 0 <= k < |num| ==> text[k] == num[k];
    LowerOfLowered(text);
    FindFromIs(text, 0, IsDigit, 0);
    assert |num| <= 2 by {
      if n >= 10 { assert NatToString(n) == NatToString(n / 10) + [DigitChar(n % 10)]; }
    }
    RunEndIs(text, 0, IsDigit, |num|);
    var j := RunEnd(text, 0, IsDigit);
    assert MinInt(j, 2) == |num|;
    assert text[0..|num|] == num;
  }

  /** A two-digit number of months on the 12/24/36/48 grid is read as months;
      a number up to 6 is read as years. */
  lemma {:induction false} TenureRoundTrip(n: nat)
    requires n in {12, 24, 36, 48} || 1 <= n <= 6
    ensures ExtractTenure(NatToString(n) + " months") == Some(if n <= 6 then 12 * n else n)
  {
    TenureOfNumeral(n, " months");
  }
}
