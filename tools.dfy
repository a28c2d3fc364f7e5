/** The deterministic tools of backend/app/services/tools.py: the quoted
    instalment, the purpose categorisation and the FOIR affordability check,
    plus the argument defaults of the oracle wrappers. The JSON encoding of
    each answer is left out; each answer is a record. */
module Tools {
  import opened Wrappers
  import opened Strings
  import opened Numeric
  import Emi
  import Crm

  // ---------------------------------------------------------------- calculate_emi

  datatype EmiQuote = EmiQuote(emi: real, totalInterest: real, totalPayment: real)

  const DefaultToolRate: real := 12.5

  /** `b ** n` for an integer exponent; None where Python raises
      ZeroDivisionError (zero to a negative power). */
  function PowInt(b: real, n: int): (r: Option<real>)
    ensures n >= 0 ==> r == Some(Pow(b, n))
    ensures r.None? <==> b == 0.0 && n < 0
  {
    if n >= 0 then Some(Pow(b, n))
    else if b == 0.0 then None
    else
      PowNonZero(b, -n);
      Some(1.0 / Pow(b, -n))
  }

  /** The unrounded amortised instalment with monthly rate `rate / 1200`; None
      where the formula divides by zero (there is no zero-rate or zero-tenure guard). */
  function AmortisedEmi(principal: real, tenureMonths: int, interestRate: real): Option<real> {
    var r := interestRate / 1200.0;
    match PowInt(1.0 + r, tenureMonths)
    case None => None
    case Some(x) => if x - 1.0 == 0.0 then None else Some(principal * r * x / (x - 1.0))
  }

  /** `calculate_emi(principal, tenure_months, interest_rate)`: the instalment,
      the total payment (instalment times tenure) and the interest (total
      payment minus principal), each rounded to two places. */
  function CalculateEmiTool(principal: real, tenureMonths: int, interestRate: real): (q: Option<EmiQuote>)
    ensures q.Some? <==> AmortisedEmi(principal, tenureMonths, interestRate).Some?
    ensures q.Some? ==> q.value == Quote(AmortisedEmi(principal, tenureMonths, interestRate).value, principal, tenureMonths)
  {
    var e := AmortisedEmi(principal, tenureMonths, interestRate);
    if e.None? then None else Some(Quote(e.value, principal, tenureMonths))
  }

  /** The quote for an instalment: the total payment is the instalment times
      the tenure and the interest is the total payment minus the principal,
      each rounded to two places. */
  function Quote(emi: real, principal: real, tenureMonths: int): EmiQuote {
    var totalPayment := emi * tenureMonths as real;
    EmiQuote(RoundTo(emi, 2), RoundTo(totalPayment - principal, 2), RoundTo(totalPayment, 2))
  }

  /** For a positive principal, rate and tenure the tool quotes the same
      instalment as the EMI service. */
  lemma {:induction false} ToolAgreesWithService(principal: real, tenureMonths: int, interestRate: real)
    requires principal > 0.0 && tenureMonths > 0 && interestRate > 0.0
    ensures AmortisedEmi(principal, tenureMonths, interestRate)
         == Some(Emi.CalculateEmi(principal, interestRate, tenureMonths))
  {
    var r := interestRate / 1200.0;
    assert Emi.MonthlyRate(interestRate) == r;
    Emi.GrowthAboveOne(r, tenureMonths);
    var x := Pow(1.0 + r, tenureMonths);
    assert PowInt(1.0 + r, tenureMonths) == Some(x);
    assert x - 1.0 != 0.0;
    var a := AmortisedEmi(principal, tenureMonths, interestRate);
    assert a.Some?;
    assert a.value == principal * r * x / (x - 1.0);
    assert Emi.CalculateEmi(principal, interestRate, tenureMonths) == principal * r * x / (x - 1.0);
  }

  /** Unlike the EMI service, the tool fails on a zero rate and on a zero tenure. */
  lemma {:induction false} ToolFailsWithoutRateOrTenure(principal: real, tenureMonths: int, interestRate: real)
    requires interestRate == 0.0 || tenureMonths == 0
    ensures CalculateEmiTool(principal, tenureMonths, interestRate).None?
  {
    var r := interestRate / 1200.0;
    if tenureMonths == 0 {
      assert PowInt(1.0 + r, 0) == Some(1.0);
    } else {
      assert r == 0.0;
      OnePower(tenureMonths);
    }
  }

  lemma {:induction false} OnePower(n: int)
    ensures PowInt(1.0, n) == Some(1.0)
  {
    var k: nat := if n >= 0 then n else -n;
    OnePowerNat(k);
  }

  lemma {:induction false} OnePowerNat(n: nat)
    ensures Pow(1.0, n) == 1.0
  {
    if n > 0 {
      OnePowerNat(n - 1);
    }
  }

  /** At the default rate every non-zero tenure gets a quote, so the graph
      nodes, which call the tool only with a truthy tenure, never see it fail. */
  lemma {:induction false} DefaultRateQuotes(principal: real, tenureMonths: int)
    requires tenureMonths != 0
    ensures CalculateEmiTool(principal, tenureMonths, DefaultToolRate).Some?
  {
    var r := DefaultToolRate / 1200.0;
    assert r > 0.0;
    if tenureMonths > 0 {
      Emi.GrowthAboveOne(r, tenureMonths);
    } else {
      Emi.GrowthAboveOne(r, -tenureMonths);
      var p := Pow(1.0 + r, -tenureMonths);
      assert 1.0 / p < 1.0;
    }
  }

  // ---------------------------------------------------------------- analyze_purpose

  datatype PurposeProfile = PurposeProfile(category: string, risk: string, urgency: string, suggestedTenure: int)

  /** The category table, in the order it is searched. */
  const Categories: seq<PurposeProfile> := [
    PurposeProfile("debt_consolidation", "low", "high", 36),
    PurposeProfile("medical", "medium", "critical", 12),
    PurposeProfile("wedding", "medium", "high", 24),
    PurposeProfile("education", "low", "medium", 60),
    PurposeProfile("business", "high", "medium", 48),
    PurposeProfile("home_renovation", "low", "low", 84)
  ]

  const OtherProfile: PurposeProfile := PurposeProfile("other", "medium", "medium", 36)

  /** `keyword.replace("_", " ")`. */
  function Spaced(keyword: string): (r: string)
    ensures |r| == |keyword|
    ensures forall i :: 0 <= i < |r| ==> r[i] == (if keyword[i] == '_' then ' ' else keyword[i])
  {
    seq(|keyword|, i requires 0 <= i < |keyword| => if keyword[i] == '_' then ' ' else keyword[i])
  }

  /** A category keyword matches a lower-cased purpose in its spaced or its
      underscored spelling. */
  predicate KeywordMatches(keyword: string, lowered: string) {
    Contains(lowered, Spaced(keyword)) || Contains(lowered, keyword)
  }

  /** The first profile of `table` whose keyword matches, or "other". */
  function FirstMatch(table: seq<PurposeProfile>, lowered: string): (p: PurposeProfile)
    ensures p == OtherProfile || p in table
    ensures p != OtherProfile ==> KeywordMatches(p.category, lowered)
  {
    if table == [] then OtherProfile
    else if KeywordMatches(table[0].category, lowered) then table[0]
    else FirstMatch(table[1..], lowered)
  }

  /** `analyze_purpose(purpose)`. */
  function AnalyzePurpose(purpose: string): (p: PurposeProfile)
    ensures p == OtherProfile || p in Categories
  {
    FirstMatch(Categories, ToLower(purpose))
  }

  /** The category found is the first in table order whose keyword occurs in
      the lower-cased purpose; "other" only when none occurs. */
  lemma {:induction false} PurposeIsFirstMatch(purpose: string, i: nat)
    requires i < |Categories|
    requires KeywordMatches(Categories[i].category, ToLower(purpose))
    requires forall j :: 0 <= j < i ==> !KeywordMatches(Categories[j].category, ToLower(purpose))
    ensures AnalyzePurpose(purpose) == Categories[i]
  {
    FirstMatchAt(Categories, ToLower(purpose), i);
  }

  lemma {:induction false} FirstMatchAt(table: seq<PurposeProfile>, lowered: string, i: nat)
    requires i < |table|
    requires KeywordMatches(table[i].category, lowered)
    requires forall j :: 0 <= j < i ==> !KeywordMatches(table[j].category, lowered)
    ensures FirstMatch(table, lowered) == table[i]
    decreases i
  {
    if i > 0 {
      assert !KeywordMatches(table[0].category, lowered);
      assert table[1..][i - 1] == table[i];
      FirstMatchAt(table[1..], lowered, i - 1);
    }
  }

  lemma {:induction false} FirstMatchNone(table: seq<PurposeProfile>, lowered: string)
    requires forall j :: 0 <= j < |table| ==> !KeywordMatches(table[j].category, lowered)
    ensures FirstMatch(table, lowered) == OtherProfile
  {
    if table != [] {
      assert !KeywordMatches(table[0].category, lowered);
      FirstMatchNone(table[1..], lowered);
    }
  }

  lemma {:induction false} PurposeOtherIffNoKeyword(purpose: string)
    ensures AnalyzePurpose(purpose) == OtherProfile
        <==> forall j :: 0 <= j < |Categories| ==> !KeywordMatches(Categories[j].category, ToLower(purpose))
  {
    assert forall j :: 0 <= j < |Categories| ==> Categories[j].category != "other";
    FirstMatchOtherIff(Categories, ToLower(purpose));
  }

  /** Over a table without an "other" row, the search yields "other" exactly
      when no keyword matches. */
  lemma {:induction false} FirstMatchOtherIff(table: seq<PurposeProfile>, lowered: string)
    requires forall j :: 0 <= j < |table| ==> table[j].category != "other"
    ensures FirstMatch(table, lowered) == OtherProfile
        <==> forall j :: 0 <= j < |table| ==> !KeywordMatches(table[j].category, lowered)
  {
    if table != [] {
      assert table[0] != OtherProfile;
      FirstMatchOtherIff(table[1..], lowered);
      assert forall j :: 1 <= j < |table| ==> table[j] == table[1..][j - 1];
    }
  }

  /** The purpose "home renovation" gets the category
      home_renovation, which the record's purpose-category list does not name. */
  lemma {:induction false} HomeRenovationExample()
    ensures AnalyzePurpose("home renovation").category == "home_renovation"
  {
    var l := "home renovation";
    LowerHomeRenovation();
    HomeRenovationMatches(l);
    forall j | 0 <= j < 5
      ensures !KeywordMatches(Categories[j].category, l)
    {
      EarlierKeywordAbsent(j);
    }
    FirstMatchAt(Categories, l, 5);
  }

  lemma {:induction false} HomeRenovationMatches(l: string)
    requires l == "home renovation"
    ensures KeywordMatches(Categories[5].category, l)
  {
    SpacedHomeRenovation();
    assert Categories[5].category == "home_renovation";
    assert l[..|l|] == l;
    assert StartsWith(l, Spaced("home_renovation"));
  }

  lemma {:induction false} LowerHomeRenovation()
    ensures ToLower("home renovation") == "home renovation"
  {
    var l := "home renovation";
    forall k | 0 <= k < |l|
      ensures !IsUpper(l[k])
    {
    }
    LowerOfLowered(l);
  }

  lemma {:induction false} SpacedHomeRenovation()
    ensures Spaced("home_renovation") == "home renovation"
  {
    var k := "home_renovation";
    var r := Spaced(k);
    forall i | 0 <= i < |k|
      ensures r[i] == "home renovation"[i]
    {
    }
  }

  /** Each of the first five keywords has a 'd' or a 'b', which
      "home renovation" lacks. */
  lemma {:induction false} EarlierKeywordAbsent(j: nat)
    requires j < 5
    ensures !KeywordMatches(Categories[j].category, "home renovation")
  {
    var l := "home renovation";
    var k := Categories[j].category;
    var c := if j == 4 then 'b' else 'd';
    assert c !in l;
    assert c in k by {
      if j == 0 { assert k[0] == 'd'; }
      else if j == 1 { assert k[2] == 'd'; }
      else if j == 2 { assert k[2] == 'd'; }
      else if j == 3 { assert k[1] == 'd'; }
      else { assert k[0] == 'b'; }
    }
    SpacedKeeps(k, c);
    CharAbsent(l, k, c);
    CharAbsent(l, Spaced(k), c);
  }

  /** Replacing underscores keeps every other character. */
  lemma {:induction false} SpacedKeeps(keyword: string, c: char)
    requires c in keyword && c != '_'
    ensures c in Spaced(keyword)
  {
    var i :| 0 <= i < |keyword| && keyword[i] == c;
    assert Spaced(keyword)[i] == c;
  }

  /** A string cannot contain a pattern with a character it lacks. */
  lemma {:induction false} CharAbsent(s: string, p: string, c: char)
    requires c in p && c !in s
    ensures !Contains(s, p)
  {
    var i :| 0 <= i < |p| && p[i] == c;
    if |p| <= |s| {
      assert s[..|p|][i] != p[i];
    }
    if |s| > 0 {
      assert forall k :: 0 <= k < |s[1..]| ==> s[1..][k] == s[k + 1];
      CharAbsent(s[1..], p, c);
    }
  }

  // ---------------------------------------------------------------- check_affordability

  datatype FoirStatus = Comfortable | Stretched | Risky | Rejected

  datatype AffordabilityReport = AffordabilityReport(
    foirPercentage: real, status: FoirStatus, maxRecommendedEmi: real,
    availableForNewEmi: real, recommendation: string)

  /** The FOIR bands: below 30 comfortable, below 50 stretched, below 60
      risky, otherwise rejected. */
  function Classify(foir: real): (s: FoirStatus)
    ensures s == Comfortable <==> foir < 30.0
    ensures s == Stretched <==> 30.0 <= foir < 50.0
    ensures s == Risky <==> 50.0 <= foir < 60.0
    ensures s == Rejected <==> foir >= 60.0
  {
    if foir < 30.0 then Comfortable
    else if foir < 50.0 then Stretched
    else if foir < 60.0 then Risky
    else Rejected
  }

  /** The fixed-obligation-to-income ratio, in percent. */
  function Foir(monthlyIncome: real, existingEmis: real, proposedEmi: real): real
    requires monthlyIncome != 0.0
  {
    (existingEmis + proposedEmi) / monthlyIncome * 100.0
  }

  /** `check_affordability`; None where a zero income divides by zero. */
  function CheckAffordability(monthlyIncome: real, existingEmis: real, proposedEmi: real): (r: Option<AffordabilityReport>)
    ensures r.None? <==> monthlyIncome == 0.0
    ensures r.Some? ==> r.value.status == Classify(Foir(monthlyIncome, existingEmis, proposedEmi))
    ensures r.Some? ==> (r.value.recommendation == "Proceed" <==> Foir(monthlyIncome, existingEmis, proposedEmi) < 50.0)
    ensures r.Some? ==> r.value.maxRecommendedEmi == RoundTo(monthlyIncome * 0.5, 2)
    ensures r.Some? ==> r.value.availableForNewEmi == RoundTo(monthlyIncome * 0.5 - existingEmis, 2)
  {
    if monthlyIncome == 0.0 then None
    else
      var foir := Foir(monthlyIncome, existingEmis, proposedEmi);
      var status := Classify(foir);
      Some(AffordabilityReport(
        RoundTo(foir, 2), status, RoundTo(monthlyIncome * 0.5, 2),
        RoundTo(monthlyIncome * 0.5 - existingEmis, 2),
        if status == Comfortable || status == Stretched then "Proceed" else "Reduce amount or tenure"))
  }

  /** More obligations never improve the band. */
  lemma {:induction false} ClassifyMonotone(f1: real, f2: real)
    requires f1 <= f2
    ensures Rank(Classify(f1)) <= Rank(Classify(f2))
  {
  }

  function Rank(s: FoirStatus): nat {
    match s
    case Comfortable => 0
    case Stretched => 1
    case Risky => 2
    case Rejected => 3
  }

  // ---------------------------------------------------------------- oracle wrappers

  /** `verify_kyc_tool`: a missing phone or address is passed as "", which
      trips neither placeholder rule, so only a value that is present can
      make the check fail. */
  function VerifyKycTool(phone: Option<string>, address: Option<string>): (r: Crm.KycResult)
    ensures r.status == "failed" <==>
      (phone.Some? && EndsWith(phone.value, "0000")) || (address.Some? && Contains(ToLower(address.value), "test"))
    ensures r.status == "failed" ==> r.reason == Some(Crm.MismatchReason)
    ensures r.status != "failed" ==> r == Crm.KycResult("verified", None)
  {
    EmptyIsNoPlaceholder();
    Crm.VerifyKyc(StrOr(phone, ""), StrOr(address, ""))
  }

  /** The empty string neither ends in "0000" nor mentions "test". */
  lemma {:induction false} EmptyIsNoPlaceholder()
    ensures !EndsWith("", "0000") && !Contains(ToLower(""), "test")
  {
    assert ToLower("") == "";
  }

  /** Leaving out the phone or the address never turns a verified check
      into a failed one. */
  lemma {:induction false} MissingValuesOnlyHelp(phone: string, address: string)
    ensures VerifyKycTool(Some(phone), Some(address)).status == "verified" ==>
      VerifyKycTool(None, Some(address)).status == "verified"
      && VerifyKycTool(Some(phone), None).status == "verified"
      && VerifyKycTool(None, None).status == "verified"
  {
  }
}
