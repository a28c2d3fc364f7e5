/** The input validators of lib/loan-flow/validators.ts. Each returns whether
    the input is acceptable and, when it is not, the message to show. */
module Validators {
  import opened Wrappers
  import opened Strings
  import opened LoanFlowTypes

  /** `ValidationResult`; `error` is absent on success. */
  datatype ValidationResult = ValidationResult(isValid: bool, error: Option<string>)

  const Valid: ValidationResult := ValidationResult(true, None)

  function Invalid(message: string): ValidationResult {
    ValidationResult(false, Some(message))
  }

  /** A result is well formed when it carries a message exactly when it fails. */
  predicate WellFormed(r: ValidationResult) {
    r.isValid <==> r.error.None?
  }

  // ------------------------------------------------------------ mobile

  const MobileLengthError: string := "Mobile number must be 10 digits"
  const MobilePrefixError: string := "Mobile number must start with 6, 7, 8, or 9"

  /** The leading digits an Indian mobile number may have. */
  predicate MobileLead(c: char) { c == '6' || c == '7' || c == '8' || c == '9' }

  /** `validateMobile(mobile)`: the digits are kept and the rest dropped. */
  function ValidateMobile(mobile: string): (r: ValidationResult)
    ensures WellFormed(r)
    ensures r.isValid <==> |DigitsOf(mobile)| == 10 && MobileLead(DigitsOf(mobile)[0])
    ensures |DigitsOf(mobile)| != 10 ==> r.error == Some(MobileLengthError)
  {
    var cleaned := DigitsOf(mobile);
    if |cleaned| != 10 then Invalid(MobileLengthError)
    else if !MobileLead(cleaned[0]) then Invalid(MobilePrefixError)
    else Valid
  }

  /** Separators do not matter: a number is judged by its digits alone. */
  lemma {:induction false} MobileIgnoresFormatting(mobile: string)
    ensures ValidateMobile(mobile) == ValidateMobile(DigitsOf(mobile))
  {
    DigitsOfAllDigits(DigitsOf(mobile));
  }

  /** A ten-digit number written with the country code `+91` has twelve
      digits and is refused for its length. */
  lemma {:induction false} CountryCodeRefused(number: string)
    requires AllDigits(number) && |number| == 10
    ensures ValidateMobile("+91" + number) == Invalid(MobileLengthError)
  {
    DigitsOfAppend("+91", number);
    DigitsOfAllDigits(number);
    assert DigitsOf("+91") == "91" by {
      assert "+91"[1..] == "91" && "91"[1..] == "1" && "1"[1..] == [];
    }
  }

  /** A valid number split by a hyphen is still valid. */
  lemma {:induction false} HyphenAccepted(a: string, b: string)
    requires ValidateMobile(a + b).isValid && AllDigits(a + b)
    ensures ValidateMobile(a + "-" + b).isValid
  {
    DigitsOfAppend(a + "-", b);
    DigitsOfAppend(a, "-");
    DigitsOfAppend(a, b);
    assert DigitsOf("-") == [];
    assert forall k :: 0 <= k < |a| ==> IsDigit(a[k]) by {
      assert forall k :: 0 <= k < |a| ==> a[k] == (a + b)[k];
    }
    assert forall k :: 0 <= k < |b| ==> IsDigit(b[k]) by {
      assert forall k :: 0 <= k < |b| ==> b[k] == (a + b)[|a| + k];
    }
    DigitsOfAllDigits(a);
    DigitsOfAllDigits(b);
  }

  // ------------------------------------------------------------ e-mail

  const EmailError: string := "Please enter a valid email address"

  /** A stretch matched by `[^\\s@]+`: non-empty, without whitespace or `@`. */
  predicate EmailPart(s: string) {
    |s| > 0 && forall k :: 0 <= k < |s| ==> !IsSpace(s[k]) && s[k] != '@'
  }

  /** What `/^[^\\s@]+@[^\\s@]+\\.[^\\s@]+$/` accepts, read off the pattern:
      three parts separated by an `@` and, after it, a dot. */
  ghost predicate EmailPattern(s: string) {
    exists i, j :: 0 < i < j < |s| - 1 && s[i] == '@' && s[j] == '.'
                   && EmailPart(s[..i]) && EmailPart(s[i + 1..j]) && EmailPart(s[j + 1..])
  }

  predicate IsAt(c: char) { c == '@' }
  predicate IsDot(c: char) { c == '.' }

  /** The regular expression evaluated without backtracking: the first `@`
      ends the local part; the rest must be one part holding a dot that is
      neither its first nor its last character. */
  predicate EmailShape(s: string) {
    var i := FindFrom(s, 0, IsAt);
    0 < i < |s| && EmailPart(s[..i]) && EmailPart(s[i + 1..])
    && FindFrom(s[i + 1..], 1, IsDot) < |s| - i - 2
  }

  /** `validateEmail(email)`. */
  function ValidateEmail(email: string): (r: ValidationResult)
    ensures WellFormed(r)
    ensures !r.isValid ==> r.error == Some(EmailError)
    ensures r.isValid <==> EmailShape(email)
  {
    if !EmailShape(email) then Invalid(EmailError) else Valid
  }

  /** Every string the evaluation accepts is described by the pattern. */
  lemma {:induction false} EmailShapeMatches(s: string)
    requires EmailShape(s)
    ensures EmailPattern(s)
  {
    var i := FindFrom(s, 0, IsAt);
    var d := s[i + 1..];
    var k := FindFrom(d, 1, IsDot);
    var j := i + 1 + k;
    assert s[i + 1..j] == d[..k];
    assert s[j + 1..] == d[k + 1..];
    assert s[j] == d[k];
    assert EmailPart(s[i + 1..j]);
    assert EmailPart(s[j + 1..]);
  }

  /** The part after the `@` of a string the pattern describes. */
  lemma {:induction false} DomainOfPattern(s: string, i: nat, j: nat)
    requires 0 < i < j < |s| - 1 && s[j] == '.'
    requires EmailPart(s[i + 1..j]) && EmailPart(s[j + 1..])
    ensures EmailPart(s[i + 1..])
  {
    var d := s[i + 1..];
    forall k | 0 <= k < |d| ensures !IsSpace(d[k]) && d[k] != '@' {
      if k < j - i - 1 {
        assert d[k] == s[i + 1..j][k];
      } else if k > j - i - 1 {
        assert d[k] == s[j + 1..][k - (j - i)];
      }
    }
  }

  /** Every string the pattern describes is accepted by the evaluation. */
  lemma {:induction false} EmailPatternMatches(s: string)
    requires EmailPattern(s)
    ensures EmailShape(s)
  {
    var i, j :| 0 < i < j < |s| - 1 && s[i] == '@' && s[j] == '.'
                && EmailPart(s[..i]) && EmailPart(s[i + 1..j]) && EmailPart(s[j + 1..]);
    assert forall k :: 0 <= k < i ==> s[..i][k] == s[k];
    FindFromIs(s, 0, IsAt, i);
    DomainOfPattern(s, i, j);
    var d := s[i + 1..];
    assert IsDot(d[j - i - 1]);
  }

  /** The evaluation accepts exactly the strings the pattern describes. */
  lemma {:induction false} EmailShapeIsPattern(s: string)
    ensures EmailShape(s) <==> EmailPattern(s)
  {
    if EmailShape(s) { EmailShapeMatches(s); }
    if EmailPattern(s) { EmailPatternMatches(s); }
  }

  // ------------------------------------------------------------ PAN

  const PanError: string := "PAN must be in format: ABCDE1234F"

  /** `/^[A-Z]{5}[0-9]{4}[A-Z]{1}$/`. */
  predicate PanShape(u: string) {
    |u| == 10 && (forall k :: 0 <= k < 5 ==> IsUpper(u[k]))
    && (forall k :: 5 <= k < 9 ==> IsDigit(u[k])) && IsUpper(u[9])
  }

  /** `validatePAN(pan)`: the pattern is tested on the upper-cased input. */
  function ValidatePan(pan: string): (r: ValidationResult)
    ensures WellFormed(r)
    ensures !r.isValid ==> r.error == Some(PanError)
    ensures r.isValid <==> PanShape(ToUpper(pan))
  {
    if !PanShape(ToUpper(pan)) then Invalid(PanError) else Valid
  }

  /** Lower-case letters in a PAN are accepted: the check is blind to case. */
  lemma {:induction false} PanIgnoresCase(pan: string)
    ensures ValidatePan(ToLower(pan)) == ValidatePan(pan)
  {
    assert ToUpper(ToLower(pan)) == ToUpper(pan);
  }

  // ------------------------------------------------------------ Aadhaar and OTP

  const AadhaarError: string := "Aadhaar must be 12 digits"
  const OtpError: string := "OTP must be 6 digits"

  /** `validateAadhaar(aadhaar)`: twelve digits, whatever separates them. */
  function ValidateAadhaar(aadhaar: string): (r: ValidationResult)
    ensures WellFormed(r)
    ensures !r.isValid ==> r.error == Some(AadhaarError)
    ensures r.isValid <==> |DigitsOf(aadhaar)| == 12
  {
    if |DigitsOf(aadhaar)| != 12 then Invalid(AadhaarError) else Valid
  }

  /** `validateOTP(otp)`: six digits, whatever separates them. */
  function ValidateOtp(otp: string): (r: ValidationResult)
    ensures WellFormed(r)
    ensures !r.isValid ==> r.error == Some(OtpError)
    ensures r.isValid <==> |DigitsOf(otp)| == 6
  {
    if |DigitsOf(otp)| != 6 then Invalid(OtpError) else Valid
  }

  /** Separators do not matter for the Aadhaar and OTP checks either. */
  lemma {:induction false} DigitCountsIgnoreFormatting(s: string)
    ensures ValidateAadhaar(s) == ValidateAadhaar(DigitsOf(s))
    ensures ValidateOtp(s) == ValidateOtp(DigitsOf(s))
  {
    DigitsOfAllDigits(DigitsOf(s));
  }

  // ------------------------------------------------------------ amounts

  const IncomeMinimumError: string := "Minimum monthly income should be ₹10,000"
  const IncomeRangeError: string := "Please enter a valid income amount"
  const AmountMinimumError: string := "Minimum loan amount is ₹10,000"
  const AmountMaximumError: string := "Maximum loan amount is ₹50,00,000"
  const AmountIncomeError: string := "Loan amount too high for your income"

  /** `validateMonthlyIncome(income)`. */
  function ValidateMonthlyIncome(income: real): (r: ValidationResult)
    ensures WellFormed(r)
    ensures r.isValid <==> 10000.0 <= income <= 10000000.0
    ensures income < 10000.0 ==> r.error == Some(IncomeMinimumError)
  {
    if income < 10000.0 then Invalid(IncomeMinimumError)
    else if income > 10000000.0 then Invalid(IncomeRangeError)
    else Valid
  }

  /** `validateLoanAmount(amount, monthlyIncome)`. The income test runs only
      when the income is truthy: absent and zero incomes skip it. */
  function ValidateLoanAmount(amount: real, monthlyIncome: Option<real>): (r: ValidationResult)
    ensures WellFormed(r)
    ensures r.isValid <==> 10000.0 <= amount <= 5000000.0
                           && (RealTruthy(monthlyIncome) ==> amount <= monthlyIncome.value * 60.0)
    ensures amount < 10000.0 ==> r.error == Some(AmountMinimumError)
  {
    if amount < 10000.0 then Invalid(AmountMinimumError)
    else if amount > 5000000.0 then Invalid(AmountMaximumError)
    else if RealTruthy(monthlyIncome) && amount > monthlyIncome.value * 60.0 then Invalid(AmountIncomeError)
    else Valid
  }

  /** Knowing the income can only refuse more amounts, and a higher positive
      income refuses fewer. */
  lemma {:induction false} IncomeOnlyTightens(amount: real, i1: real, i2: real)
    requires 0.0 < i1 <= i2
    ensures ValidateLoanAmount(amount, Some(i1)).isValid ==> ValidateLoanAmount(amount, None).isValid
    ensures ValidateLoanAmount(amount, Some(i1)).isValid ==> ValidateLoanAmount(amount, Some(i2)).isValid
  {
  }

  /** A zero income is falsy, so it is treated as no income at all. */
  lemma {:induction false} ZeroIncomeIgnored(amount: real)
    ensures ValidateLoanAmount(amount, Some(0.0)) == ValidateLoanAmount(amount, None)
  {
  }

  /** Every income the income step accepts allows the minimum loan, and the
      maximum loan needs an income of at least 5,000,000 / 60. */
  lemma {:induction false} ValidIncomeAllowsMinimumLoan(income: real)
    requires ValidateMonthlyIncome(income).isValid
    ensures ValidateLoanAmount(10000.0, Some(income)).isValid
    ensures ValidateLoanAmount(5000000.0, Some(income)).isValid <==> income * 60.0 >= 5000000.0
  {
  }

  // ------------------------------------------------------------ name

  const NameLengthError: string := "Name must be at least 3 characters"
  const NameLettersError: string := "Name should only contain letters"

  /** `/^[a-zA-Z\\s]+$/`. */
  predicate LettersAndSpaces(s: string) {
    |s| > 0 && forall k :: 0 <= k < |s| ==> IsLetter(s[k]) || IsSpace(s[k])
  }

  /** `validateFullName(name)`: the length is measured after trimming, the
      characters on the untrimmed name. */
  function ValidateFullName(name: string): (r: ValidationResult)
    ensures WellFormed(r)
    ensures r.isValid <==> |Strip(name)| >= 3 && LettersAndSpaces(name)
    ensures |Strip(name)| < 3 ==> r.error == Some(NameLengthError)
  {
    if |Strip(name)| < 3 then Invalid(NameLengthError)
    else if !LettersAndSpaces(name) then Invalid(NameLettersError)
    else Valid
  }

  /** An accepted name, once trimmed, begins and ends with a letter. */
  lemma {:induction false} ValidNameFramedByLetters(name: string)
    requires ValidateFullName(name).isValid
    ensures var t := Strip(name); IsLetter(t[0]) && IsLetter(t[|t| - 1])
  {
    StripIsSlice(name);
    var t := Strip(name);
    var i := StripOffset(name);
    assert t[0] == name[i];
    assert t[|t| - 1] == name[i + |t| - 1];
  }

  // ------------------------------------------------------------ files

  const DefaultMaxSizeMB: nat := 5
  const AllowedFileTypes: seq<string> := ["image/jpeg", "image/jpg", "image/png", "application/pdf"]
  const FileTypeError: string := "Only JPG, PNG, and PDF files are allowed"

  function FileSizeError(maxSizeMB: nat): string {
    "File size must be less than " + NatToString(maxSizeMB) + "MB"
  }

  /** `validateFile(file, maxSizeMB)`; the size is checked before the type. */
  function ValidateFile(file: FileInfo, maxSizeMB: nat): (r: ValidationResult)
    ensures WellFormed(r)
    ensures r.isValid <==> file.size <= (maxSizeMB * 1024 * 1024) as real && file.mimeType in AllowedFileTypes
    ensures file.size > (maxSizeMB * 1024 * 1024) as real ==> r.error == Some(FileSizeError(maxSizeMB))
  {
    if file.size > (maxSizeMB * 1024 * 1024) as real then Invalid(FileSizeError(maxSizeMB))
    else if file.mimeType !in AllowedFileTypes then Invalid(FileTypeError)
    else Valid
  }

  /** Raising the size limit never refuses a file that passed. */
  lemma {:induction false} LargerLimitAcceptsMore(file: FileInfo, m1: nat, m2: nat)
    requires m1 <= m2
    ensures ValidateFile(file, m1).isValid ==> ValidateFile(file, m2).isValid
  {
    assert m1 * 1024 * 1024 <= m2 * 1024 * 1024;
  }
}
