/**
 * The barcode validation library: one total validator per symbology family,
 * the alias table from format id to validator, the dispatcher and the example
 * provider.
 */
module BarcodeValidators {
  import opened Wrappers
  import opened JsStrings

  /** A validator's answer: `{valid: true}` or `{valid: false, message, suggestion}`. */
  datatype Verdict = Accepted | Rejected(message: string, suggestion: string)

  /** The validation functions; several format ids share one. */
  datatype Rule =
    | UpcA | UpcE | Ean13 | Ean8 | Ean5 | Ean2 | Isbn | Itf | Itf14
    | Code39 | Code128 | Code128A | Code128B | Code128C | Msi | Pharmacode | Codabar | Gs1_128

  /** `[0-9X]` */
  predicate IsIsbnChar(c: char) {
    IsAsciiDigit(c) || c == 'X'
  }

  /** `[0-9A-Z\-. $/+%]` */
  predicate IsCode39Char(c: char) {
    IsAsciiDigit(c) || ('A' <= c <= 'Z')
    || c == '-' || c == '.' || c == ' ' || c == '$' || c == '/' || c == '+' || c == '%'
  }

  /** `[A-Z0-9 ]` */
  predicate IsCode128AChar(c: char) {
    ('A' <= c <= 'Z') || IsAsciiDigit(c) || c == ' '
  }

  /** `[A-D]` under the `i` flag: the Codabar start and stop characters, in either case. */
  predicate IsCodabarGuard(c: char) {
    'A' <= FoldCase(c) <= 'D'
  }

  /** `[0-9\-$:/.+]` under the `i` flag: the Codabar data characters. */
  predicate IsCodabarData(c: char) {
    var u := FoldCase(c);
    IsAsciiDigit(u) || u == '-' || u == '$' || u == ':' || u == '/' || u == '.' || u == '+'
  }

  const UPC_A_EXAMPLE := "123456789012"
  const UPC_E_EXAMPLE := "01234565"
  const EAN13_EXAMPLE := "5901234123457"
  const EAN8_EXAMPLE := "96385074"
  const EAN5_EXAMPLE := "12345"
  const EAN2_EXAMPLE := "12"
  const ISBN_EXAMPLE := "9781234567897"
  const ITF_EXAMPLE := "1234567890"
  const ITF14_EXAMPLE := "12345678901231"
  const CODE39_EXAMPLE := "EXAMPLE123"
  const CODE128_EXAMPLE := "Example 1234"
  const CODE128A_EXAMPLE := "EXAMPLE 123"
  const CODE128B_EXAMPLE := "Example123"
  const CODE128C_EXAMPLE := "12345678"
  const MSI_EXAMPLE := "1234567890"
  const PHARMACODE_EXAMPLE := "1234"
  const CODABAR_EXAMPLE := "A1234567890B"
  const GS1_128_EXAMPLE := "00123456789012345675"

  const UPC_A_MESSAGE := "UPC-A deve ter exatamente 12 dígitos"
  const UPC_E_MESSAGE := "UPC-E deve ter entre 6 e 8 dígitos"
  const EAN13_MESSAGE := "EAN-13 deve ter exatamente 13 dígitos"
  const EAN8_MESSAGE := "EAN-8 deve ter exatamente 8 dígitos"
  const EAN5_MESSAGE := "EAN-5 deve ter exatamente 5 dígitos"
  const EAN2_MESSAGE := "EAN-2 deve ter exatamente 2 dígitos"
  const ISBN_MESSAGE := "ISBN deve ter 10 ou 13 dígitos"
  const ITF14_MESSAGE := "ITF-14 deve ter exatamente 14 dígitos"
  const CODE39_MESSAGE := "CODE39 aceita apenas números, letras maiúsculas e -. $/+%"
  const CODE128_MESSAGE := "Digite um valor para o código"
  const CODE128A_MESSAGE := "CODE128A aceita apenas letras maiúsculas, números e espaços"
  const CODE128C_MESSAGE := "CODE128C aceita apenas números (quantidade par de dígitos)"
  const MSI_MESSAGE := "MSI deve conter apenas números"
  const CODABAR_MESSAGE := "Codabar deve começar e terminar com A, B, C ou D"
  const GS1_128_MESSAGE := "GS1-128 deve ter pelo menos 2 caracteres"
  const ITF_PARITY_MESSAGE := "ITF deve ter número par de dígitos"
  const ITF_MINIMUM_MESSAGE := "ITF deve ter pelo menos 2 dígitos"
  const PHARMACODE_LENGTH_MESSAGE := "Pharmacode deve ter entre 1 e 6 dígitos"
  const PHARMACODE_RANGE_MESSAGE := "Pharmacode deve estar entre 3 e 131070"
  const EMPTY_VALUE_MESSAGE := "Digite um valor para gerar o código de barras"

  /** Smallest and largest value a Pharmacode can carry. */
  const PHARMACODE_MIN := 3
  const PHARMACODE_MAX := 131070

  function ValidateUPCA(value: string): (v: Verdict)
    ensures v.Accepted? <==> |Digits(value)| == 12
    ensures v.Rejected? ==> v == Rejected(UPC_A_MESSAGE, UPC_A_EXAMPLE)
  {
    if |Digits(value)| != 12 then Rejected(UPC_A_MESSAGE, UPC_A_EXAMPLE) else Accepted
  }

  function ValidateUPCE(value: string): (v: Verdict)
    ensures v.Accepted? <==> 6 <= |Digits(value)| <= 8
    ensures v.Rejected? ==> v == Rejected(UPC_E_MESSAGE, UPC_E_EXAMPLE)
  {
    var n := |Digits(value)|;
    if n < 6 || n > 8 then Rejected(UPC_E_MESSAGE, UPC_E_EXAMPLE) else Accepted
  }

  function ValidateEAN13(value: string): (v: Verdict)
    ensures v.Accepted? <==> |Digits(value)| == 13
    ensures v.Rejected? ==> v == Rejected(EAN13_MESSAGE, EAN13_EXAMPLE)
  {
    if |Digits(value)| != 13 then Rejected(EAN13_MESSAGE, EAN13_EXAMPLE) else Accepted
  }

  function ValidateEAN8(value: string): (v: Verdict)
    ensures v.Accepted? <==> |Digits(value)| == 8
    ensures v.Rejected? ==> v == Rejected(EAN8_MESSAGE, EAN8_EXAMPLE)
  {
    if |Digits(value)| != 8 then Rejected(EAN8_MESSAGE, EAN8_EXAMPLE) else Accepted
  }

  function ValidateEAN5(value: string): (v: Verdict)
    ensures v.Accepted? <==> |Digits(value)| == 5
    ensures v.Rejected? ==> v == Rejected(EAN5_MESSAGE, EAN5_EXAMPLE)
  {
    if |Digits(value)| != 5 then Rejected(EAN5_MESSAGE, EAN5_EXAMPLE) else Accepted
  }

  function ValidateEAN2(value: string): (v: Verdict)
    ensures v.Accepted? <==> |Digits(value)| == 2
    ensures v.Rejected? ==> v == Rejected(EAN2_MESSAGE, EAN2_EXAMPLE)
  {
    if |Digits(value)| != 2 then Rejected(EAN2_MESSAGE, EAN2_EXAMPLE) else Accepted
  }

  /** Counts digits and upper-case `X` only. */
  function ValidateISBN(value: string): (v: Verdict)
    ensures v.Accepted? <==> |KeepOnly(value, IsIsbnChar)| in {10, 13}
    ensures v.Rejected? ==> v == Rejected(ISBN_MESSAGE, ISBN_EXAMPLE)
  {
    var n := |KeepOnly(value, IsIsbnChar)|;
    if n != 10 && n != 13 then Rejected(ISBN_MESSAGE, ISBN_EXAMPLE) else Accepted
  }

  /** The parity test comes first, so zero digits get the second message. */
  function ValidateITF(value: string): (v: Verdict)
    ensures |Digits(value)| % 2 == 1 ==> v == Rejected(ITF_PARITY_MESSAGE, ITF_EXAMPLE)
    ensures |Digits(value)| == 0 ==> v == Rejected(ITF_MINIMUM_MESSAGE, ITF_EXAMPLE)
    ensures v.Accepted? <==> |Digits(value)| % 2 == 0 && |Digits(value)| >= 2
  {
    var n := |Digits(value)|;
    if n % 2 != 0 then Rejected(ITF_PARITY_MESSAGE, ITF_EXAMPLE)
    else if n < 2 then Rejected(ITF_MINIMUM_MESSAGE, ITF_EXAMPLE)
    else Accepted
  }

  function ValidateITF14(value: string): (v: Verdict)
    ensures v.Accepted? <==> |Digits(value)| == 14
    ensures v.Rejected? ==> v == Rejected(ITF14_MESSAGE, ITF14_EXAMPLE)
  {
    if |Digits(value)| != 14 then Rejected(ITF14_MESSAGE, ITF14_EXAMPLE) else Accepted
  }

  /** CODE93 reuses this validator. */
  function ValidateCODE39(value: string): (v: Verdict)
    ensures v.Accepted? <==> |value| > 0 && forall i :: 0 <= i < |value| ==> IsCode39Char(value[i])
    ensures v.Rejected? ==> v == Rejected(CODE39_MESSAGE, CODE39_EXAMPLE)
  {
    var valid := MatchesPlus(value, IsCode39Char);
    if !valid || |value| == 0 then Rejected(CODE39_MESSAGE, CODE39_EXAMPLE)
    else Accepted
  }

  function ValidateCODE128(value: string): (v: Verdict)
    ensures v.Accepted? <==> |value| > 0
    ensures v.Rejected? ==> v == Rejected(CODE128_MESSAGE, CODE128_EXAMPLE)
  {
    if |value| == 0 then Rejected(CODE128_MESSAGE, CODE128_EXAMPLE) else Accepted
  }

  function ValidateCODE128A(value: string): (v: Verdict)
    ensures v.Accepted? <==> |value| > 0 && forall i :: 0 <= i < |value| ==> IsCode128AChar(value[i])
    ensures v.Rejected? ==> v == Rejected(CODE128A_MESSAGE, CODE128A_EXAMPLE)
  {
    var valid := MatchesPlus(value, IsCode128AChar);
    if !valid || |value| == 0 then Rejected(CODE128A_MESSAGE, CODE128A_EXAMPLE)
    else Accepted
  }

  /** Shares CODE128's message. */
  function ValidateCODE128B(value: string): (v: Verdict)
    ensures v.Accepted? <==> |value| > 0
    ensures v.Rejected? ==> v == Rejected(CODE128_MESSAGE, CODE128B_EXAMPLE)
  {
    if |value| == 0 then Rejected(CODE128_MESSAGE, CODE128B_EXAMPLE) else Accepted
  }

  function ValidateCODE128C(value: string): (v: Verdict)
    ensures v.Accepted? <==> |Digits(value)| > 0 && |Digits(value)| % 2 == 0
    ensures v.Rejected? ==> v == Rejected(CODE128C_MESSAGE, CODE128C_EXAMPLE)
  {
    var n := |Digits(value)|;
    if n == 0 || n % 2 != 0 then Rejected(CODE128C_MESSAGE, CODE128C_EXAMPLE)
    else Accepted
  }

  /** Accepts any value holding a digit, whatever else it holds. */
  function ValidateMSI(value: string): (v: Verdict)
    ensures v.Accepted? <==> |Digits(value)| > 0
    ensures v.Rejected? ==> v == Rejected(MSI_MESSAGE, MSI_EXAMPLE)
  {
    if |Digits(value)| == 0 then Rejected(MSI_MESSAGE, MSI_EXAMPLE) else Accepted
  }

  /** The length test guards `parseInt`: the value is read only from 1 to 6 digits. */
  function ValidatePharmacode(value: string): (v: Verdict)
    ensures v.Rejected? ==> v.suggestion == PHARMACODE_EXAMPLE
    ensures |Digits(value)| == 0 || |Digits(value)| > 6 ==> v == Rejected(PHARMACODE_LENGTH_MESSAGE, PHARMACODE_EXAMPLE)
  {
    var cleaned := Digits(value);
    if |cleaned| == 0 || |cleaned| > 6 then Rejected(PHARMACODE_LENGTH_MESSAGE, PHARMACODE_EXAMPLE)
    else
      var num := DecimalValue(cleaned);
      if num < PHARMACODE_MIN || num > PHARMACODE_MAX then Rejected(PHARMACODE_RANGE_MESSAGE, PHARMACODE_EXAMPLE)
      else Accepted
  }

  /** `/^[A-D][0-9\-$:/.+]+[A-D]$/i.test(value)` */
  function MatchesCodabar(value: string): (r: bool)
    ensures r <==>
      && |value| >= 3
      && IsCodabarGuard(value[0])
      && IsCodabarGuard(value[|value| - 1])
      && forall i :: 1 <= i < |value| - 1 ==> IsCodabarData(value[i])
  {
    && |value| >= 3
    && IsCodabarGuard(value[0])
    && MatchesPlus(value[1..|value| - 1], IsCodabarData)
    && IsCodabarGuard(value[|value| - 1])
  }

  function ValidateCodabar(value: string): (v: Verdict)
    ensures v.Accepted? <==> MatchesCodabar(value)
    ensures v.Rejected? ==> v == Rejected(CODABAR_MESSAGE, CODABAR_EXAMPLE)
  {
    if !MatchesCodabar(value) then Rejected(CODABAR_MESSAGE, CODABAR_EXAMPLE)
    else Accepted
  }

  /** Counts characters of any kind. */
  function ValidateGS1_128(value: string): (v: Verdict)
    ensures v.Accepted? <==> |value| >= 2
    ensures v.Rejected? ==> v == Rejected(GS1_128_MESSAGE, GS1_128_EXAMPLE)
  {
    if |value| < 2 then Rejected(GS1_128_MESSAGE, GS1_128_EXAMPLE) else Accepted
  }

  /** The example each rule suggests with its rejections. */
  function RuleSuggestion(rule: Rule): (s: string) {
    match rule
    case UpcA => UPC_A_EXAMPLE
    case UpcE => UPC_E_EXAMPLE
    case Ean13 => EAN13_EXAMPLE
    case Ean8 => EAN8_EXAMPLE
    case Ean5 => EAN5_EXAMPLE
    case Ean2 => EAN2_EXAMPLE
    case Isbn => ISBN_EXAMPLE
    case Itf => ITF_EXAMPLE
    case Itf14 => ITF14_EXAMPLE
    case Code39 => CODE39_EXAMPLE
    case Code128 => CODE128_EXAMPLE
    case Code128A => CODE128A_EXAMPLE
    case Code128B => CODE128B_EXAMPLE
    case Code128C => CODE128C_EXAMPLE
    case Msi => MSI_EXAMPLE
    case Pharmacode => PHARMACODE_EXAMPLE
    case Codabar => CODABAR_EXAMPLE
    case Gs1_128 => GS1_128_EXAMPLE
  }

  /** Calls the validator a rule names; every rejection carries that rule's one suggestion. */
  function Apply(rule: Rule, value: string): (v: Verdict)
    ensures v.Rejected? ==> v.suggestion == RuleSuggestion(rule)
  {
    match rule
    case UpcA => ValidateUPCA(value)
    case UpcE => ValidateUPCE(value)
    case Ean13 => ValidateEAN13(value)
    case Ean8 => ValidateEAN8(value)
    case Ean5 => ValidateEAN5(value)
    case Ean2 => ValidateEAN2(value)
    case Isbn => ValidateISBN(value)
    case Itf => ValidateITF(value)
    case Itf14 => ValidateITF14(value)
    case Code39 => ValidateCODE39(value)
    case Code128 => ValidateCODE128(value)
    case Code128A => ValidateCODE128A(value)
    case Code128B => ValidateCODE128B(value)
    case Code128C => ValidateCODE128C(value)
    case Msi => ValidateMSI(value)
    case Pharmacode => ValidatePharmacode(value)
    case Codabar => ValidateCodabar(value)
    case Gs1_128 => ValidateGS1_128(value)
  }

  /** `BARCODE_VALIDATORS`: format id to validator. */
  const BarcodeValidatorTable: map<string, Rule> := map[
    "UPC" := UpcA, "UPC-A" := UpcA, "UPCA" := UpcA,
    "UPC-E" := UpcE, "UPCE" := UpcE,
    "EAN13" := Ean13, "EAN-13" := Ean13,
    "EAN8" := Ean8, "EAN-8" := Ean8,
    "EAN5" := Ean5, "EAN-5" := Ean5,
    "EAN2" := Ean2, "EAN-2" := Ean2,
    "ISBN" := Isbn,
    "ITF" := Itf,
    "ITF14" := Itf14, "ITF-14" := Itf14,
    "CODE39" := Code39, "CODE93" := Code39,
    "CODE128" := Code128, "CODE128A" := Code128A, "CODE128B" := Code128B, "CODE128C" := Code128C,
    "MSI" := Msi, "MSI10" := Msi, "MSI11" := Msi, "MSI1010" := Msi, "MSI1110" := Msi,
    "pharmacode" := Pharmacode,
    "codabar" := Codabar,
    "GS1-128" := Gs1_128
  ]

  /** `!value || value.trim().length === 0`, with `None` for `null` and `undefined`. */
  predicate IsBlank(value: Option<string>) {
    value.None? || |value.value| == 0 || |Trim(value.value)| == 0
  }

  /**
   * `validateBarcodeValue(format, value)`: blank values are rejected before any
   * rule is looked up; a format with no validator accepts everything else.
   */
  function ValidateBarcodeValue(format: string, value: Option<string>): (v: Verdict)
    ensures value.None? || AllWhitespace(value.value) ==> v == Rejected(EMPTY_VALUE_MESSAGE, "")
    ensures value.Some? && !AllWhitespace(value.value) ==>
      v == if format in BarcodeValidatorTable then Apply(BarcodeValidatorTable[format], value.value) else Accepted
  {
    if IsBlank(value) then Rejected(EMPTY_VALUE_MESSAGE, "")
    else if format in BarcodeValidatorTable then Apply(BarcodeValidatorTable[format], value.value)
    else Accepted
  }

  /** A non-blank value goes to its format's rule, when there is one. */
  lemma KnownFormatDelegates(format: string, value: string)
    requires format in BarcodeValidatorTable && !AllWhitespace(value)
    ensures ValidateBarcodeValue(format, Some(value)) == Apply(BarcodeValidatorTable[format], value)
  {
  }

  /** The id `"UPC"` is registered with the UPC-A rule. */
  lemma UpcIsUpcA()
    ensures "UPC" in BarcodeValidatorTable && BarcodeValidatorTable["UPC"] == UpcA
  {
  }

  /**
   * CODE128 and CODE128B accept every value that reaches them: through the
   * dispatcher a value is accepted iff it is not blank, so the rules' own
   * empty-value rejection is never returned.
   */
  lemma Code128FamilyAcceptsNonBlank(format: string, value: string)
    requires format == "CODE128" || format == "CODE128B"
    ensures ValidateBarcodeValue(format, Some(value)).Accepted? <==> !IsBlank(Some(value))
    ensures ValidateBarcodeValue(format, Some(value)).Rejected? ==>
      ValidateBarcodeValue(format, Some(value)) == Rejected(EMPTY_VALUE_MESSAGE, "")
  {
    assert format in BarcodeValidatorTable;
    assert BarcodeValidatorTable[format] == Code128 || BarcodeValidatorTable[format] == Code128B;
  }

  /** Through the dispatcher, a counting rule accepts any value whose digit count it admits. */
  lemma DigitCountFormatAccepts(format: string, value: string)
    requires format in BarcodeValidatorTable
    requires ReadsDigitsOnly(BarcodeValidatorTable[format]) && BarcodeValidatorTable[format] != Pharmacode
    requires AdmitsDigitCount(BarcodeValidatorTable[format], |Digits(value)|)
    ensures ValidateBarcodeValue(format, Some(value)) == Accepted
  {
    DigitsExcludeBlank(value);
    DigitCountDecides(BarcodeValidatorTable[format], value);
    KnownFormatDelegates(format, value);
  }

  /** The same for a value made of digits only, whose digit count is its length. */
  lemma DigitFormatAccepts(format: string, value: string)
    requires format in BarcodeValidatorTable
    requires ReadsDigitsOnly(BarcodeValidatorTable[format]) && BarcodeValidatorTable[format] != Pharmacode
    requires |value| > 0 && AllIn(value, IsAsciiDigit)
    requires AdmitsDigitCount(BarcodeValidatorTable[format], |value|)
    ensures ValidateBarcodeValue(format, Some(value)) == Accepted
  {
    KeepOnlyIdentity(value, IsAsciiDigit);
    DigitCountFormatAccepts(format, value);
  }

  /** The object literal inside `getBarcodeExample`. */
  const ExampleTable: map<string, string> := map[
    "UPC" := UPC_A_EXAMPLE, "UPC-A" := UPC_A_EXAMPLE, "UPCA" := UPC_A_EXAMPLE,
    "UPC-E" := UPC_E_EXAMPLE, "UPCE" := UPC_E_EXAMPLE,
    "EAN13" := EAN13_EXAMPLE, "EAN-13" := EAN13_EXAMPLE,
    "EAN8" := EAN8_EXAMPLE, "EAN-8" := EAN8_EXAMPLE,
    "EAN5" := EAN5_EXAMPLE, "EAN-5" := EAN5_EXAMPLE,
    "EAN2" := EAN2_EXAMPLE, "EAN-2" := EAN2_EXAMPLE,
    "ISBN" := ISBN_EXAMPLE,
    "ITF" := ITF_EXAMPLE,
    "ITF14" := ITF14_EXAMPLE, "ITF-14" := ITF14_EXAMPLE,
    "CODE39" := CODE39_EXAMPLE, "CODE93" := CODE39_EXAMPLE,
    "CODE128" := CODE128_EXAMPLE, "CODE128A" := CODE128A_EXAMPLE, "CODE128B" := CODE128B_EXAMPLE,
    "CODE128C" := CODE128C_EXAMPLE,
    "MSI" := MSI_EXAMPLE, "MSI10" := MSI_EXAMPLE, "MSI11" := MSI_EXAMPLE, "MSI1010" := MSI_EXAMPLE,
    "MSI1110" := MSI_EXAMPLE,
    "pharmacode" := PHARMACODE_EXAMPLE,
    "codabar" := CODABAR_EXAMPLE,
    "GS1-128" := GS1_128_EXAMPLE
  ]

  const GENERIC_EXAMPLE := "123456789"

  /** `getBarcodeExample(format)`: `examples[format] || "123456789"`. */
  function GetBarcodeExample(format: string): (e: string)
    ensures format !in ExampleTable ==> e == GENERIC_EXAMPLE
    ensures e != ""
  {
    if format in ExampleTable && ExampleTable[format] != "" then ExampleTable[format] else GENERIC_EXAMPLE
  }

  // ---------------------------------------------------------------------
  // Properties of the rules

  /** The rules that look only at the ASCII digits of the value. */
  predicate ReadsDigitsOnly(rule: Rule) {
    rule in {UpcA, UpcE, Ean13, Ean8, Ean5, Ean2, Itf, Itf14, Code128C, Msi, Pharmacode}
  }

  /** The digit counts each counting rule admits, family by family. */
  predicate AdmitsDigitCount(rule: Rule, n: nat) {
    match rule
    case UpcA => n == 12
    case UpcE => 6 <= n <= 8
    case Ean13 => n == 13
    case Ean8 => n == 8
    case Ean5 => n == 5
    case Ean2 => n == 2
    case Itf14 => n == 14
    case Itf => n % 2 == 0 && n >= 2
    case Code128C => n % 2 == 0 && n > 0
    case Msi => n >= 1
    case _ => false
  }

  /** Each counting rule accepts exactly the values whose digit count it admits. */
  lemma DigitCountDecides(rule: Rule, value: string)
    requires ReadsDigitsOnly(rule) && rule != Pharmacode
    ensures Apply(rule, value).Accepted? <==> AdmitsDigitCount(rule, |Digits(value)|)
  {
  }

  /** On a string of digits only, a counting rule's verdict depends on its length alone. */
  lemma DigitStringVerdict(rule: Rule, value: string)
    requires ReadsDigitsOnly(rule) && rule != Pharmacode && AllIn(value, IsAsciiDigit)
    ensures Apply(rule, value).Accepted? <==> AdmitsDigitCount(rule, |value|)
  {
    KeepOnlyIdentity(value, IsAsciiDigit);
    DigitCountDecides(rule, value);
  }

  /** A string of digits whose length a counting rule admits is accepted by that rule. */
  lemma DigitStringAccepted(rule: Rule, value: string)
    requires ReadsDigitsOnly(rule) && rule != Pharmacode && AllIn(value, IsAsciiDigit)
    requires AdmitsDigitCount(rule, |value|)
    ensures Apply(rule, value) == Accepted
  {
    DigitStringVerdict(rule, value);
  }

  /** The digit-reading rules give the same verdict whatever non-digits are inserted, anywhere. */
  lemma DigitRulesIgnoreSeparators(rule: Rule, a: string, separator: string, b: string)
    requires ReadsDigitsOnly(rule)
    requires forall i :: 0 <= i < |separator| ==> !IsAsciiDigit(separator[i])
    ensures Apply(rule, a + separator + b) == Apply(rule, a + b)
  {
    KeepOnlyIgnoresInsertion(a, separator, b, IsAsciiDigit);
  }

  /** ISBN counts digits and `X`; any other character may be inserted without changing its verdict. */
  lemma IsbnIgnoresOtherCharacters(a: string, separator: string, b: string)
    requires forall i :: 0 <= i < |separator| ==> !IsAsciiDigit(separator[i]) && separator[i] != 'X'
    ensures ValidateISBN(a + separator + b) == ValidateISBN(a + b)
  {
    KeepOnlyIgnoresInsertion(a, separator, b, IsIsbnChar);
  }

  /** ISBN accepts iff the count of digits and upper-case `X` is 10 or 13. */
  lemma IsbnCountDecides(value: string)
    ensures ValidateISBN(value).Accepted? <==> |KeepOnly(value, IsIsbnChar)| in {10, 13}
  {
  }

  /** Digit strings joined by a non-digit separator keep all their digits and no more. */
  lemma SeparatedDigitCount(a: string, separator: string, b: string)
    requires AllIn(a, IsAsciiDigit) && AllIn(b, IsAsciiDigit)
    requires forall i :: 0 <= i < |separator| ==> !IsAsciiDigit(separator[i])
    ensures |Digits(a + separator + b)| == |a| + |b|
  {
    KeepOnlyIgnoresInsertion(a, separator, b, IsAsciiDigit);
    KeepOnlyConcat(a, b, IsAsciiDigit);
    KeepOnlyIdentity(a, IsAsciiDigit);
    KeepOnlyIdentity(b, IsAsciiDigit);
  }

  /** EAN-13 reads `"590-1234123457"` as the 13 digits of `"5901234123457"` and accepts it. */
  lemma Ean13IgnoresHyphen(value: string)
    requires value == "590-1234123457"
    ensures ValidateBarcodeValue("EAN13", Some(value)) == Accepted
  {
    var a, separator, b := "590", "-", "1234123457";
    assert a + separator + b == value;
    SeparatedDigitCount(a, separator, b);
    DigitCountFormatAccepts("EAN13", value);
  }

  /** Twelve digits are one too few for EAN-13. */
  lemma Ean13RejectsTwelveDigits(value: string)
    requires value == "590123412345"
    ensures ValidateEAN13(value).Rejected?
  {
    assert AllIn(value, IsAsciiDigit);
    KeepOnlyIdentity(value, IsAsciiDigit);
  }

  /** ITF: odd digit counts get the parity message, zero digits the minimum message, the rest pass. */
  lemma ItfVerdicts(value: string)
    ensures |Digits(value)| % 2 == 1 ==> ValidateITF(value) == Rejected(ITF_PARITY_MESSAGE, ITF_EXAMPLE)
    ensures |Digits(value)| == 0 ==> ValidateITF(value) == Rejected(ITF_MINIMUM_MESSAGE, ITF_EXAMPLE)
    ensures ValidateITF(value).Accepted? <==> |Digits(value)| % 2 == 0 && |Digits(value)| >= 2
  {
  }

  /** `"abc"` has no digits, so ITF gives it the minimum message, not the parity one. */
  lemma ItfRejectsNoDigits(value: string)
    requires value == "abc"
    ensures ValidateITF(value) == Rejected(ITF_MINIMUM_MESSAGE, ITF_EXAMPLE)
  {
    KeepOnlyNone(value, IsAsciiDigit);
  }

  /** Three digits are an odd count, so ITF gives the parity message. */
  lemma ItfRejectsOddCount(value: string)
    requires value == "123"
    ensures ValidateITF(value) == Rejected(ITF_PARITY_MESSAGE, ITF_EXAMPLE)
  {
    assert AllIn(value, IsAsciiDigit);
    KeepOnlyIdentity(value, IsAsciiDigit);
  }

  /** Pharmacode accepts iff there are 1 to 6 digits and their decimal value is in [3, 131070]. */
  lemma PharmacodeDecides(value: string)
    ensures var d := Digits(value);
      ValidatePharmacode(value).Accepted? <==>
        1 <= |d| <= 6 && PHARMACODE_MIN <= DecimalValue(d) <= PHARMACODE_MAX
    ensures var d := Digits(value);
      |d| == 0 || |d| > 6 ==> ValidatePharmacode(value) == Rejected(PHARMACODE_LENGTH_MESSAGE, PHARMACODE_EXAMPLE)
    ensures var d := Digits(value);
      1 <= |d| <= 6 && !(PHARMACODE_MIN <= DecimalValue(d) <= PHARMACODE_MAX) ==>
        ValidatePharmacode(value) == Rejected(PHARMACODE_RANGE_MESSAGE, PHARMACODE_EXAMPLE)
  {
  }

  /** Leading zeros do not lift a value into range: `"000002"` is the number 2. */
  lemma PharmacodeLeadingZeros(value: string)
    requires value == "000002"
    ensures ValidatePharmacode(value) == Rejected(PHARMACODE_RANGE_MESSAGE, PHARMACODE_EXAMPLE)
  {
    var zeros, two := "00000", "2";
    assert zeros + two == value;
    DecimalValueLeadingZeros(zeros, two);
    PharmacodeOnDigits(value);
  }

  /** On 1 to 6 digits, Pharmacode decides on the decimal value alone. */
  lemma PharmacodeOnDigits(value: string)
    requires AllIn(value, IsAsciiDigit) && 1 <= |value| <= 6
    ensures ValidatePharmacode(value) ==
      if PHARMACODE_MIN <= DecimalValue(value) <= PHARMACODE_MAX then Accepted
      else Rejected(PHARMACODE_RANGE_MESSAGE, PHARMACODE_EXAMPLE)
  {
    KeepOnlyIdentity(value, IsAsciiDigit);
  }

  /** Seven digits are refused on length before their value is read. */
  lemma PharmacodeTooLong(value: string)
    requires value == "9999999"
    ensures ValidatePharmacode(value) == Rejected(PHARMACODE_LENGTH_MESSAGE, PHARMACODE_EXAMPLE)
  {
    assert AllIn(value, IsAsciiDigit);
    KeepOnlyIdentity(value, IsAsciiDigit);
  }

  /** A lower-case letter anywhere makes CODE39 (and so CODE93) reject the value. */
  lemma Code39RejectsLowerCase(value: string, i: nat)
    requires i < |value| && 'a' <= value[i] <= 'z'
    ensures ValidateCODE39(value).Rejected?
    ensures ValidateBarcodeValue("CODE93", Some(value)).Rejected?
  {
    assert !IsCode39Char(value[i]);
    assert !IsJsWhitespace(value[i]);
  }

  /** The Codabar start and stop letters are matched in either case. */
  lemma CodabarLowerCaseGuards(value: string)
    requires value == "a1234567890b"
    ensures ValidateCodabar(value) == Accepted
  {
  }

  /** Leaving out the start and stop letters is rejected. */
  lemma CodabarNeedsGuards(value: string)
    requires value == "1234567890"
    ensures ValidateCodabar(value).Rejected?
  {
  }

  /** GS1-128 counts characters of every kind. */
  lemma Gs1LengthDecides(value: string)
    ensures ValidateGS1_128(value).Accepted? <==> |value| >= 2
  {
  }

  // ---------------------------------------------------------------------
  // Agreement of the validators with the example provider

  /** Every rule accepts its own suggestion. */
  lemma RuleAcceptsSuggestion(rule: Rule)
    ensures Apply(rule, RuleSuggestion(rule)) == Accepted
  {
    match rule
    case UpcA => UpcAAcceptsExample(UPC_A_EXAMPLE);
    case UpcE => UpcEAcceptsExample(UPC_E_EXAMPLE);
    case Ean13 => Ean13AcceptsExample(EAN13_EXAMPLE);
    case Ean8 => Ean8AcceptsExample(EAN8_EXAMPLE);
    case Ean5 => Ean5AcceptsExample(EAN5_EXAMPLE);
    case Ean2 => Ean2AcceptsExample(EAN2_EXAMPLE);
    case Isbn => IsbnAcceptsExample(ISBN_EXAMPLE);
    case Itf => ItfAcceptsExample(ITF_EXAMPLE);
    case Itf14 => Itf14AcceptsExample(ITF14_EXAMPLE);
    case Code39 => Code39AcceptsExample(CODE39_EXAMPLE);
    case Code128 => Code128AcceptsExample(CODE128_EXAMPLE);
    case Code128A => Code128AAcceptsExample(CODE128A_EXAMPLE);
    case Code128B => Code128BAcceptsExample(CODE128B_EXAMPLE);
    case Code128C => Code128CAcceptsExample(CODE128C_EXAMPLE);
    case Msi => MsiAcceptsExample(MSI_EXAMPLE);
    case Pharmacode => PharmacodeAcceptsExample(PHARMACODE_EXAMPLE);
    case Codabar => CodabarAcceptsExample(CODABAR_EXAMPLE);
    case Gs1_128 => Gs1_128AcceptsExample(GS1_128_EXAMPLE);
  }

  lemma UpcAAcceptsExample(value: string)
    requires value == UPC_A_EXAMPLE
    ensures ValidateUPCA(value) == Accepted
  {
    DigitStringAccepted(UpcA, value);
  }

  lemma UpcEAcceptsExample(value: string)
    requires value == UPC_E_EXAMPLE
    ensures ValidateUPCE(value) == Accepted
  {
    DigitStringAccepted(UpcE, value);
  }

  lemma Ean13AcceptsExample(value: string)
    requires value == EAN13_EXAMPLE
    ensures ValidateEAN13(value) == Accepted
  {
    DigitStringAccepted(Ean13, value);
  }

  lemma Ean8AcceptsExample(value: string)
    requires value == EAN8_EXAMPLE
    ensures ValidateEAN8(value) == Accepted
  {
    DigitStringAccepted(Ean8, value);
  }

  lemma Ean5AcceptsExample(value: string)
    requires value == EAN5_EXAMPLE
    ensures ValidateEAN5(value) == Accepted
  {
    DigitStringAccepted(Ean5, value);
  }

  lemma Ean2AcceptsExample(value: string)
    requires value == EAN2_EXAMPLE
    ensures ValidateEAN2(value) == Accepted
  {
    DigitStringAccepted(Ean2, value);
  }

  lemma IsbnAcceptsExample(value: string)
    requires value == ISBN_EXAMPLE
    ensures ValidateISBN(value) == Accepted
  {
    assert AllIn(value, IsIsbnChar);
    KeepOnlyIdentity(value, IsIsbnChar);
  }

  lemma ItfAcceptsExample(value: string)
    requires value == ITF_EXAMPLE
    ensures ValidateITF(value) == Accepted
  {
    DigitStringAccepted(Itf, value);
  }

  lemma Itf14AcceptsExample(value: string)
    requires value == ITF14_EXAMPLE
    ensures ValidateITF14(value) == Accepted
  {
    DigitStringAccepted(Itf14, value);
  }

  lemma Code39AcceptsExample(value: string)
    requires value == CODE39_EXAMPLE
    ensures ValidateCODE39(value) == Accepted
  {
    assert AllIn(value, IsCode39Char);
  }

  lemma Code128AcceptsExample(value: string)
    requires value == CODE128_EXAMPLE
    ensures ValidateCODE128(value) == Accepted
  {
  }

  lemma Code128AAcceptsExample(value: string)
    requires value == CODE128A_EXAMPLE
    ensures ValidateCODE128A(value) == Accepted
  {
    assert AllIn(value, IsCode128AChar);
  }

  lemma Code128BAcceptsExample(value: string)
    requires value == CODE128B_EXAMPLE
    ensures ValidateCODE128B(value) == Accepted
  {
  }

  lemma Code128CAcceptsExample(value: string)
    requires value == CODE128C_EXAMPLE
    ensures ValidateCODE128C(value) == Accepted
  {
    DigitStringAccepted(Code128C, value);
  }

  lemma MsiAcceptsExample(value: string)
    requires value == MSI_EXAMPLE
    ensures ValidateMSI(value) == Accepted
  {
    DigitStringAccepted(Msi, value);
  }

  lemma PharmacodeAcceptsExample(value: string)
    requires value == PHARMACODE_EXAMPLE
    ensures ValidatePharmacode(value) == Accepted
  {
    assert AllIn(value, IsAsciiDigit);
    KeepOnlyIdentity(value, IsAsciiDigit);
  }

  lemma CodabarAcceptsExample(value: string)
    requires value == CODABAR_EXAMPLE
    ensures ValidateCodabar(value) == Accepted
  {
  }

  lemma Gs1_128AcceptsExample(value: string)
    requires value == GS1_128_EXAMPLE
    ensures ValidateGS1_128(value) == Accepted
  {
  }

  /** The two tables have the same keys, and each key's example is its rule's suggestion. */
  lemma ExampleTableMatchesValidators(format: string)
    ensures format in ExampleTable <==> format in BarcodeValidatorTable
    ensures format in BarcodeValidatorTable ==> GetBarcodeExample(format) == RuleSuggestion(BarcodeValidatorTable[format])
  {
  }

  /** `validateBarcodeValue(k, getBarcodeExample(k))` is valid for every id, known or not. */
  lemma ExampleValidates(format: string)
    ensures ValidateBarcodeValue(format, Some(GetBarcodeExample(format))) == Accepted
  {
    var e := GetBarcodeExample(format);
    ExampleTableMatchesValidators(format);
    assert e[0] != ' ' && !IsJsWhitespace(e[0]);
    if format in BarcodeValidatorTable {
      RuleAcceptsSuggestion(BarcodeValidatorTable[format]);
    }
  }

  /**
   * On a non-blank value, a known format's rejection suggests exactly that
   * format's example, and the suggestion itself validates.
   */
  lemma SuggestionIsExample(format: string, value: string)
    requires format in BarcodeValidatorTable && !AllWhitespace(value)
    ensures var v := ValidateBarcodeValue(format, Some(value));
      v.Rejected? ==>
        && v.suggestion == GetBarcodeExample(format)
        && ValidateBarcodeValue(format, Some(v.suggestion)) == Accepted
  {
    ExampleTableMatchesValidators(format);
    ExampleValidates(format);
  }

}
