/**
 * The constant tables of the format registry: the format ids, the
 * categories shown in the format drop-downs, the renderer defaults and the
 * example value per format.
 */
module BarcodeTypes {
  import opened Wrappers
  import opened JsStrings
  import opened BarcodeValidators

  /** The keys of `BARCODE_FORMATS`, in declaration order. */
  datatype FormatName =
    | CODE39 | CODE93 | CODE128 | CODE128A | CODE128B | CODE128C
    | GS1_128
    | ITF | ITF14
    | EAN13 | EAN8 | EAN5 | EAN2
    | UPCA | UPCE
    | ISBN | MSI | MSI10 | MSI11 | MSI1010 | MSI1110 | PHARMACODE | CODABAR

  /** `BARCODE_FORMATS[name]`: the id handed to the renderer and to the validators. */
  function FormatValue(name: FormatName): string {
    match name
    case CODE39 => "CODE39"
    case CODE93 => "CODE93"
    case CODE128 => "CODE128"
    case CODE128A => "CODE128A"
    case CODE128B => "CODE128B"
    case CODE128C => "CODE128C"
    case GS1_128 => "GS1-128"
    case ITF => "ITF"
    case ITF14 => "ITF14"
    case EAN13 => "EAN13"
    case EAN8 => "EAN8"
    case EAN5 => "EAN5"
    case EAN2 => "EAN2"
    case UPCA => "UPC"
    case UPCE => "UPC"
    case ISBN => "EAN13"
    case MSI => "MSI"
    case MSI10 => "MSI10"
    case MSI11 => "MSI11"
    case MSI1010 => "MSI1010"
    case MSI1110 => "MSI1110"
    case PHARMACODE => "pharmacode"
    case CODABAR => "codabar"
  }

  /** The name a format id is first declared under, if any. */
  function FormatNamed(value: string): (n: Option<FormatName>)
    ensures n.Some? ==> FormatValue(n.value) == value
  {
    if value == "CODE39" then Some(CODE39)
    else if value == "CODE93" then Some(CODE93)
    else if value == "CODE128" then Some(CODE128)
    else if value == "CODE128A" then Some(CODE128A)
    else if value == "CODE128B" then Some(CODE128B)
    else if value == "CODE128C" then Some(CODE128C)
    else if value == "GS1-128" then Some(GS1_128)
    else if value == "ITF" then Some(ITF)
    else if value == "ITF14" then Some(ITF14)
    else if value == "EAN13" then Some(EAN13)
    else if value == "EAN8" then Some(EAN8)
    else if value == "EAN5" then Some(EAN5)
    else if value == "EAN2" then Some(EAN2)
    else if value == "UPC" then Some(UPCA)
    else if value == "MSI" then Some(MSI)
    else if value == "MSI10" then Some(MSI10)
    else if value == "MSI11" then Some(MSI11)
    else if value == "MSI1010" then Some(MSI1010)
    else if value == "MSI1110" then Some(MSI1110)
    else if value == "pharmacode" then Some(PHARMACODE)
    else if value == "codabar" then Some(CODABAR)
    else None
  }

  /** UPC-E is declared with UPC-A's id and ISBN with EAN-13's; every other name has its own. */
  function Canonical(name: FormatName): FormatName {
    match name
    case UPCE => UPCA
    case ISBN => EAN13
    case _ => name
  }

  lemma FormatNamedInverts(name: FormatName)
    ensures FormatNamed(FormatValue(name)) == Some(Canonical(name))
  {
  }

  /** The validators know every declared format id. */
  lemma FormatsAreValidated(name: FormatName)
    ensures FormatValue(name) in BarcodeValidatorTable
  {
  }

  /**
   * Two names share an id exactly when they are the same name, or UPC-A and
   * UPC-E, or EAN-13 and ISBN.
   */
  lemma FormatValueCollisions(a: FormatName, b: FormatName)
    ensures FormatValue(a) == FormatValue(b) <==> Canonical(a) == Canonical(b)
    ensures FormatValue(a) == FormatValue(b) <==>
      a == b || {a, b} == {UPCA, UPCE} || {a, b} == {EAN13, ISBN}
  {
    FormatNamedInverts(a);
    FormatNamedInverts(b);
  }

  /** One entry of a category's drop-down; `caption` is the option's `label`, a reserved word in Dafny. */
  datatype FormatOption = FormatOption(value: string, caption: string)

  datatype Category = Category(name: string, formats: seq<FormatOption>)

  /**
   * `BARCODE_CATEGORIES`. Each option's value is written out as the id
   * `BARCODE_FORMATS` gives its format; `EveryFormatListed` and
   * `OptionsAreFormats` tie the two tables together.
   */
  const BarcodeCategories: seq<Category> := [
    Category("Code Family", [
      FormatOption("CODE39", "Code 39"),
      FormatOption("CODE93", "Code 93"),
      FormatOption("CODE128", "Code 128 (Auto)"),
      FormatOption("CODE128A", "Code 128 A"),
      FormatOption("CODE128B", "Code 128 B"),
      FormatOption("CODE128C", "Code 128 C")]),
    Category("GS1 & ITF", [
      FormatOption("GS1-128", "GS1-128"),
      FormatOption("ITF", "Interleaved 2 of 5 (ITF)"),
      FormatOption("ITF14", "ITF-14")]),
    Category("EAN & ISBN", [
      FormatOption("EAN13", "EAN-13"),
      FormatOption("EAN8", "EAN-8"),
      FormatOption("EAN5", "EAN-5"),
      FormatOption("EAN2", "EAN-2"),
      FormatOption("EAN13", "ISBN")]),
    Category("UPC", [
      FormatOption("UPC", "UPC-A"),
      FormatOption("UPC", "UPC-E")]),
    Category("Outros", [
      FormatOption("MSI", "MSI"),
      FormatOption("MSI10", "MSI10"),
      FormatOption("MSI11", "MSI11"),
      FormatOption("MSI1010", "MSI1010"),
      FormatOption("MSI1110", "MSI1110"),
      FormatOption("pharmacode", "Pharmacode"),
      FormatOption("codabar", "Codabar")])
  ]

  /** Some option of the category carries this value. */
  predicate Lists(category: Category, value: string) {
    exists j :: 0 <= j < |category.formats| && category.formats[j].value == value
  }

  /** `BARCODE_DEFAULTS` */
  datatype RenderDefaults = RenderDefaults(
    width: nat, height: nat, displayValue: bool, fontSize: nat, margin: nat,
    background: string, lineColor: string)

  const BarcodeDefaults := RenderDefaults(2, 100, true, 20, 10, "#ffffff", "#000000")

  /**
   * `BARCODE_EXAMPLES`. The keys are computed from `BARCODE_FORMATS`, so the
   * UPC-A and UPC-E entries share the key `"UPC"` and the ISBN entry shares
   * `"EAN13"`; an object literal keeps the last value written to a key, as
   * each map update here does. The keys are written out as `FormatValue`
   * of the format named in the source, in source order.
   */
  const BarcodeExamples: map<string, string> :=
    map[]["CODE39"     := "EXAMPLE123"]
       ["CODE93"     := "EXAMPLE123"]
       ["CODE128"    := "Example 1234"]
       ["CODE128A"   := "EXAMPLE 123"]
       ["CODE128B"   := "Example123"]
       ["CODE128C"   := "12345678"]
       ["GS1-128"    := "00123456789012345675"]
       ["ITF"        := "1234567890"]
       ["ITF14"      := "12345678901231"]
       ["EAN13"      := "5901234123457"]
       ["EAN8"       := "96385074"]
       ["EAN5"       := "12345"]
       ["EAN2"       := "12"]
       ["EAN13"      := "9781234567897"]
       ["UPC"        := "123456789999"]
       ["UPC"        := "01234565"]
       ["MSI"        := "1234567890"]
       ["MSI10"      := "1234567890"]
       ["MSI11"      := "1234567890"]
       ["MSI1010"    := "1234567890"]
       ["MSI1110"    := "1234567890"]
       ["pharmacode" := "1234"]
       ["codabar"    := "A1234567890B"]

  // ---------------------------------------------------------------------
  // Properties of the tables

  /** Five categories in a fixed order, with 6, 3, 5, 2 and 7 options. */
  lemma CategoryLayout()
    ensures |BarcodeCategories| == 5
    ensures BarcodeCategories[0].name == "Code Family" && |BarcodeCategories[0].formats| == 6
    ensures BarcodeCategories[1].name == "GS1 & ITF" && |BarcodeCategories[1].formats| == 3
    ensures BarcodeCategories[2].name == "EAN & ISBN" && |BarcodeCategories[2].formats| == 5
    ensures BarcodeCategories[3].name == "UPC" && |BarcodeCategories[3].formats| == 2
    ensures BarcodeCategories[4].name == "Outros" && |BarcodeCategories[4].formats| == 7
  {
  }

  /** The UPC-A and UPC-E options offer the same value, and so do EAN-13 and ISBN. */
  lemma SharedOptionValues()
    ensures BarcodeCategories[3].formats[0].value == BarcodeCategories[3].formats[1].value == "UPC"
    ensures BarcodeCategories[2].formats[0].value == BarcodeCategories[2].formats[4].value == "EAN13"
  {
  }

  /** Every option a drop-down offers is the id of some declared format. */
  lemma OptionsAreFormats(i: nat, j: nat)
    requires i < |BarcodeCategories| && j < |BarcodeCategories[i].formats|
    ensures FormatNamed(BarcodeCategories[i].formats[j].value).Some?
  {
    OptionCategory(i, j);
  }

  /** Every declared format is offered by some category. */
  lemma EveryFormatListed(name: FormatName)
    ensures exists i :: 0 <= i < |BarcodeCategories| && Lists(BarcodeCategories[i], FormatValue(name))
  {
    var (i, j) :=
      match name
      case CODE39 => (0, 0) case CODE93 => (0, 1) case CODE128 => (0, 2)
      case CODE128A => (0, 3) case CODE128B => (0, 4) case CODE128C => (0, 5)
      case GS1_128 => (1, 0) case ITF => (1, 1) case ITF14 => (1, 2)
      case EAN13 => (2, 0) case EAN8 => (2, 1) case EAN5 => (2, 2) case EAN2 => (2, 3) case ISBN => (2, 4)
      case UPCA => (3, 0) case UPCE => (3, 1)
      case MSI => (4, 0) case MSI10 => (4, 1) case MSI11 => (4, 2) case MSI1010 => (4, 3)
      case MSI1110 => (4, 4) case PHARMACODE => (4, 5) case CODABAR => (4, 6);
    assert BarcodeCategories[i].formats[j].value == FormatValue(name);
  }

  /** The category each declared format belongs to, by position in `BarcodeCategories`. */
  function CategoryIndex(name: FormatName): nat {
    match name
    case CODE39 | CODE93 | CODE128 | CODE128A | CODE128B | CODE128C => 0
    case GS1_128 | ITF | ITF14 => 1
    case EAN13 | EAN8 | EAN5 | EAN2 | ISBN => 2
    case UPCA | UPCE => 3
    case MSI | MSI10 | MSI11 | MSI1010 | MSI1110 | PHARMACODE | CODABAR => 4
  }

  /** An option's value determines the category that offers it. */
  lemma OptionCategory(i: nat, j: nat)
    requires i < |BarcodeCategories| && j < |BarcodeCategories[i].formats|
    ensures FormatNamed(BarcodeCategories[i].formats[j].value).Some?
    ensures CategoryIndex(FormatNamed(BarcodeCategories[i].formats[j].value).value) == i
  {
    if i == 0 {
      OptionsOfCategory0(j);
    } else if i == 1 {
      OptionsOfCategory1(j);
    } else if i == 2 {
      OptionsOfCategory2(j);
    } else if i == 3 {
      OptionsOfCategory3(j);
    } else {
      OptionsOfCategory4(j);
    }
  }

  lemma OptionsOfCategory0(j: nat)
    requires j < |BarcodeCategories[0].formats|
    ensures FormatNamed(BarcodeCategories[0].formats[j].value).Some?
    ensures CategoryIndex(FormatNamed(BarcodeCategories[0].formats[j].value).value) == 0
  {
  }

  lemma OptionsOfCategory1(j: nat)
    requires j < |BarcodeCategories[1].formats|
    ensures FormatNamed(BarcodeCategories[1].formats[j].value).Some?
    ensures CategoryIndex(FormatNamed(BarcodeCategories[1].formats[j].value).value) == 1
  {
  }

  lemma OptionsOfCategory2(j: nat)
    requires j < |BarcodeCategories[2].formats|
    ensures FormatNamed(BarcodeCategories[2].formats[j].value).Some?
    ensures CategoryIndex(FormatNamed(BarcodeCategories[2].formats[j].value).value) == 2
  {
  }

  lemma OptionsOfCategory3(j: nat)
    requires j < |BarcodeCategories[3].formats|
    ensures FormatNamed(BarcodeCategories[3].formats[j].value).Some?
    ensures CategoryIndex(FormatNamed(BarcodeCategories[3].formats[j].value).value) == 3
  {
  }

  lemma OptionsOfCategory4(j: nat)
    requires j < |BarcodeCategories[4].formats|
    ensures FormatNamed(BarcodeCategories[4].formats[j].value).Some?
    ensures CategoryIndex(FormatNamed(BarcodeCategories[4].formats[j].value).value) == 4
  {
  }

  /** No value is offered by two different categories. */
  lemma CategoriesDisjoint(value: string, i: nat, k: nat)
    requires i < |BarcodeCategories| && k < |BarcodeCategories|
    requires Lists(BarcodeCategories[i], value) && Lists(BarcodeCategories[k], value)
    ensures i == k
  {
    var j :| 0 <= j < |BarcodeCategories[i].formats| && BarcodeCategories[i].formats[j].value == value;
    var l :| 0 <= l < |BarcodeCategories[k].formats| && BarcodeCategories[k].formats[l].value == value;
    OptionCategory(i, j);
    OptionCategory(k, l);
  }

  /** Every option a drop-down offers has a validator, so none reaches the accept-anything branch. */
  lemma OptionsAreValidated(i: nat, j: nat)
    requires i < |BarcodeCategories| && j < |BarcodeCategories[i].formats|
    ensures BarcodeCategories[i].formats[j].value in BarcodeValidatorTable
  {
  }

  /** Every option a drop-down offers has an example. */
  lemma OptionsHaveExamples(i: nat, j: nat)
    requires i < |BarcodeCategories| && j < |BarcodeCategories[i].formats|
    ensures BarcodeCategories[i].formats[j].value in BarcodeExamples
  {
  }

  /** Every declared format has an example under its id. */
  lemma EveryFormatHasExample(name: FormatName)
    ensures FormatValue(name) in BarcodeExamples
  {
  }

  /** The keys of the examples are exactly the declared ids. */
  lemma ExampleKeys(key: string)
    ensures key in BarcodeExamples <==> FormatNamed(key).Some?
  {
  }

  /** No example is the empty string, so every lookup of one is truthy. */
  lemma ExamplesNonEmpty(key: string)
    requires key in BarcodeExamples
    ensures BarcodeExamples[key] != ""
  {
  }

  /** For the shared keys the later entry wins: UPC-E's example and ISBN's. */
  lemma DuplicateKeysKeepLastEntry()
    ensures BarcodeExamples["UPC"] == "01234565"
    ensures BarcodeExamples["EAN13"] == "9781234567897"
  {
  }

  /**
   * The examples are described as valid values, but the one under `"UPC"` is
   * UPC-E's 8-digit example while `"UPC"` is validated by the 12-digit UPC-A
   * rule.
   */
  lemma UpcExampleIsRejected()
    ensures ValidateBarcodeValue("UPC", Some(BarcodeExamples["UPC"]))
      == Rejected(UPC_A_MESSAGE, UPC_A_EXAMPLE)
  {
    UpcExampleDigits(BarcodeExamples["UPC"]);
  }

  lemma UpcExampleDigits(value: string)
    requires value == "01234565"
    ensures ValidateBarcodeValue("UPC", Some(value)) == Rejected(UPC_A_MESSAGE, UPC_A_EXAMPLE)
  {
    UpcOnDigits(value);
  }

  lemma UpcOnDigits(value: string)
    requires |value| > 0 && AllIn(value, IsAsciiDigit)
    ensures ValidateBarcodeValue("UPC", Some(value)) ==
      if |value| == 12 then Accepted else Rejected(UPC_A_MESSAGE, UPC_A_EXAMPLE)
  {
    assert IsAsciiDigit(value[0]);
    KeepOnlyIdentity(value, IsAsciiDigit);
    UpcIsUpcA();
    KnownFormatDelegates("UPC", value);
    assert ValidateBarcodeValue("UPC", Some(value)) == ValidateUPCA(value);
  }

  /** Every other example passes its format's validator. */
  lemma ExamplesValidate(key: string)
    requires key in BarcodeExamples
    ensures ValidateBarcodeValue(key, Some(BarcodeExamples[key])) == Accepted <==> key != "UPC"
  {
    if key == "UPC" {
      UpcExampleIsRejected();
    } else if key == "EAN13" {
      Ean13AcceptsIsbnExample(BarcodeExamples[key]);
    } else {
      ExamplesMatchProvider(key);
      ExampleValidates(key);
    }
  }

  lemma Ean13AcceptsIsbnExample(value: string)
    requires value == ISBN_EXAMPLE
    ensures ValidateBarcodeValue("EAN13", Some(value)) == Accepted
  {
    DigitFormatAccepts("EAN13", value);
  }

  /** Away from the shared keys, the registry's examples are the ones `getBarcodeExample` returns. */
  lemma ExamplesMatchProvider(key: string)
    requires key in BarcodeExamples && key != "UPC" && key != "EAN13"
    ensures BarcodeExamples[key] == GetBarcodeExample(key)
  {
  }

}
