/**
 * The editing panel's handlers. Each one issues a short, ordered sequence of
 * single-field updates to the application's configuration; the conditions
 * they test are read from the configuration as it was when the control was
 * clicked. Each handler is specified by a function on configurations.
 */
module Controls {
  import opened Wrappers
  import opened JsValues
  import opened App
  import opened BarcodeTypes
  import opened BarcodeValidators
  import QRCodePreview
  import JsStrings

  /** One of the ready-made QR colour schemes. */
  datatype Template = Template(name: string, fg: string, bg: string, style: string, eye: string)

  const Templates: seq<Template> := [
    Template("Padrão", "#000000", "#ffffff", "squares", "square"),
    Template("WhatsApp", "#128C7E", "#E5FFFC", "dots", "circle"),
    Template("Dark", "#E0E0E0", "#1E1E1E", "squares", "square"),
    Template("Azul Tech", "#2563EB", "#EFF6FF", "dots", "square")
  ]

  /**
   * The four templates have distinct names, which key their buttons, and each
   * draws its foreground in a colour different from its background.
   */
  lemma TemplatesDistinct()
    ensures |Templates| == 4
    ensures forall i, j :: 0 <= i < j < |Templates| ==> Templates[i].name != Templates[j].name
    ensures forall i :: 0 <= i < |Templates| ==> Templates[i].fg != Templates[i].bg
  {
  }

  /** The format the barcode button falls back to. */
  const DEFAULT_FORMAT := "CODE128"

  /** `BARCODE_EXAMPLES[format]` as a JavaScript value: `undefined` for an id without an example. */
  function ExampleFor(format: string): (v: JsValue)
    ensures Truthy(v) <==> format in BarcodeExamples
    ensures Truthy(v) ==> v == Str(BarcodeExamples[format])
  {
    if format in BarcodeExamples then
      ExamplesNonEmpty(format);
      Str(BarcodeExamples[format])
    else Undefined
  }

  // ---------------------------------------------------------------------
  // The handlers, as functions

  /** `handleFormatChange(format)`: the format is set, then the text becomes the format's example if it has one. */
  function FormatChanged(c: JsObject, format: string): (r: JsObject)
    ensures Get(r, "barcodeFormat") == Str(format)
    ensures Get(r, "text") == if Truthy(ExampleFor(format)) then ExampleFor(format) else Get(c, "text")
    ensures forall k :: k != "barcodeFormat" && k != "text" ==> Get(r, k) == Get(c, k)
  {
    var c1 := UpdatedConfig(c, "barcodeFormat", Str(format));
    if Truthy(ExampleFor(format)) then UpdatedConfig(c1, "text", ExampleFor(format)) else c1
  }

  /**
   * The barcode type button: switches the generator kind, restores the
   * default format if none is set, and puts CODE128's example in place of
   * empty text or of the QR placeholder, whatever the format.
   */
  function BarcodeSelected(c: JsObject): (r: JsObject)
    ensures Get(r, "generatorType") == GeneratorType(BARCODE)
    ensures Get(r, "barcodeFormat") ==
      if Truthy(Get(c, "barcodeFormat")) then Get(c, "barcodeFormat") else Str(DEFAULT_FORMAT)
    ensures Get(r, "text") ==
      if !Truthy(Get(c, "text")) || Get(c, "text") == Str(QRCodePreview.PLACEHOLDER)
      then ExampleFor(DEFAULT_FORMAT) else Get(c, "text")
    ensures forall k :: k != "generatorType" && k != "barcodeFormat" && k != "text" ==> Get(r, k) == Get(c, k)
  {
    var c1 := UpdatedConfig(c, "generatorType", GeneratorType(BARCODE));
    var c2 := if !Truthy(Get(c, "barcodeFormat")) then UpdatedConfig(c1, "barcodeFormat", Str(DEFAULT_FORMAT)) else c1;
    if !Truthy(Get(c, "text")) || Get(c, "text") == Str(QRCodePreview.PLACEHOLDER)
    then UpdatedConfig(c2, "text", ExampleFor(DEFAULT_FORMAT)) else c2
  }

  /** The QR type button changes the generator kind only. */
  function QrSelected(c: JsObject): (r: JsObject)
    ensures Get(r, "generatorType") == GeneratorType(QRCODE)
    ensures forall k :: k != "generatorType" ==> Get(r, k) == Get(c, k)
  {
    UpdatedConfig(c, "generatorType", GeneratorType(QRCODE))
  }

  /** A template click sets the two colours and the two QR styles, in that order. */
  function TemplateApplied(c: JsObject, t: Template): (r: JsObject)
    ensures Get(r, "fgColor") == Str(t.fg) && Get(r, "bgColor") == Str(t.bg)
    ensures Get(r, "qrStyle") == Str(t.style) && Get(r, "eyeStyle") == Str(t.eye)
    ensures forall k :: k !in {"fgColor", "bgColor", "qrStyle", "eyeStyle"} ==> Get(r, k) == Get(c, k)
  {
    UpdatedConfig(UpdatedConfig(UpdatedConfig(UpdatedConfig(c,
      "fgColor", Str(t.fg)), "bgColor", Str(t.bg)), "qrStyle", Str(t.style)), "eyeStyle", Str(t.eye))
  }

  // ---------------------------------------------------------------------
  // The handlers, on the application state

  method HandleFormatChange(app: AppState, format: string)
    modifies app
    ensures app.config == FormatChanged(old(app.config), format)
  {
    app.UpdateConfig("barcodeFormat", Str(format));
    if Truthy(ExampleFor(format)) {
      app.UpdateConfig("text", ExampleFor(format));
    }
  }

  method OnBarcodeButton(app: AppState)
    modifies app
    ensures app.config == BarcodeSelected(old(app.config))
  {
    var clicked := app.config;
    app.UpdateConfig("generatorType", GeneratorType(BARCODE));
    if !Truthy(Get(clicked, "barcodeFormat")) {
      app.UpdateConfig("barcodeFormat", Str(DEFAULT_FORMAT));
    }
    if !Truthy(Get(clicked, "text")) || Get(clicked, "text") == Str(QRCodePreview.PLACEHOLDER) {
      app.UpdateConfig("text", ExampleFor(DEFAULT_FORMAT));
    }
  }

  method OnQrButton(app: AppState)
    modifies app
    ensures app.config == QrSelected(old(app.config))
  {
    app.UpdateConfig("generatorType", GeneratorType(QRCODE));
  }

  method OnTemplateClick(app: AppState, t: Template)
    modifies app
    ensures app.config == TemplateApplied(old(app.config), t)
  {
    app.UpdateConfig("fgColor", Str(t.fg));
    app.UpdateConfig("bgColor", Str(t.bg));
    app.UpdateConfig("qrStyle", Str(t.style));
    app.UpdateConfig("eyeStyle", Str(t.eye));
  }

  // ---------------------------------------------------------------------
  // The per-category format select

  /** `formats.find((f) => f.value === v)` */
  function FindOption(formats: seq<FormatOption>, v: JsValue): (r: Option<FormatOption>)
    ensures r.Some? ==> r.value in formats && Str(r.value.value) == v
    ensures r.Some? ==>
      exists j :: 0 <= j < |formats| && formats[j] == r.value && (forall k :: 0 <= k < j ==> Str(formats[k].value) != v)
    ensures r.None? <==> forall j :: 0 <= j < |formats| ==> Str(formats[j].value) != v
    decreases |formats|
  {
    if |formats| == 0 then None
    else if Str(formats[0].value) == v then Some(formats[0])
    else FindOption(formats[1..], v)
  }

  /** The value a category's select shows: the current format if the category offers it, `""` otherwise. */
  function SelectValue(category: Category, barcodeFormat: JsValue): (r: JsValue)
    ensures r == barcodeFormat || r == Str("")
    ensures r != Str("") ==> barcodeFormat.Str? && Lists(category, barcodeFormat.s)
    ensures barcodeFormat.Str? && Lists(category, barcodeFormat.s) ==> r == barcodeFormat
  {
    if FindOption(category.formats, barcodeFormat).Some? then barcodeFormat else Str("")
  }

  // ---------------------------------------------------------------------
  // Properties

  /** At most one of the category selects shows a format. */
  lemma AtMostOneSelectShows(barcodeFormat: JsValue, i: nat, k: nat)
    requires i < |BarcodeCategories| && k < |BarcodeCategories|
    requires SelectValue(BarcodeCategories[i], barcodeFormat) != Str("")
    requires SelectValue(BarcodeCategories[k], barcodeFormat) != Str("")
    ensures i == k
  {
    CategoriesDisjoint(barcodeFormat.s, i, k);
  }

  /** Choosing "Selecione..." (value `""`) clears the format and keeps the text. */
  lemma ChoosingNoFormatKeepsText(c: JsObject)
    ensures Get(FormatChanged(c, ""), "barcodeFormat") == Str("")
    ensures Get(FormatChanged(c, ""), "text") == Get(c, "text")
  {
    ExampleKeys("");
  }

  /**
   * Choosing an option from a select puts that format's example in the text,
   * and the example then passes the format's validator for every option but
   * the one with value `"UPC"`.
   */
  lemma ChosenExampleValidates(c: JsObject, i: nat, j: nat)
    requires i < |BarcodeCategories| && j < |BarcodeCategories[i].formats|
    ensures var format := BarcodeCategories[i].formats[j].value;
      var text := Get(FormatChanged(c, format), "text");
      && format in BarcodeExamples
      && text == Str(BarcodeExamples[format])
      && (ValidateBarcodeValue(format, Some(text.s)) == Accepted <==> format != "UPC")
  {
    OptionsHaveExamples(i, j);
    ExampleChangeValidates(c, BarcodeCategories[i].formats[j].value);
  }

  /** A format change to an id with an example fills it in; it validates unless the id is `"UPC"`. */
  lemma ExampleChangeValidates(c: JsObject, format: string)
    requires format in BarcodeExamples
    ensures var text := Get(FormatChanged(c, format), "text");
      && text == Str(BarcodeExamples[format])
      && (ValidateBarcodeValue(format, Some(text.s)) == Accepted <==> format != "UPC")
  {
    var e := BarcodeExamples[format];
    ExamplesNonEmpty(format);
    assert Truthy(ExampleFor(format)) && ExampleFor(format) == Str(e);
    var text := Get(FormatChanged(c, format), "text");
    assert text == Str(e);
    ExamplesValidate(format);
    assert ValidateBarcodeValue(format, Some(e)) == Accepted <==> format != "UPC";
  }

  /** The barcode button swaps in an example exactly when the QR preview is showing its placeholder. */
  lemma BarcodeButtonReplacesPlaceholder(c: JsObject)
    ensures Get(BarcodeSelected(c), "text") ==
      if QRCodePreview.QrValue(c) == Str(QRCodePreview.PLACEHOLDER) then Str(BarcodeExamples[DEFAULT_FORMAT])
      else Get(c, "text")
  {
    EveryFormatHasExample(CODE128);
  }

  /** The example the barcode button fills in is CODE128's. */
  lemma DefaultExample()
    ensures ExampleFor(DEFAULT_FORMAT) == Str(CODE128_EXAMPLE)
  {
  }

  /** The barcode button always fills in CODE128's example, which the UPC rule rejects. */
  lemma BarcodeButtonIgnoresFormat(c: JsObject)
    requires Get(c, "barcodeFormat") == Str("UPC") && Get(c, "text") == Str("")
    ensures Get(BarcodeSelected(c), "barcodeFormat") == Str("UPC")
    ensures Get(BarcodeSelected(c), "text") == Str(CODE128_EXAMPLE)
    ensures ValidateBarcodeValue("UPC", Some(CODE128_EXAMPLE)).Rejected?
  {
    assert Truthy(Get(c, "barcodeFormat")) && !Truthy(Get(c, "text"));
    DefaultExample();
    assert Get(BarcodeSelected(c), "text") == ExampleFor(DEFAULT_FORMAT);
    Code128ExampleFailsUpc(CODE128_EXAMPLE);
  }

  lemma Code128ExampleFailsUpc(value: string)
    requires value == "Example 1234"
    ensures ValidateBarcodeValue("UPC", Some(value)).Rejected?
  {
    Code128ExampleDigits(value);
    JsStrings.DigitsExcludeBlank(value);
    UpcRejectsDigitCount(value);
  }

  /** The digits of CODE128's example are its last four characters. */
  lemma Code128ExampleDigits(value: string)
    requires value == "Example 1234"
    ensures JsStrings.Digits(value) == "1234"
  {
    var prefix, digits := "Example ", "1234";
    assert prefix + digits == value;
    JsStrings.KeepOnlyConcat(prefix, digits, JsStrings.IsAsciiDigit);
    JsStrings.KeepOnlyNone(prefix, JsStrings.IsAsciiDigit);
    assert JsStrings.AllIn(digits, JsStrings.IsAsciiDigit);
    JsStrings.KeepOnlyIdentity(digits, JsStrings.IsAsciiDigit);
  }

  lemma UpcRejectsDigitCount(value: string)
    requires !JsStrings.AllWhitespace(value) && |JsStrings.Digits(value)| != 12
    ensures ValidateBarcodeValue("UPC", Some(value)).Rejected?
  {
    UpcIsUpcA();
    KnownFormatDelegates("UPC", value);
  }

  const BARCODE_FIELDS: set<string> := {"barcodeFormat", "barcodeWidth", "barcodeHeight", "barcodeDisplayValue",
    "barcodeFontSize", "barcodeMargin", "text"}

  /** The QR button keeps every barcode field, so switching back finds them as they were. */
  lemma QrButtonKeepsBarcodeFields(c: JsObject)
    ensures forall k :: k in BARCODE_FIELDS ==> Get(QrSelected(c), k) == Get(c, k)
  {
  }

  /** Applying a template twice is the same as applying it once. */
  lemma TemplateIdempotent(c: JsObject, t: Template)
    ensures TemplateApplied(TemplateApplied(c, t), t) == TemplateApplied(c, t)
  {
  }

}
