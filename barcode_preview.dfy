/**
 * The barcode preview: the props it hands to the barcode renderer, with the
 * configuration's values defaulted by `||` and `!== false`, and the error
 * it shows once the renderer reports that a value does not fit its format.
 * The renderer itself is outside the model; its report is an input.
 */
module BarcodePreview {
  import opened JsValues
  import BarcodeTypes
  import App

  /** The value drawn while the text is empty. */
  const VALUE_PLACEHOLDER := "123456789"

  const INVALID_MESSAGE := "Valor inválido para este formato. Verifique o tipo de código e tente novamente."

  datatype BarcodeProps = BarcodeProps(
    value: JsValue, format: JsValue, width: JsValue, height: JsValue, displayValue: bool,
    background: JsValue, lineColor: JsValue, fontSize: JsValue, margin: JsValue)

  /** `a || fallback` when `fallback` is truthy: `a` if truthy, the fallback otherwise. */
  predicate DefaultsTo(a: JsValue, fallback: JsValue, r: JsValue) {
    if Truthy(a) then r == a else r == fallback
  }

  /** The props of the `<Barcode>` element for a configuration. */
  function RenderProps(config: JsObject): (p: BarcodeProps)
    ensures DefaultsTo(Get(config, "text"), Str(VALUE_PLACEHOLDER), p.value)
    ensures p.format == Get(config, "barcodeFormat")
    ensures DefaultsTo(Get(config, "barcodeWidth"), Num(BarcodeTypes.BarcodeDefaults.width as real), p.width)
    ensures DefaultsTo(Get(config, "barcodeHeight"), Num(BarcodeTypes.BarcodeDefaults.height as real), p.height)
    ensures p.displayValue <==> Get(config, "barcodeDisplayValue") != Bool(false)
    ensures DefaultsTo(Get(config, "bgColor"), Str(BarcodeTypes.BarcodeDefaults.background), p.background)
    ensures DefaultsTo(Get(config, "fgColor"), Str(BarcodeTypes.BarcodeDefaults.lineColor), p.lineColor)
    ensures DefaultsTo(Get(config, "barcodeFontSize"), Num(BarcodeTypes.BarcodeDefaults.fontSize as real), p.fontSize)
    ensures DefaultsTo(Get(config, "barcodeMargin"), Num(BarcodeTypes.BarcodeDefaults.margin as real), p.margin)
  {
    BarcodeProps(
      Or(Get(config, "text"), Str("123456789")),
      Get(config, "barcodeFormat"),
      Or(Get(config, "barcodeWidth"), Num(2.0)),
      Or(Get(config, "barcodeHeight"), Num(100.0)),
      Get(config, "barcodeDisplayValue") != Bool(false),
      Or(Get(config, "bgColor"), Str("#ffffff")),
      Or(Get(config, "fgColor"), Str("#000000")),
      Or(Get(config, "barcodeFontSize"), Num(20.0)),
      Or(Get(config, "barcodeMargin"), Num(10.0)))
  }

  /** The preview's own state: the error shown, and the dependencies the clearing effect last saw. */
  class BarcodePreviewState {
    var error: JsValue
    var seenText: JsValue
    var seenFormat: JsValue

    /** `error` is `null` or the one message the renderer's report sets. */
    predicate ErrorValid()
      reads this
    {
      error == Null || error == Str(INVALID_MESSAGE)
    }

    /** Mounting: no error, and the effect has seen the initial text and format. */
    constructor (config: JsObject)
      ensures error == Null && ErrorValid()
      ensures seenText == Get(config, "text") && seenFormat == Get(config, "barcodeFormat")
    {
      error := Null;
      seenText := Get(config, "text");
      seenFormat := Get(config, "barcodeFormat");
    }

    /** The renderer's `valid` callback: an invalid report sets the message, a valid one changes nothing. */
    method OnRendererReport(valid: bool)
      modifies this
      ensures error == if valid then old(error) else Str(INVALID_MESSAGE)
      ensures seenText == old(seenText) && seenFormat == old(seenFormat)
      ensures old(ErrorValid()) ==> ErrorValid()
    {
      if !valid {
        error := Str(INVALID_MESSAGE);
      }
    }

    /** A re-render with a new configuration: the effect clears the error when text or format changed. */
    method OnConfigChange(config: JsObject)
      modifies this
      ensures seenText == Get(config, "text") && seenFormat == Get(config, "barcodeFormat")
      ensures error == if old(seenText) != seenText || old(seenFormat) != seenFormat then Null else old(error)
      ensures old(ErrorValid()) ==> ErrorValid()
    {
      if seenText != Get(config, "text") || seenFormat != Get(config, "barcodeFormat") {
        error := Null;
      }
      seenText := Get(config, "text");
      seenFormat := Get(config, "barcodeFormat");
    }

    /** `!!error`: the copy and download buttons are disabled exactly while an error is shown. */
    function ActionsDisabled(): (r: bool)
      reads this
      requires ErrorValid()
      ensures r <==> error != Null
    {
      Truthy(error)
    }

    /** What the card shows: the error message, or the renderer with its props. */
    function Shown(config: JsObject): (r: Result)
      reads this
      requires ErrorValid()
      ensures r.ErrorMessage? <==> ActionsDisabled()
      ensures r.ErrorMessage? ==> r.message == INVALID_MESSAGE
      ensures r.Rendered? ==> r.props == RenderProps(config)
    {
      if Truthy(error) then ErrorMessage(error.s) else Rendered(RenderProps(config))
    }
  }

  datatype Result = ErrorMessage(message: string) | Rendered(props: BarcodeProps)

  // ---------------------------------------------------------------------
  // Properties

  /** A configuration with none of the props set renders with the barcode defaults. */
  lemma EmptyConfigUsesDefaults()
    ensures var p := RenderProps(map[]);
      && p.value == Str(VALUE_PLACEHOLDER) && p.format == Undefined
      && p.width == Num(2.0) && p.height == Num(100.0) && p.displayValue
      && p.fontSize == Num(20.0) && p.margin == Num(10.0)
      && p.background == Str("#ffffff") && p.lineColor == Str("#000000")
  {
  }

  /** Every prop the renderer receives, except the format, is truthy. */
  lemma PropsAreTruthy(config: JsObject)
    ensures var p := RenderProps(config);
      Truthy(p.value) && Truthy(p.width) && Truthy(p.height) && Truthy(p.fontSize)
      && Truthy(p.margin) && Truthy(p.background) && Truthy(p.lineColor)
  {
  }

  /**
   * Every barcode default is truthy, so storing a default explicitly renders
   * the same as leaving the field out.
   */
  lemma StoredDefaultsRenderAsMissing(c: JsObject)
    ensures var d := BarcodeTypes.BarcodeDefaults;
      RenderProps(c["barcodeWidth" := Num(d.width as real)]).width == RenderProps(c - {"barcodeWidth"}).width
    ensures var d := BarcodeTypes.BarcodeDefaults;
      RenderProps(c["barcodeHeight" := Num(d.height as real)]).height == RenderProps(c - {"barcodeHeight"}).height
    ensures var d := BarcodeTypes.BarcodeDefaults;
      RenderProps(c["barcodeFontSize" := Num(d.fontSize as real)]).fontSize == RenderProps(c - {"barcodeFontSize"}).fontSize
    ensures var d := BarcodeTypes.BarcodeDefaults;
      RenderProps(c["barcodeMargin" := Num(d.margin as real)]).margin == RenderProps(c - {"barcodeMargin"}).margin
    ensures var d := BarcodeTypes.BarcodeDefaults;
      RenderProps(c["bgColor" := Str(d.background)]).background == RenderProps(c - {"bgColor"}).background
    ensures var d := BarcodeTypes.BarcodeDefaults;
      RenderProps(c["fgColor" := Str(d.lineColor)]).lineColor == RenderProps(c - {"fgColor"}).lineColor
    ensures var d := BarcodeTypes.BarcodeDefaults;
      RenderProps(c["barcodeDisplayValue" := Bool(d.displayValue)]).displayValue
        == RenderProps(c - {"barcodeDisplayValue"}).displayValue
  {
  }

  /** A stored zero is falsy, so it renders as the default rather than as zero. */
  lemma ZeroTakesDefault(config: JsObject)
    requires Get(config, "barcodeWidth") == Num(0.0) && Get(config, "barcodeMargin") == Num(0.0)
    ensures RenderProps(config).width == Num(2.0) && RenderProps(config).margin == Num(10.0)
  {
  }

  /** Only the boolean `false` hides the text; a missing or falsy non-boolean value shows it. */
  lemma DisplayValueOnlyFalseHides(config: JsObject)
    requires !Truthy(Get(config, "barcodeDisplayValue")) && !Get(config, "barcodeDisplayValue").Bool?
    ensures RenderProps(config).displayValue
  {
  }

  /** The application's initial configuration renders the placeholder with the barcode defaults. */
  lemma InitialConfigRendersDefaults()
    ensures var p := RenderProps(App.InitialConfig);
      var d := BarcodeTypes.BarcodeDefaults;
      && p.value == Str(VALUE_PLACEHOLDER) && p.format == Str("CODE128")
      && p.width == Num(d.width as real) && p.height == Num(d.height as real)
      && p.displayValue == d.displayValue
      && p.fontSize == Num(d.fontSize as real) && p.margin == Num(d.margin as real)
      && p.background == Str(d.background) && p.lineColor == Str(d.lineColor)
  {
    App.InitialConfigFields();
    App.InitialConfigMatchesBarcodeDefaults();
  }
}
