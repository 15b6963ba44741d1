/**
 * The application shell: the one configuration record that every panel
 * reads, the two ways it changes (a single-field update and a wholesale
 * load from history), the guard that decides whether a history save is
 * scheduled, and the copy-text action.
 */
module App {
  import opened Wrappers
  import opened JsValues
  import BarcodeTypes

  /** The configuration the application starts with. */
  const InitialConfig: JsObject := map[
    "generatorType" := GeneratorType(QRCODE),
    "text" := Str(""),
    "fgColor" := Str("#000000"),
    "bgColor" := Str("#ffffff"),
    "size" := Num(280.0),
    "ecLevel" := Str("H"),
    "qrStyle" := Str("squares"),
    "eyeStyle" := Str("square"),
    "logoImage" := Str(""),
    "logoOpacity" := Num(1.0),
    "removeQrCodeBehindLogo" := Bool(false),
    "barcodeFormat" := Str("CODE128"),
    "barcodeWidth" := Num(2.0),
    "barcodeHeight" := Num(100.0),
    "barcodeDisplayValue" := Bool(true),
    "barcodeFontSize" := Num(20.0),
    "barcodeMargin" := Num(10.0)
  ]

  /** `{ ...prev, [field]: value }`: the field reads `value` afterwards, and no other field changes. */
  function UpdatedConfig(prev: JsObject, field: string, value: JsValue): (next: JsObject)
    ensures Get(next, field) == value
    ensures forall k :: k != field ==> Get(next, k) == Get(prev, k)
    ensures next.Keys == prev.Keys + {field}
  {
    prev[field := value]
  }

  /** The `config` state of the application component. */
  class AppState {
    var config: JsObject

    constructor ()
      ensures config == InitialConfig
    {
      config := InitialConfig;
    }

    /** `updateConfig(field, value)`: the updater is applied to the latest state. */
    method UpdateConfig(field: string, value: JsValue)
      modifies this
      ensures config == UpdatedConfig(old(config), field, value)
    {
      config := UpdatedConfig(config, field, value);
    }

    /** `loadConfigFromHistory(snapshot)`: the snapshot replaces the configuration, with no merge. */
    method LoadConfigFromHistory(snapshot: JsObject)
      modifies this
      ensures config == snapshot
    {
      config := snapshot;
    }
  }

  /** `config.text && config.text.length > 0`: a save to history is scheduled only for non-empty text. */
  function ShouldScheduleHistorySave(config: JsObject): (r: bool)
    ensures r <==> Get(config, "text").Str? && |Get(config, "text").s| > 0
  {
    var text := Get(config, "text");
    Truthy(text) && match Length(text) { case Some(n) => n > 0 case None => false }
  }

  const COPIED_MESSAGE := "Texto copiado para a área de transferência!"
  const NOTHING_TO_COPY_MESSAGE := "Digite algum texto primeiro!"

  /** What `handleCopyText` writes to the clipboard, if anything, and the notification it shows. */
  datatype CopyOutcome = CopyOutcome(clipboard: Option<JsValue>, toast: string)

  function HandleCopyText(config: JsObject): (r: CopyOutcome)
    ensures r.toast == NOTHING_TO_COPY_MESSAGE <==> !Truthy(Get(config, "text"))
    ensures r.clipboard.Some? <==> r.toast == COPIED_MESSAGE
    ensures r.clipboard.Some? ==> r.clipboard.value == Get(config, "text")
    ensures Truthy(Get(config, "text")) ==> r == CopyOutcome(Some(Get(config, "text")), COPIED_MESSAGE)
    ensures !Truthy(Get(config, "text")) ==> r == CopyOutcome(None, NOTHING_TO_COPY_MESSAGE)
  {
    var text := Get(config, "text");
    if Truthy(text) then CopyOutcome(Some(text), COPIED_MESSAGE)
    else CopyOutcome(None, NOTHING_TO_COPY_MESSAGE)
  }

  // ---------------------------------------------------------------------
  // Properties

  /** The initial configuration, field by field. */
  lemma InitialConfigFields()
    ensures InitialConfig.Keys == {
      "generatorType", "text", "fgColor", "bgColor", "size", "ecLevel", "qrStyle", "eyeStyle",
      "logoImage", "logoOpacity", "removeQrCodeBehindLogo", "barcodeFormat", "barcodeWidth",
      "barcodeHeight", "barcodeDisplayValue", "barcodeFontSize", "barcodeMargin"}
    ensures Get(InitialConfig, "generatorType") == GeneratorType(QRCODE)
    ensures Get(InitialConfig, "text") == Str("")
    ensures Get(InitialConfig, "size") == Num(280.0) && Get(InitialConfig, "ecLevel") == Str("H")
    ensures Get(InitialConfig, "barcodeFormat") == Str("CODE128")
  {
  }

  /** Nothing is scheduled for the initial configuration. */
  lemma InitialConfigSchedulesNothing()
    ensures !ShouldScheduleHistorySave(InitialConfig)
    ensures HandleCopyText(InitialConfig).toast == NOTHING_TO_COPY_MESSAGE
  {
  }

  /** The barcode fields start at the registry's renderer defaults. */
  lemma InitialConfigMatchesBarcodeDefaults()
    ensures Get(InitialConfig, "barcodeWidth") == Num(BarcodeTypes.BarcodeDefaults.width as real)
    ensures Get(InitialConfig, "barcodeHeight") == Num(BarcodeTypes.BarcodeDefaults.height as real)
    ensures Get(InitialConfig, "barcodeFontSize") == Num(BarcodeTypes.BarcodeDefaults.fontSize as real)
    ensures Get(InitialConfig, "barcodeMargin") == Num(BarcodeTypes.BarcodeDefaults.margin as real)
    ensures Get(InitialConfig, "barcodeDisplayValue") == Bool(BarcodeTypes.BarcodeDefaults.displayValue)
    ensures Get(InitialConfig, "bgColor") == Str(BarcodeTypes.BarcodeDefaults.background)
    ensures Get(InitialConfig, "fgColor") == Str(BarcodeTypes.BarcodeDefaults.lineColor)
  {
  }

  /** Two updates compose in call order; on the same field the second wins. */
  lemma UpdatesCompose(c: JsObject, f1: string, v1: JsValue, f2: string, v2: JsValue, k: string)
    ensures Get(UpdatedConfig(UpdatedConfig(c, f1, v1), f2, v2), k) ==
      if k == f2 then v2 else if k == f1 then v1 else Get(c, k)
  {
  }

  /** Updates to different fields commute. */
  lemma UpdatesCommute(c: JsObject, f1: string, v1: JsValue, f2: string, v2: JsValue)
    requires f1 != f2
    ensures UpdatedConfig(UpdatedConfig(c, f1, v1), f2, v2) == UpdatedConfig(UpdatedConfig(c, f2, v2), f1, v1)
  {
  }

  /** Writing back the value a field already holds changes nothing. */
  lemma UpdateWithCurrentValue(c: JsObject, field: string)
    requires field in c
    ensures UpdatedConfig(c, field, Get(c, field)) == c
  {
  }

  /** For string text, the copy action refuses exactly when no history save would be scheduled. */
  lemma CopyAgreesWithHistoryGuard(config: JsObject)
    requires Get(config, "text").Str?
    ensures HandleCopyText(config).clipboard.None? <==> !ShouldScheduleHistorySave(config)
  {
  }

}
