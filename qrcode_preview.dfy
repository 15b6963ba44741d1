/**
 * The values the QR preview derives from the configuration before handing
 * them to the QR renderer: the eye corner radius, the logo size and the
 * encoded value.
 */
module QRCodePreview {
  import opened Wrappers
  import opened JsValues

  /** Shown and encoded while the text is empty. */
  const PLACEHOLDER := "https://seusite.com"

  /** Default logo size, as a percentage of the code's size. */
  const DEFAULT_LOGO_PERCENT := 25.0

  /** The share of the code's size an "original"-mode logo takes. */
  const ORIGINAL_LOGO_SHARE := 0.4

  /** `eyeRadius`: rounded corners only for the "circle" eye style. */
  function EyeRadius(config: JsObject): (r: seq<int>)
    ensures r == [10, 10, 10] <==> Get(config, "eyeStyle") == Str("circle")
    ensures r == [10, 10, 10] || r == [0, 0, 0]
  {
    if Get(config, "eyeStyle") == Str("circle") then [10, 10, 10] else [0, 0, 0]
  }

  /** A logo's width and height, `None` standing for NaN. */
  datatype LogoSize = LogoSize(width: Option<real>, height: Option<real>)

  /** `(config.logoSize || 25) / 100`, the share used by "custom", "auto" and any other mode. */
  function LogoShare(config: JsObject): (p: Option<real>)
    ensures !Truthy(Get(config, "logoSize")) ==> p == Some(DEFAULT_LOGO_PERCENT / 100.0)
  {
    DividedBy(ToNumber(Or(Get(config, "logoSize"), Num(DEFAULT_LOGO_PERCENT))), 100.0)
  }

  /** `calculateLogoSize()` */
  function CalculateLogoSize(config: JsObject): (s: LogoSize)
    ensures s.width == s.height
    ensures !Truthy(Get(config, "logoImage")) ==> s == LogoSize(Some(0.0), Some(0.0))
    ensures Truthy(Get(config, "logoImage")) && Get(config, "logoSizeMode") == Str("original") ==>
      s.width == Min(Times(ToNumber(Get(config, "size")), Some(ORIGINAL_LOGO_SHARE)), ToNumber(Get(config, "size")))
    ensures Truthy(Get(config, "logoImage")) && Get(config, "logoSizeMode") != Str("original") ==>
      s.width == Times(ToNumber(Get(config, "size")), LogoShare(config))
  {
    if !Truthy(Get(config, "logoImage")) then LogoSize(Some(0.0), Some(0.0))
    else
      var size := ToNumber(Get(config, "size"));
      match Get(config, "logoSizeMode")
      case Str("original") =>
        var w := Min(Times(size, Some(ORIGINAL_LOGO_SHARE)), size);
        LogoSize(w, w)
      case Str("custom") =>
        var w := Times(size, LogoShare(config));
        LogoSize(w, w)
      case _ =>
        var w := Times(size, LogoShare(config));
        LogoSize(w, w)
  }

  /** `config.text || "https://seusite.com"`: what the QR code encodes. */
  function QrValue(config: JsObject): (v: JsValue)
    ensures Truthy(Get(config, "text")) ==> v == Get(config, "text")
    ensures !Truthy(Get(config, "text")) ==> v == Str(PLACEHOLDER)
    ensures Truthy(v)
    ensures v == Str(PLACEHOLDER) <==> !Truthy(Get(config, "text")) || Get(config, "text") == Str(PLACEHOLDER)
  {
    Or(Get(config, "text"), Str(PLACEHOLDER))
  }

  // ---------------------------------------------------------------------
  // Properties

  /** In "original" mode a logo never exceeds the code: it is 40% of a non-negative size. */
  lemma OriginalLogoFits(config: JsObject, size: real)
    requires Truthy(Get(config, "logoImage")) && Get(config, "logoSizeMode") == Str("original")
    requires Get(config, "size") == Num(size) && size >= 0.0
    ensures var s := CalculateLogoSize(config);
      s.width.Some? && s.width.value == ORIGINAL_LOGO_SHARE * size && s.width.value <= size
  {
  }

  /**
   * With a logo and numeric size and logoSize, every mode but "original"
   * gives `size * logoSize / 100`, 25 standing in for a logoSize of 0.
   */
  lemma PercentageLogoSize(config: JsObject, size: real, percent: real)
    requires Truthy(Get(config, "logoImage")) && Get(config, "logoSizeMode") != Str("original")
    requires Get(config, "size") == Num(size)
    requires Get(config, "logoSize") == Num(percent)
    ensures var s := CalculateLogoSize(config);
      s.width.Some? && s.width.value == size * ((if percent == 0.0 then DEFAULT_LOGO_PERCENT else percent) / 100.0)
  {
    var effective := if percent == 0.0 then DEFAULT_LOGO_PERCENT else percent;
    assert Or(Get(config, "logoSize"), Num(DEFAULT_LOGO_PERCENT)) == Num(effective);
    assert LogoShare(config) == Some(effective / 100.0);
  }

  /** A logoSize of 0 and a missing logoSize both act as 25. */
  lemma ZeroLogoSizeActsAsDefault(config: JsObject)
    ensures CalculateLogoSize(config["logoSize" := Num(0.0)]) == CalculateLogoSize(config["logoSize" := Num(DEFAULT_LOGO_PERCENT)])
    ensures CalculateLogoSize(config - {"logoSize"}) == CalculateLogoSize(config["logoSize" := Num(DEFAULT_LOGO_PERCENT)])
  {
    var zero, missing, dflt := config["logoSize" := Num(0.0)], config - {"logoSize"}, config["logoSize" := Num(DEFAULT_LOGO_PERCENT)];
    assert Get(zero, "logoImage") == Get(dflt, "logoImage") == Get(missing, "logoImage");
    assert Get(zero, "logoSizeMode") == Get(dflt, "logoSizeMode") == Get(missing, "logoSizeMode");
    assert Get(zero, "size") == Get(dflt, "size") == Get(missing, "size");
    assert LogoShare(zero) == LogoShare(dflt) == LogoShare(missing);
  }

  /** Without a logo image the mode does not matter: the size is 0 by 0. */
  lemma NoLogoNoSize(config: JsObject, mode: JsValue)
    requires !Truthy(Get(config, "logoImage"))
    ensures CalculateLogoSize(config["logoSizeMode" := mode]) == LogoSize(Some(0.0), Some(0.0))
  {
    assert Get(config["logoSizeMode" := mode], "logoImage") == Get(config, "logoImage");
  }

}
