/**
 * `textConfig`, `TEXT_WEIGHTS_CONFIG`, `textStyleConfig` and
 * `generateInitialTextStyleConfig` of src/lib/layout/text-config.ts.
 */
module TextConfig {
  import opened Common
  import opened Json
  import opened Utils
  import opened ColorConfig
  import opened StyleConfig
  import opened ElementShape
  import PositionConfig
  import SizeConfig
  import FilterConfig

  /** The eighteen `fontWeight` variants. */
  datatype Weight =
    | Thin | ThinItalic | ExtraLight | ExtraLightItalic | Light | LightItalic
    | Regular | Italic | Medium | MediumItalic | Semibold | SemiboldItalic
    | Bold | BoldItalic | ExtraBold | ExtraBoldItalic | Black | BlackItalic

  const WeightNames: set<string> := {
    "thin", "thin-italic", "extra-light", "extra-light-italic", "light", "light-italic",
    "regular", "italic", "medium", "medium-italic", "semibold", "semibold-italic",
    "bold", "bold-italic", "extra-bold", "extra-bold-italic", "black", "black-italic"}

  function WeightName(w: Weight): (r: string)
    ensures r in WeightNames
  {
    match w
    case Thin => "thin"
    case ThinItalic => "thin-italic"
    case ExtraLight => "extra-light"
    case ExtraLightItalic => "extra-light-italic"
    case Light => "light"
    case LightItalic => "light-italic"
    case Regular => "regular"
    case Italic => "italic"
    case Medium => "medium"
    case MediumItalic => "medium-italic"
    case Semibold => "semibold"
    case SemiboldItalic => "semibold-italic"
    case Bold => "bold"
    case BoldItalic => "bold-italic"
    case ExtraBold => "extra-bold"
    case ExtraBoldItalic => "extra-bold-italic"
    case Black => "black"
    case BlackItalic => "black-italic"
  }

  /** The variant a `fontWeight` string names, if it names one. */
  function WeightOf(name: string): (r: Option<Weight>)
    ensures r.Some? <==> name in WeightNames
    ensures r.Some? ==> WeightName(r.value) == name
  {
    if name == "thin" then Some(Thin)
    else if name == "thin-italic" then Some(ThinItalic)
    else if name == "extra-light" then Some(ExtraLight)
    else if name == "extra-light-italic" then Some(ExtraLightItalic)
    else if name == "light" then Some(Light)
    else if name == "light-italic" then Some(LightItalic)
    else if name == "regular" then Some(Regular)
    else if name == "italic" then Some(Italic)
    else if name == "medium" then Some(Medium)
    else if name == "medium-italic" then Some(MediumItalic)
    else if name == "semibold" then Some(Semibold)
    else if name == "semibold-italic" then Some(SemiboldItalic)
    else if name == "bold" then Some(Bold)
    else if name == "bold-italic" then Some(BoldItalic)
    else if name == "extra-bold" then Some(ExtraBold)
    else if name == "extra-bold-italic" then Some(ExtraBoldItalic)
    else if name == "black" then Some(Black)
    else if name == "black-italic" then Some(BlackItalic)
    else None
  }

  /** Distinct variants have distinct names, so a name reads back as its variant. */
  lemma WeightNameRoundTrip(w: Weight)
    ensures WeightOf(WeightName(w)) == Some(w)
  {
  }

  datatype TextWeightConfig = TextWeightConfig(name: string, fontWeight: nat, italic: bool)

  /** `TEXT_WEIGHTS_CONFIG`, a total table over the eighteen variants. */
  function TextWeightsConfig(w: Weight): TextWeightConfig {
    match w
    case Thin => TextWeightConfig("Thin", 100, false)
    case ThinItalic => TextWeightConfig("Thin Italic", 100, true)
    case ExtraLight => TextWeightConfig("Extra Light", 200, false)
    case ExtraLightItalic => TextWeightConfig("Extra Light Italic", 200, true)
    case Light => TextWeightConfig("Light", 300, false)
    case LightItalic => TextWeightConfig("Light Italic", 300, true)
    case Regular => TextWeightConfig("Regular", 400, false)
    case Italic => TextWeightConfig("Italic", 400, true)
    case Medium => TextWeightConfig("Medium", 500, false)
    case MediumItalic => TextWeightConfig("Medium Italic", 500, true)
    case Semibold => TextWeightConfig("Semibold", 600, false)
    case SemiboldItalic => TextWeightConfig("Semibold Italic", 600, true)
    case Bold => TextWeightConfig("Bold", 700, false)
    case BoldItalic => TextWeightConfig("Bold Italic", 700, true)
    case ExtraBold => TextWeightConfig("Extra Bold", 800, false)
    case ExtraBoldItalic => TextWeightConfig("Extra Bold Italic", 800, true)
    case Black => TextWeightConfig("Black", 900, false)
    case BlackItalic => TextWeightConfig("Black Italic", 900, true)
  }

  predicate EndsWithItalic(s: string) {
    |s| >= 6 && s[|s| - 6..] == "italic"
  }

  /** Every weight is one of 100, 200, ..., 900. */
  lemma FontWeightsAreHundreds(w: Weight)
    ensures var fw := TextWeightsConfig(w).fontWeight; 100 <= fw <= 900 && fw % 100 == 0
  {
  }

  /** A variant is italic exactly when its name ends in `italic`, the bare `italic` included. */
  lemma ItalicIffNameSaysSo(w: Weight)
    ensures TextWeightsConfig(w).italic <==> EndsWithItalic(WeightName(w))
  {
  }

  /** The italic counterpart of an upright variant; `regular` pairs with the bare `italic`. */
  function ItalicOf(w: Weight): (r: Weight)
    requires !TextWeightsConfig(w).italic
    ensures TextWeightsConfig(r).italic
  {
    match w
    case Thin => ThinItalic
    case ExtraLight => ExtraLightItalic
    case Light => LightItalic
    case Regular => Italic
    case Medium => MediumItalic
    case Semibold => SemiboldItalic
    case Bold => BoldItalic
    case ExtraBold => ExtraBoldItalic
    case Black => BlackItalic
  }

  /** The counterpart's name is the upright name with `-italic` appended, except for `regular`. */
  lemma ItalicOfName(w: Weight)
    requires !TextWeightsConfig(w).italic
    ensures WeightName(ItalicOf(w)) == if w == Regular then "italic" else WeightName(w) + "-italic"
  {
    match w
    case Thin => assert "thin" + "-italic" == "thin-italic";
    case ExtraLight => assert "extra-light" + "-italic" == "extra-light-italic";
    case Light => assert "light" + "-italic" == "light-italic";
    case Regular =>
    case Medium => assert "medium" + "-italic" == "medium-italic";
    case Semibold => assert "semibold" + "-italic" == "semibold-italic";
    case Bold => assert "bold" + "-italic" == "bold-italic";
    case ExtraBold => assert "extra-bold" + "-italic" == "extra-bold-italic";
    case Black => assert "black" + "-italic" == "black-italic";
  }

  /** Each upright variant and its italic counterpart share one numeric weight. */
  lemma PairsShareWeight(w: Weight)
    requires !TextWeightsConfig(w).italic
    ensures TextWeightsConfig(ItalicOf(w)).fontWeight == TextWeightsConfig(w).fontWeight
  {
  }

  // ---- textConfig -----------------------------------------------------------

  datatype TextConfig = TextConfig(
    fontSize: real,
    lineHeight: real,
    letterSpacing: real,
    textAlign: string,
    fontWeight: Weight,
    fontFamily: string,
    color: ColorValue,
    textTransform: string,
    textDecoration: string)

  const TextAligns: set<string> := {"left", "center", "right", "justify"}
  const TextTransforms: set<string> := {"none", "uppercase", "lowercase", "capitalize"}
  const TextDecorations: set<string> := {"none", "underline", "line-through"}

  predicate ValidText(t: TextConfig) {
    t.textAlign in TextAligns && t.textTransform in TextTransforms && t.textDecoration in TextDecorations
  }

  /** The `textConfig` object literal, one entry per field. */
  function TextObject(fontSize: Value, lineHeight: Value, letterSpacing: Value, textAlign: Value,
                      fontWeight: Value, fontFamily: Value, color: Value, textTransform: Value,
                      textDecoration: Value): map<string, Value>
  {
    map["fontSize" := fontSize, "lineHeight" := lineHeight, "letterSpacing" := letterSpacing,
        "textAlign" := textAlign, "fontWeight" := fontWeight, "fontFamily" := fontFamily,
        "color" := color, "textTransform" := textTransform, "textDecoration" := textDecoration]
  }

  lemma TextObjectLookups(fontSize: Value, lineHeight: Value, letterSpacing: Value, textAlign: Value,
                          fontWeight: Value, fontFamily: Value, color: Value, textTransform: Value,
                          textDecoration: Value)
    ensures var o := TextObject(fontSize, lineHeight, letterSpacing, textAlign, fontWeight, fontFamily,
                                color, textTransform, textDecoration);
      && "fontSize" in o && o["fontSize"] == fontSize
      && "lineHeight" in o && o["lineHeight"] == lineHeight
      && "letterSpacing" in o && o["letterSpacing"] == letterSpacing
      && "textAlign" in o && o["textAlign"] == textAlign
      && "fontWeight" in o && o["fontWeight"] == fontWeight
      && "fontFamily" in o && o["fontFamily"] == fontFamily
      && "color" in o && o["color"] == color
      && "textTransform" in o && o["textTransform"] == textTransform
      && "textDecoration" in o && o["textDecoration"] == textDecoration
  {
  }

  function EncodeText(t: TextConfig): Value {
    Obj(TextObject(Number(t.fontSize), Number(t.lineHeight), Number(t.letterSpacing), Str(t.textAlign),
                   Str(WeightName(t.fontWeight)), Str(t.fontFamily), EncodeColor(t.color),
                   Str(t.textTransform), Str(t.textDecoration)))
  }

  function WeightField(o: map<string, Value>): Option<Weight> {
    var name :- EnumField(o, "fontWeight", WeightNames);
    WeightOf(name)
  }

  /** A required `colorValueConfig` field. */
  function ColorField(o: map<string, Value>, k: string): Option<ColorValue> {
    if k in o then DecodeColor(o[k]) else None
  }

  function DecodeText(v: Value): (r: Option<TextConfig>)
    ensures r.Some? ==> ValidText(r.value)
  {
    var o :- AsObject(v);
    var fontSize :- NumberField(o, "fontSize");
    var lineHeight :- NumberField(o, "lineHeight");
    var letterSpacing :- NumberField(o, "letterSpacing");
    var textAlign :- EnumField(o, "textAlign", TextAligns);
    var fontWeight :- WeightField(o);
    var fontFamily :- StringField(o, "fontFamily");
    var color :- ColorField(o, "color");
    var textTransform :- EnumField(o, "textTransform", TextTransforms);
    var textDecoration :- EnumField(o, "textDecoration", TextDecorations);
    Some(TextConfig(fontSize, lineHeight, letterSpacing, textAlign, fontWeight, fontFamily, color,
                    textTransform, textDecoration))
  }

  /** What the parse needs to see, field by field, to produce `t`. */
  lemma DecodeTextFields(o: map<string, Value>, t: TextConfig)
    requires NumberField(o, "fontSize") == Some(t.fontSize)
    requires NumberField(o, "lineHeight") == Some(t.lineHeight)
    requires NumberField(o, "letterSpacing") == Some(t.letterSpacing)
    requires EnumField(o, "textAlign", TextAligns) == Some(t.textAlign)
    requires WeightField(o) == Some(t.fontWeight)
    requires StringField(o, "fontFamily") == Some(t.fontFamily)
    requires ColorField(o, "color") == Some(t.color)
    requires EnumField(o, "textTransform", TextTransforms) == Some(t.textTransform)
    requires EnumField(o, "textDecoration", TextDecorations) == Some(t.textDecoration)
    ensures DecodeText(Obj(o)) == Some(t)
  {
  }

  /** Every valid text configuration survives encoding and parsing unchanged. */
  lemma TextRoundTrip(t: TextConfig)
    requires ValidText(t)
    ensures DecodeText(EncodeText(t)) == Some(t)
  {
    var o := EncodeText(t).fields;
    TextObjectLookups(Number(t.fontSize), Number(t.lineHeight), Number(t.letterSpacing), Str(t.textAlign),
                      Str(WeightName(t.fontWeight)), Str(t.fontFamily), EncodeColor(t.color),
                      Str(t.textTransform), Str(t.textDecoration));
    WeightNameRoundTrip(t.fontWeight);
    ColorRoundTrip(t.color);
    DecodeTextFields(o, t);
  }

  // ---- textStyleConfig --------------------------------------------------------

  datatype TextStyleConfig = TextStyleConfig(
    position: PositionConfig.Position,
    size: SizeConfig.SizeConfig,
    text: TextConfig,
    style: StyleConfig,
    filter: Option<FilterConfig.FilterConfig>)

  predicate ValidTextStyle(c: TextStyleConfig) {
    ValidText(c.text) && ValidStyle(c.style) && (c.filter.Some? ==> FilterConfig.ValidFilter(c.filter.value))
  }

  function EncodeTextStyle(c: TextStyleConfig): Value {
    Obj(ShapeObject("text", SizeConfig.EncodeSize(c.size), PositionConfig.EncodePosition(c.position),
                    "text", EncodeText(c.text), EncodeStyle(c.style), FilterConfig.EncodeFilter(c.filter)))
  }

  function TextField(o: map<string, Value>): Option<TextConfig> {
    if "text" in o then DecodeText(o["text"]) else None
  }

  function DecodeTextStyle(v: Value): (r: Option<TextStyleConfig>)
    ensures r.Some? ==> ValidTextStyle(r.value) && v.Obj? && TagIs(v.fields, "type", "text")
  {
    var o :- AsObject(v);
    if !TagIs(o, "type", "text") then None
    else
      var position :- PositionConfig.PositionField(o);
      var size :- SizeConfig.SizeField(o);
      var text :- TextField(o);
      var style :- StyleField(o);
      var filter :- FilterConfig.FilterField(o);
      Some(TextStyleConfig(position, size, text, style, filter))
  }

  lemma DecodeTextStyleFields(o: map<string, Value>, c: TextStyleConfig)
    requires TagIs(o, "type", "text")
    requires PositionConfig.PositionField(o) == Some(c.position)
    requires SizeConfig.SizeField(o) == Some(c.size)
    requires TextField(o) == Some(c.text)
    requires StyleField(o) == Some(c.style)
    requires FilterConfig.FilterField(o) == Some(c.filter)
    ensures DecodeTextStyle(Obj(o)) == Some(c)
  {
  }

  /** Every valid text element configuration survives encoding and parsing unchanged. */
  lemma TextStyleRoundTrip(c: TextStyleConfig)
    requires ValidTextStyle(c)
    ensures DecodeTextStyle(EncodeTextStyle(c)) == Some(c)
  {
    var o := EncodeTextStyle(c).fields;
    ShapeLookups("text", SizeConfig.EncodeSize(c.size), PositionConfig.EncodePosition(c.position),
                 "text", EncodeText(c.text), EncodeStyle(c.style), FilterConfig.EncodeFilter(c.filter));
    PositionConfig.PositionRoundTrip(c.position);
    SizeConfig.SizeRoundTrip(c.size);
    TextRoundTrip(c.text);
    StyleRoundTrip(c.style);
    FilterConfig.FilterFieldOf(o, c.filter);
    DecodeTextStyleFields(o, c);
  }

  // ---- generateInitialTextStyleConfig -----------------------------------------

  /** `{type: 'color', color: '#000000', opacity: 100}`. */
  const BlackJson: Value := Obj(map["type" := Str("color"), "color" := Str("#000000"), "opacity" := Number(100.0)])

  const TextSizeDefaults: Value :=
    Obj(map["width" := Obj(map["type" := Str("relative"), "value" := Number(100.0)]),
            "height" := Obj(map["type" := Str("auto")]),
            "minMax" := Arr([])])

  const TextTextDefaults: Value :=
    Obj(map["fontSize" := Number(16.0), "lineHeight" := Number(1.0), "textAlign" := Str("left"),
            "fontFamily" := Str("Inter"), "fontWeight" := Str("regular"), "letterSpacing" := Number(0.0),
            "color" := BlackJson, "textTransform" := Str("none"), "textDecoration" := Str("none")])

  const TextStyleDefaults: Value :=
    Obj(map["padding" := ZeroBoxJson, "margin" := ZeroBoxJson, "opacity" := Number(100.0),
            "background" := Undef, "borderColor" := Undef, "borderWidth" := ZeroBoxJson,
            "borderRadius" := ZeroCornersJson, "overflow" := Str("visible"), "shadows" := Arr([]),
            "visible" := Str("visible")])

  /** The base object `generateInitialTextStyleConfig` merges its argument into. */
  const TextDefaults: Value :=
    Obj(map["type" := Str("text"), "position" := PositionConfig.RelativeJson, "size" := TextSizeDefaults,
            "text" := TextTextDefaults, "style" := TextStyleDefaults, "filter" := Empty])

  /**
   * `generateInitialTextStyleConfig(config)`: the defaults, deep-merged with the argument.
   * A field the argument gives as anything but an object replaces the default,
   * and a default the argument does not mention is kept.
   */
  function GenerateInitialTextStyleConfig(config: Value): (r: Value)
    requires config.Obj?
    ensures r.Obj? && r.fields.Keys == TextDefaults.fields.Keys + config.fields.Keys
    ensures forall k :: k in config.fields && !config.fields[k].Obj? ==> r.fields[k] == config.fields[k]
    ensures forall k :: k in TextDefaults.fields && k !in config.fields ==> r.fields[k] == TextDefaults.fields[k]
  {
    Merge(TextDefaults, config)
  }

  const InitialTextStyle: StyleConfig :=
    StyleConfig(ZeroBox, ZeroBox, Defined(100.0), Visible, "visible", None, None, ZeroCorners, ZeroBox, [],
                Undefined, Undefined)

  /** The configuration a new text element starts with. */
  const InitialText: TextStyleConfig :=
    TextStyleConfig(
      PositionConfig.Relative,
      SizeConfig.SizeConfig(SizeConfig.Relative(Defined(100.0)), SizeConfig.Auto, []),
      TextConfig(16.0, 1.0, 0.0, "left", Regular, "Inter", ColorValue("#000000", 100.0), "none", "none"),
      InitialTextStyle,
      Some(map[]))

  lemma TextSizeDefaultsDecode()
    ensures SizeConfig.DecodeSize(TextSizeDefaults) == Some(InitialText.size)
  {
  }

  lemma TextTextDefaultsNumbers()
    ensures var o := TextTextDefaults.fields;
      NumberField(o, "fontSize") == Some(16.0) && NumberField(o, "lineHeight") == Some(1.0) &&
      NumberField(o, "letterSpacing") == Some(0.0)
  {
  }

  lemma TextTextDefaultsKeywords()
    ensures var o := TextTextDefaults.fields;
      EnumField(o, "textAlign", TextAligns) == Some("left") && StringField(o, "fontFamily") == Some("Inter") &&
      EnumField(o, "textTransform", TextTransforms) == Some("none") &&
      EnumField(o, "textDecoration", TextDecorations) == Some("none")
  {
  }

  lemma TextTextDefaultsPaint()
    ensures var o := TextTextDefaults.fields;
      WeightField(o) == Some(Regular) && ColorField(o, "color") == Some(ColorValue("#000000", 100.0))
  {
  }

  lemma TextTextDefaultsDecode()
    ensures DecodeText(TextTextDefaults) == Some(InitialText.text)
  {
    TextTextDefaultsNumbers();
    TextTextDefaultsKeywords();
    TextTextDefaultsPaint();
    DecodeTextFields(TextTextDefaults.fields, InitialText.text);
  }

  lemma TextStyleDefaultsBoxes()
    ensures var o := TextStyleDefaults.fields;
      && BBoxField(o, "padding") == Some(ZeroBox)
      && BBoxField(o, "margin") == Some(ZeroBox)
      && BBoxField(o, "borderWidth") == Some(ZeroBox)
      && CornersField(o, "borderRadius") == Some(ZeroCorners)
  {
    ZeroDefaults();
  }

  lemma TextStyleDefaultsNumbers()
    ensures var o := TextStyleDefaults.fields;
      && NullableField(o, "opacity") == Some(Defined(100.0))
      && NullableField(o, "zIndex") == Some(Undefined)
      && NullableField(o, "rotation") == Some(Undefined)
  {
  }

  lemma TextStyleDefaultsPaint()
    ensures var o := TextStyleDefaults.fields;
      && VisibilityField(o) == Some(Visible)
      && EnumField(o, "overflow", Overflows) == Some("visible")
      && OptionalPickerField(o, "background") == Some(None)
      && OptionalColorField(o, "borderColor") == Some(None)
      && ShadowsField(o) == Some([])
  {
  }

  lemma TextStyleDefaultsDecode()
    ensures DecodeStyle(TextStyleDefaults) == Some(InitialTextStyle)
  {
    TextStyleDefaultsBoxes();
    TextStyleDefaultsNumbers();
    TextStyleDefaultsPaint();
    DecodeStyleFields(TextStyleDefaults.fields, InitialTextStyle);
  }

  lemma TextDefaultsShape()
    ensures var o := TextDefaults.fields;
      && TagIs(o, "type", "text")
      && PositionConfig.PositionField(o) == Some(InitialText.position)
  {
  }

  lemma TextDefaultsFilter()
    ensures FilterConfig.FilterField(TextDefaults.fields) == Some(InitialText.filter)
  {
    FilterConfig.EmptyFilterValid();
  }

  lemma TextDefaultsSize()
    ensures SizeConfig.SizeField(TextDefaults.fields) == Some(InitialText.size)
  {
    TextSizeDefaultsDecode();
  }

  lemma TextDefaultsText()
    ensures TextField(TextDefaults.fields) == Some(InitialText.text)
  {
    TextTextDefaultsDecode();
  }

  lemma TextDefaultsStyle()
    ensures StyleField(TextDefaults.fields) == Some(InitialText.style)
  {
    TextStyleDefaultsDecode();
  }

  /**
   * `generateInitialTextStyleConfig({})` is a valid text configuration: relative
   * position, width relative 100, height auto, no min/max, regular Inter 16 in
   * black, zero boxes, visible, no shadows and an empty filter.
   */
  lemma InitialTextConfig()
    ensures DecodeTextStyle(GenerateInitialTextStyleConfig(Empty)) == Some(InitialText)
  {
    RightIdentity(TextDefaults);
    TextDefaultsShape();
    TextDefaultsFilter();
    TextDefaultsSize();
    TextDefaultsText();
    TextDefaultsStyle();
    DecodeTextStyleFields(TextDefaults.fields, InitialText);
  }
}
