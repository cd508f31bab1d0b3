/**
 * `iconTextConfig`, `iconRestStyleConfig`, `iconStyleConfig` and
 * `generateInitialIconStyleConfig` of src/lib/layout/icon-config.ts.
 */
module IconConfig {
  import opened Common
  import opened Json
  import opened Utils
  import opened ColorConfig
  import opened StyleConfig
  import opened ElementShape
  import PositionConfig
  import SizeConfig
  import FilterConfig
  import TextConfig

  /** `textConfig.pick({color})`: an icon's text part carries only its colour. */
  datatype IconText = IconText(color: ColorValue)

  /** `styleConfig.pick(...)`: opacity, visibility, shadows, z-index and rotation. */
  datatype IconRestStyle = IconRestStyle(
    opacity: Maybe,
    visible: Visibility,
    shadows: seq<Shadow>,
    zIndex: Maybe,
    rotation: Maybe)

  function EncodeIconText(t: IconText): Value {
    Obj(map["color" := EncodeColor(t.color)])
  }

  function DecodeIconText(v: Value): Option<IconText> {
    var o :- AsObject(v);
    var color :- TextConfig.ColorField(o, "color");
    Some(IconText(color))
  }

  lemma IconTextRoundTrip(t: IconText)
    ensures DecodeIconText(EncodeIconText(t)) == Some(t)
  {
    ColorRoundTrip(t.color);
  }

  /** The text part reads the colour alone: the other text fields are ignored. */
  lemma IconTextReadsOnlyColor(a: map<string, Value>, b: map<string, Value>)
    requires ("color" in a <==> "color" in b) && ("color" in a ==> a["color"] == b["color"])
    ensures DecodeIconText(Obj(a)) == DecodeIconText(Obj(b))
  {
  }

  function RestObject(opacity: Value, visible: Value, shadows: Value, zIndex: Value, rotation: Value)
    : map<string, Value>
  {
    map["opacity" := opacity, "visible" := visible, "shadows" := shadows, "zIndex" := zIndex,
        "rotation" := rotation]
  }

  lemma RestObjectLookups(opacity: Value, visible: Value, shadows: Value, zIndex: Value, rotation: Value)
    ensures var o := RestObject(opacity, visible, shadows, zIndex, rotation);
      && "opacity" in o && o["opacity"] == opacity
      && "visible" in o && o["visible"] == visible
      && "shadows" in o && o["shadows"] == shadows
      && "zIndex" in o && o["zIndex"] == zIndex
      && "rotation" in o && o["rotation"] == rotation
  {
  }

  function EncodeRest(s: IconRestStyle): Value {
    Obj(RestObject(MaybeJson(s.opacity), EncodeVisibility(s.visible), Arr(EncodeShadows(s.shadows)),
                   MaybeJson(s.zIndex), MaybeJson(s.rotation)))
  }

  function DecodeRest(v: Value): Option<IconRestStyle> {
    var o :- AsObject(v);
    var opacity :- NullableField(o, "opacity");
    var visible :- VisibilityField(o);
    var shadows :- ShadowsField(o);
    var zIndex :- NullableField(o, "zIndex");
    var rotation :- NullableField(o, "rotation");
    Some(IconRestStyle(opacity, visible, shadows, zIndex, rotation))
  }

  lemma DecodeRestFields(o: map<string, Value>, s: IconRestStyle)
    requires NullableField(o, "opacity") == Some(s.opacity)
    requires VisibilityField(o) == Some(s.visible)
    requires ShadowsField(o) == Some(s.shadows)
    requires NullableField(o, "zIndex") == Some(s.zIndex)
    requires NullableField(o, "rotation") == Some(s.rotation)
    ensures DecodeRest(Obj(o)) == Some(s)
  {
  }

  /** Every icon style survives encoding and parsing unchanged. */
  lemma RestRoundTrip(s: IconRestStyle)
    ensures DecodeRest(EncodeRest(s)) == Some(s)
  {
    var o := EncodeRest(s).fields;
    RestObjectLookups(MaybeJson(s.opacity), EncodeVisibility(s.visible), Arr(EncodeShadows(s.shadows)),
                      MaybeJson(s.zIndex), MaybeJson(s.rotation));
    NullableFieldOf(o, "opacity", s.opacity);
    VisibilityFieldOf(o, s.visible);
    ShadowsFieldOf(o, s.shadows);
    NullableFieldOf(o, "zIndex", s.zIndex);
    NullableFieldOf(o, "rotation", s.rotation);
    DecodeRestFields(o, s);
  }

  // ---- iconStyleConfig --------------------------------------------------------

  datatype IconStyleConfig = IconStyleConfig(
    position: PositionConfig.Position,
    size: SizeConfig.SizeConfig,
    iconText: IconText,
    style: IconRestStyle,
    filter: Option<FilterConfig.FilterConfig>)

  predicate ValidIconStyle(c: IconStyleConfig) {
    c.filter.Some? ==> FilterConfig.ValidFilter(c.filter.value)
  }

  function EncodeIconStyle(c: IconStyleConfig): Value {
    Obj(ShapeObject("icon", SizeConfig.EncodeSize(c.size), PositionConfig.EncodePosition(c.position),
                    "text", EncodeIconText(c.iconText), EncodeRest(c.style), FilterConfig.EncodeFilter(c.filter)))
  }

  function IconTextField(o: map<string, Value>): Option<IconText> {
    if "text" in o then DecodeIconText(o["text"]) else None
  }

  function RestField(o: map<string, Value>): Option<IconRestStyle> {
    if "style" in o then DecodeRest(o["style"]) else None
  }

  function DecodeIconStyle(v: Value): (r: Option<IconStyleConfig>)
    ensures r.Some? ==> ValidIconStyle(r.value) && v.Obj? && TagIs(v.fields, "type", "icon")
  {
    var o :- AsObject(v);
    if !TagIs(o, "type", "icon") then None
    else
      var position :- PositionConfig.PositionField(o);
      var size :- SizeConfig.SizeField(o);
      var text :- IconTextField(o);
      var style :- RestField(o);
      var filter :- FilterConfig.FilterField(o);
      Some(IconStyleConfig(position, size, text, style, filter))
  }

  lemma DecodeIconStyleFields(o: map<string, Value>, c: IconStyleConfig)
    requires TagIs(o, "type", "icon")
    requires PositionConfig.PositionField(o) == Some(c.position)
    requires SizeConfig.SizeField(o) == Some(c.size)
    requires IconTextField(o) == Some(c.iconText)
    requires RestField(o) == Some(c.style)
    requires FilterConfig.FilterField(o) == Some(c.filter)
    ensures DecodeIconStyle(Obj(o)) == Some(c)
  {
  }

  /** Every valid icon element configuration survives encoding and parsing unchanged. */
  lemma IconStyleRoundTrip(c: IconStyleConfig)
    requires ValidIconStyle(c)
    ensures DecodeIconStyle(EncodeIconStyle(c)) == Some(c)
  {
    var o := EncodeIconStyle(c).fields;
    ShapeLookups("icon", SizeConfig.EncodeSize(c.size), PositionConfig.EncodePosition(c.position),
                 "text", EncodeIconText(c.iconText), EncodeRest(c.style), FilterConfig.EncodeFilter(c.filter));
    PositionConfig.PositionRoundTrip(c.position);
    SizeConfig.SizeRoundTrip(c.size);
    IconTextRoundTrip(c.iconText);
    RestRoundTrip(c.style);
    FilterConfig.FilterFieldOf(o, c.filter);
    DecodeIconStyleFields(o, c);
  }

  // ---- generateInitialIconStyleConfig -----------------------------------------

  const IconSizeDefaults: Value :=
    Obj(map["width" := Obj(map["type" := Str("fixed"), "value" := Number(20.0)]),
            "height" := Obj(map["type" := Str("fixed"), "value" := Number(20.0)]),
            "minMax" := Arr([])])

  const IconRestDefaults: Value :=
    Obj(map["opacity" := Number(100.0), "visible" := Str("visible"), "shadows" := Arr([])])

  /**
   * The base object `generateInitialIconStyleConfig` merges its argument into.
   * Its filter sits under the key `filterConfig`, which the schema does not know.
   */
  const IconDefaults: Value :=
    Obj(map["type" := Str("icon"), "position" := PositionConfig.RelativeJson, "size" := IconSizeDefaults,
            "text" := Obj(map["color" := TextConfig.BlackJson]),
            "style" := IconRestDefaults, "filterConfig" := Empty])

  /**
   * `generateInitialIconStyleConfig(config)`: the defaults, deep-merged with the argument.
   * A field the argument gives as anything but an object replaces the default,
   * and a default the argument does not mention is kept.
   */
  function GenerateInitialIconStyleConfig(config: Value): (r: Value)
    requires config.Obj?
    ensures r.Obj? && r.fields.Keys == IconDefaults.fields.Keys + config.fields.Keys
    ensures forall k :: k in config.fields && !config.fields[k].Obj? ==> r.fields[k] == config.fields[k]
    ensures forall k :: k in IconDefaults.fields && k !in config.fields ==> r.fields[k] == IconDefaults.fields[k]
  {
    Merge(IconDefaults, config)
  }

  /** The configuration a new icon starts with: note that it has no filter. */
  const InitialIcon: IconStyleConfig :=
    IconStyleConfig(
      PositionConfig.Relative,
      SizeConfig.SizeConfig(SizeConfig.Fixed(Defined(20.0)), SizeConfig.Fixed(Defined(20.0)), []),
      IconText(ColorValue("#000000", 100.0)),
      IconRestStyle(Defined(100.0), Visible, [], Undefined, Undefined),
      None)

  lemma IconDefaultsShape()
    ensures var o := IconDefaults.fields;
      && TagIs(o, "type", "icon")
      && PositionConfig.PositionField(o) == Some(InitialIcon.position)
      && IconTextField(o) == Some(InitialIcon.iconText)
  {
  }

  lemma IconDefaultsSize()
    ensures SizeConfig.SizeField(IconDefaults.fields) == Some(InitialIcon.size)
  {
  }

  lemma IconDefaultsRest()
    ensures RestField(IconDefaults.fields) == Some(InitialIcon.style)
  {
    DecodeRestFields(IconRestDefaults.fields, InitialIcon.style);
  }

  /** `filterConfig` is not `filter`: the initial icon has no filter at all. */
  lemma IconDefaultsNoFilter()
    ensures "filter" !in IconDefaults.fields
    ensures FilterConfig.FilterField(IconDefaults.fields) == Some(None)
  {
  }

  /**
   * `generateInitialIconStyleConfig({})` is a valid icon configuration: 20 by 20
   * fixed, black, opacity 100, visible, no shadows, and no filter.
   */
  lemma InitialIconConfig()
    ensures DecodeIconStyle(GenerateInitialIconStyleConfig(Empty)) == Some(InitialIcon)
  {
    RightIdentity(IconDefaults);
    IconDefaultsShape();
    IconDefaultsSize();
    IconDefaultsRest();
    IconDefaultsNoFilter();
    DecodeIconStyleFields(IconDefaults.fields, InitialIcon);
  }
}
