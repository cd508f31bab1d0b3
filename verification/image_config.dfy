/**
 * `imageConfig`, `imageRestStyleConfig`, `imageStyleConfig` and
 * `generateInitialImageStyleConfig` of src/lib/layout/image-config.ts.
 */
module ImageConfig {
  import opened Common
  import opened Json
  import opened Utils
  import opened ColorConfig
  import opened StyleConfig
  import opened ElementShape
  import PositionConfig
  import SizeConfig
  import FilterConfig

  const ObjectFits: set<string> := {"fill", "contain", "cover"}
  const ObjectPositions: set<string> := {
    "top left", "top center", "top right", "left", "center", "right",
    "bottom left", "bottom center", "bottom right"}

  datatype ImageConfig = ImageConfig(objectFit: string, objectPosition: string)

  predicate ValidImage(i: ImageConfig) {
    i.objectFit in ObjectFits && i.objectPosition in ObjectPositions
  }

  /**
   * `styleConfig.pick(...)`: opacity, border colour, radius and width, shadows,
   * visibility, z-index and rotation. No padding, margin, background or overflow.
   */
  datatype ImageRestStyle = ImageRestStyle(
    opacity: Maybe,
    borderColor: Option<ColorValue>,
    borderRadius: Corners,
    borderWidth: BBox,
    shadows: seq<Shadow>,
    visible: Visibility,
    zIndex: Maybe,
    rotation: Maybe)

  function EncodeImage(i: ImageConfig): Value {
    Obj(map["objectFit" := Str(i.objectFit), "objectPosition" := Str(i.objectPosition)])
  }

  function DecodeImage(v: Value): (r: Option<ImageConfig>)
    ensures r.Some? ==> ValidImage(r.value)
  {
    var o :- AsObject(v);
    var fit :- EnumField(o, "objectFit", ObjectFits);
    var position :- EnumField(o, "objectPosition", ObjectPositions);
    Some(ImageConfig(fit, position))
  }

  lemma ImageRoundTrip(i: ImageConfig)
    requires ValidImage(i)
    ensures DecodeImage(EncodeImage(i)) == Some(i)
  {
  }

  /** The `imageRestStyleConfig` object literal, one entry per field. */
  function RestObject(opacity: Value, borderColor: Value, borderRadius: Value, borderWidth: Value,
                      shadows: Value, visible: Value, zIndex: Value, rotation: Value): map<string, Value>
  {
    map["opacity" := opacity, "borderColor" := borderColor, "borderRadius" := borderRadius,
        "borderWidth" := borderWidth, "shadows" := shadows, "visible" := visible, "zIndex" := zIndex,
        "rotation" := rotation]
  }

  lemma RestObjectLookups(opacity: Value, borderColor: Value, borderRadius: Value, borderWidth: Value,
                          shadows: Value, visible: Value, zIndex: Value, rotation: Value)
    ensures var o := RestObject(opacity, borderColor, borderRadius, borderWidth, shadows, visible, zIndex, rotation);
      && "opacity" in o && o["opacity"] == opacity
      && "borderColor" in o && o["borderColor"] == borderColor
      && "borderRadius" in o && o["borderRadius"] == borderRadius
      && "borderWidth" in o && o["borderWidth"] == borderWidth
      && "shadows" in o && o["shadows"] == shadows
      && "visible" in o && o["visible"] == visible
      && "zIndex" in o && o["zIndex"] == zIndex
      && "rotation" in o && o["rotation"] == rotation
  {
  }

  function EncodeRest(s: ImageRestStyle): Value {
    Obj(RestObject(MaybeJson(s.opacity), ColorJson(s.borderColor), EncodeCorners(s.borderRadius),
                   EncodeBBox(s.borderWidth), Arr(EncodeShadows(s.shadows)), EncodeVisibility(s.visible),
                   MaybeJson(s.zIndex), MaybeJson(s.rotation)))
  }

  function DecodeRest(v: Value): Option<ImageRestStyle> {
    var o :- AsObject(v);
    var opacity :- NullableField(o, "opacity");
    var borderColor :- OptionalColorField(o, "borderColor");
    var borderRadius :- CornersField(o, "borderRadius");
    var borderWidth :- BBoxField(o, "borderWidth");
    var shadows :- ShadowsField(o);
    var visible :- VisibilityField(o);
    var zIndex :- NullableField(o, "zIndex");
    var rotation :- NullableField(o, "rotation");
    Some(ImageRestStyle(opacity, borderColor, borderRadius, borderWidth, shadows, visible, zIndex, rotation))
  }

  lemma DecodeRestFields(o: map<string, Value>, s: ImageRestStyle)
    requires NullableField(o, "opacity") == Some(s.opacity)
    requires OptionalColorField(o, "borderColor") == Some(s.borderColor)
    requires CornersField(o, "borderRadius") == Some(s.borderRadius)
    requires BBoxField(o, "borderWidth") == Some(s.borderWidth)
    requires ShadowsField(o) == Some(s.shadows)
    requires VisibilityField(o) == Some(s.visible)
    requires NullableField(o, "zIndex") == Some(s.zIndex)
    requires NullableField(o, "rotation") == Some(s.rotation)
    ensures DecodeRest(Obj(o)) == Some(s)
  {
  }

  /** Every image style survives encoding and parsing unchanged. */
  lemma RestRoundTrip(s: ImageRestStyle)
    ensures DecodeRest(EncodeRest(s)) == Some(s)
  {
    var o := EncodeRest(s).fields;
    RestObjectLookups(MaybeJson(s.opacity), ColorJson(s.borderColor), EncodeCorners(s.borderRadius),
                      EncodeBBox(s.borderWidth), Arr(EncodeShadows(s.shadows)), EncodeVisibility(s.visible),
                      MaybeJson(s.zIndex), MaybeJson(s.rotation));
    NullableFieldOf(o, "opacity", s.opacity);
    ColorFieldOf(o, "borderColor", s.borderColor);
    CornersFieldOf(o, "borderRadius", s.borderRadius);
    BBoxFieldOf(o, "borderWidth", s.borderWidth);
    ShadowsFieldOf(o, s.shadows);
    VisibilityFieldOf(o, s.visible);
    NullableFieldOf(o, "zIndex", s.zIndex);
    NullableFieldOf(o, "rotation", s.rotation);
    DecodeRestFields(o, s);
  }

  const RestKeys: set<string> :=
    {"opacity", "borderColor", "borderRadius", "borderWidth", "shadows", "visible", "zIndex", "rotation"}

  /**
   * The picked schema reads nothing but its eight keys: two objects that agree
   * on them parse alike, whatever padding, margin, background or overflow they hold.
   */
  lemma RestReadsOnlyPicked(a: map<string, Value>, b: map<string, Value>)
    requires forall k :: k in RestKeys ==> (k in a <==> k in b)
    requires forall k :: k in RestKeys && k in a ==> a[k] == b[k]
    ensures DecodeRest(Obj(a)) == DecodeRest(Obj(b))
  {
    SameBorders(a, b);
    SameOthers(a, b);
  }

  /** Agreeing on the picked keys, the two objects hold the same opacity and border fields. */
  lemma SameBorders(a: map<string, Value>, b: map<string, Value>)
    requires forall k :: k in RestKeys ==> (k in a <==> k in b)
    requires forall k :: k in RestKeys && k in a ==> a[k] == b[k]
    ensures NullableField(a, "opacity") == NullableField(b, "opacity")
    ensures OptionalColorField(a, "borderColor") == OptionalColorField(b, "borderColor")
    ensures CornersField(a, "borderRadius") == CornersField(b, "borderRadius")
    ensures BBoxField(a, "borderWidth") == BBoxField(b, "borderWidth")
  {
    SameAt(a, b, "opacity");
    SameAt(a, b, "borderColor");
    SameAt(a, b, "borderRadius");
    SameAt(a, b, "borderWidth");
  }

  /** Agreeing on the picked keys, the two objects hold the same shadows, visibility, z-index and rotation. */
  lemma SameOthers(a: map<string, Value>, b: map<string, Value>)
    requires forall k :: k in RestKeys ==> (k in a <==> k in b)
    requires forall k :: k in RestKeys && k in a ==> a[k] == b[k]
    ensures ShadowsField(a) == ShadowsField(b)
    ensures VisibilityField(a) == VisibilityField(b)
    ensures NullableField(a, "zIndex") == NullableField(b, "zIndex")
    ensures NullableField(a, "rotation") == NullableField(b, "rotation")
  {
    SameAt(a, b, "shadows");
    SameAt(a, b, "visible");
    SameAt(a, b, "zIndex");
    SameAt(a, b, "rotation");
  }

  /** Two objects that agree on the picked keys agree on `k`, one of them. */
  lemma SameAt(a: map<string, Value>, b: map<string, Value>, k: string)
    requires forall k :: k in RestKeys ==> (k in a <==> k in b)
    requires forall k :: k in RestKeys && k in a ==> a[k] == b[k]
    requires k in RestKeys
    ensures k in a <==> k in b
    ensures k in a ==> a[k] == b[k]
  {
  }

  // ---- imageStyleConfig -------------------------------------------------------

  datatype ImageStyleConfig = ImageStyleConfig(
    position: PositionConfig.Position,
    size: SizeConfig.SizeConfig,
    image: ImageConfig,
    style: ImageRestStyle,
    filter: Option<FilterConfig.FilterConfig>)

  predicate ValidImageStyle(c: ImageStyleConfig) {
    ValidImage(c.image) && (c.filter.Some? ==> FilterConfig.ValidFilter(c.filter.value))
  }

  function EncodeImageStyle(c: ImageStyleConfig): Value {
    Obj(ShapeObject("image", SizeConfig.EncodeSize(c.size), PositionConfig.EncodePosition(c.position),
                    "image", EncodeImage(c.image), EncodeRest(c.style), FilterConfig.EncodeFilter(c.filter)))
  }

  function ImageField(o: map<string, Value>): Option<ImageConfig> {
    if "image" in o then DecodeImage(o["image"]) else None
  }

  function RestField(o: map<string, Value>): Option<ImageRestStyle> {
    if "style" in o then DecodeRest(o["style"]) else None
  }

  function DecodeImageStyle(v: Value): (r: Option<ImageStyleConfig>)
    ensures r.Some? ==> ValidImageStyle(r.value) && v.Obj? && TagIs(v.fields, "type", "image")
  {
    var o :- AsObject(v);
    if !TagIs(o, "type", "image") then None
    else
      var position :- PositionConfig.PositionField(o);
      var size :- SizeConfig.SizeField(o);
      var image :- ImageField(o);
      var style :- RestField(o);
      var filter :- FilterConfig.FilterField(o);
      Some(ImageStyleConfig(position, size, image, style, filter))
  }

  lemma DecodeImageStyleFields(o: map<string, Value>, c: ImageStyleConfig)
    requires TagIs(o, "type", "image")
    requires PositionConfig.PositionField(o) == Some(c.position)
    requires SizeConfig.SizeField(o) == Some(c.size)
    requires ImageField(o) == Some(c.image)
    requires RestField(o) == Some(c.style)
    requires FilterConfig.FilterField(o) == Some(c.filter)
    ensures DecodeImageStyle(Obj(o)) == Some(c)
  {
  }

  /** Every valid image element configuration survives encoding and parsing unchanged. */
  lemma ImageStyleRoundTrip(c: ImageStyleConfig)
    requires ValidImageStyle(c)
    ensures DecodeImageStyle(EncodeImageStyle(c)) == Some(c)
  {
    var o := EncodeImageStyle(c).fields;
    ShapeLookups("image", SizeConfig.EncodeSize(c.size), PositionConfig.EncodePosition(c.position),
                 "image", EncodeImage(c.image), EncodeRest(c.style), FilterConfig.EncodeFilter(c.filter));
    PositionConfig.PositionRoundTrip(c.position);
    SizeConfig.SizeRoundTrip(c.size);
    ImageRoundTrip(c.image);
    RestRoundTrip(c.style);
    FilterConfig.FilterFieldOf(o, c.filter);
    DecodeImageStyleFields(o, c);
  }

  // ---- generateInitialImageStyleConfig ----------------------------------------

  const ImageSizeDefaults: Value :=
    Obj(map["width" := Obj(map["type" := Str("relative"), "value" := Number(100.0)]),
            "height" := Obj(map["type" := Str("auto")]),
            "minMax" := Arr([])])

  const ImageRestDefaults: Value :=
    Obj(map["opacity" := Number(100.0), "borderColor" := Undef, "borderWidth" := ZeroBoxJson,
            "borderRadius" := ZeroCornersJson, "shadows" := Arr([]), "visible" := Str("visible")])

  /** The base object `generateInitialImageStyleConfig` merges its argument into. */
  const ImageDefaults: Value :=
    Obj(map["type" := Str("image"), "position" := PositionConfig.RelativeJson, "size" := ImageSizeDefaults,
            "image" := Obj(map["objectFit" := Str("cover"), "objectPosition" := Str("center")]),
            "style" := ImageRestDefaults, "filter" := Empty])

  /**
   * `generateInitialImageStyleConfig(config)`: the defaults, deep-merged with the argument.
   * A field the argument gives as anything but an object replaces the default,
   * and a default the argument does not mention is kept.
   */
  function GenerateInitialImageStyleConfig(config: Value): (r: Value)
    requires config.Obj?
    ensures r.Obj? && r.fields.Keys == ImageDefaults.fields.Keys + config.fields.Keys
    ensures forall k :: k in config.fields && !config.fields[k].Obj? ==> r.fields[k] == config.fields[k]
    ensures forall k :: k in ImageDefaults.fields && k !in config.fields ==> r.fields[k] == ImageDefaults.fields[k]
  {
    Merge(ImageDefaults, config)
  }

  const InitialImageRest: ImageRestStyle :=
    ImageRestStyle(Defined(100.0), None, ZeroCorners, ZeroBox, [], Visible, Undefined, Undefined)

  /** The configuration a new image element starts with. */
  const InitialImage: ImageStyleConfig :=
    ImageStyleConfig(
      PositionConfig.Relative,
      SizeConfig.SizeConfig(SizeConfig.Relative(Defined(100.0)), SizeConfig.Auto, []),
      ImageConfig("cover", "center"),
      InitialImageRest,
      Some(map[]))

  lemma ImageRestDefaultsBoxes()
    ensures var o := ImageRestDefaults.fields;
      && CornersField(o, "borderRadius") == Some(ZeroCorners)
      && BBoxField(o, "borderWidth") == Some(ZeroBox)
  {
    ZeroDefaults();
  }

  lemma ImageRestDefaultsOthers()
    ensures var o := ImageRestDefaults.fields;
      && NullableField(o, "opacity") == Some(Defined(100.0))
      && OptionalColorField(o, "borderColor") == Some(None)
      && ShadowsField(o) == Some([])
      && VisibilityField(o) == Some(Visible)
      && NullableField(o, "zIndex") == Some(Undefined)
      && NullableField(o, "rotation") == Some(Undefined)
  {
  }

  lemma ImageDefaultsShape()
    ensures var o := ImageDefaults.fields;
      && TagIs(o, "type", "image")
      && PositionConfig.PositionField(o) == Some(InitialImage.position)
      && ImageField(o) == Some(InitialImage.image)
  {
  }

  lemma ImageDefaultsSize()
    ensures SizeConfig.SizeField(ImageDefaults.fields) == Some(InitialImage.size)
  {
  }

  lemma ImageDefaultsRest()
    ensures RestField(ImageDefaults.fields) == Some(InitialImage.style)
  {
    ImageRestDefaultsBoxes();
    ImageRestDefaultsOthers();
    DecodeRestFields(ImageRestDefaults.fields, InitialImageRest);
  }

  lemma ImageDefaultsFilter()
    ensures FilterConfig.FilterField(ImageDefaults.fields) == Some(InitialImage.filter)
  {
    FilterConfig.EmptyFilterValid();
  }

  /**
   * `generateInitialImageStyleConfig({})` is a valid image configuration:
   * relative position, width relative 100, height auto, no min/max, cover and
   * centre, zero borders and radii, no shadows, visible and an empty filter.
   */
  lemma InitialImageConfig()
    ensures DecodeImageStyle(GenerateInitialImageStyleConfig(Empty)) == Some(InitialImage)
  {
    RightIdentity(ImageDefaults);
    ImageDefaultsShape();
    ImageDefaultsSize();
    ImageDefaultsRest();
    ImageDefaultsFilter();
    DecodeImageStyleFields(ImageDefaults.fields, InitialImage);
  }
}
