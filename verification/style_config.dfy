/**
 * The box and effect schemas of src/lib/layout/style-config.ts.
 */
module StyleConfig {
  import opened Common
  import opened Json
  import opened ColorConfig

  datatype ShadowPosition = Inner | Outer

  /** A shadow's colour is a plain colour value, never a gradient or an image. */
  datatype Shadow = Shadow(position: ShadowPosition, color: ColorValue, x: real, y: real, blur: real, spread: real)

  /** Four sides, each nullable and optional. */
  datatype BBox = BBox(top: Maybe, right: Maybe, bottom: Maybe, left: Maybe)

  /** Four corners, each nullable and optional. */
  datatype Corners = Corners(topLeft: Maybe, topRight: Maybe, bottomRight: Maybe, bottomLeft: Maybe)

  datatype Visibility = Visible | Hidden

  /**
   * `styleConfig`: the background may be any picker value, the border colour
   * only a plain colour; shadows are an ordered list.
   */
  datatype StyleConfig = StyleConfig(
    padding: BBox,
    margin: BBox,
    opacity: Maybe,
    visible: Visibility,
    overflow: string,
    background: Option<PickerValue>,
    borderColor: Option<ColorValue>,
    borderRadius: Corners,
    borderWidth: BBox,
    shadows: seq<Shadow>,
    zIndex: Maybe,
    rotation: Maybe)

  const Overflows: set<string> := {"visible", "hidden", "scroll"}

  predicate ValidStyle(s: StyleConfig) {
    s.overflow in Overflows && (s.background.Some? ==> ValidPicker(s.background.value))
  }

  // ---- encoding -------------------------------------------------------------

  function EncodeShadow(s: Shadow): Value {
    Obj(map["position" := Str(if s.position == Inner then "inner" else "outer"),
            "color" := EncodeColor(s.color),
            "x" := Number(s.x), "y" := Number(s.y),
            "blur" := Number(s.blur), "spread" := Number(s.spread)])
  }

  function EncodeShadows(l: seq<Shadow>): (r: seq<Value>)
    ensures |r| == |l|
    ensures forall i :: 0 <= i < |l| ==> r[i] == EncodeShadow(l[i])
  {
    if l == [] then [] else [EncodeShadow(l[0])] + EncodeShadows(l[1..])
  }

  function EncodeBBox(b: BBox): Value {
    Obj(map["top" := MaybeJson(b.top), "right" := MaybeJson(b.right),
            "bottom" := MaybeJson(b.bottom), "left" := MaybeJson(b.left)])
  }

  function EncodeCorners(c: Corners): Value {
    Obj(map["topLeft" := MaybeJson(c.topLeft), "topRight" := MaybeJson(c.topRight),
            "bottomRight" := MaybeJson(c.bottomRight), "bottomLeft" := MaybeJson(c.bottomLeft)])
  }

  function EncodeVisibility(v: Visibility): Value {
    Str(if v == Visible then "visible" else "hidden")
  }

  function PickerJson(p: Option<PickerValue>): Value {
    if p.Some? then EncodePicker(p.value) else Undef
  }

  function ColorJson(c: Option<ColorValue>): Value {
    if c.Some? then EncodeColor(c.value) else Undef
  }

  /** The `styleConfig` object literal, one entry per field. */
  function StyleObject(padding: Value, margin: Value, opacity: Value, visible: Value, overflow: Value,
                       background: Value, borderColor: Value, borderRadius: Value, borderWidth: Value,
                       shadows: Value, zIndex: Value, rotation: Value): map<string, Value>
  {
    map["padding" := padding, "margin" := margin, "opacity" := opacity, "visible" := visible,
        "overflow" := overflow, "background" := background, "borderColor" := borderColor,
        "borderRadius" := borderRadius, "borderWidth" := borderWidth, "shadows" := shadows,
        "zIndex" := zIndex, "rotation" := rotation]
  }

  function EncodeStyle(s: StyleConfig): Value {
    Obj(StyleObject(EncodeBBox(s.padding), EncodeBBox(s.margin), MaybeJson(s.opacity),
                    EncodeVisibility(s.visible), Str(s.overflow), PickerJson(s.background),
                    ColorJson(s.borderColor), EncodeCorners(s.borderRadius), EncodeBBox(s.borderWidth),
                    Arr(EncodeShadows(s.shadows)), MaybeJson(s.zIndex), MaybeJson(s.rotation)))
  }

  // ---- decoding -------------------------------------------------------------

  function DecodeShadow(v: Value): Option<Shadow> {
    var o :- AsObject(v);
    var position :- EnumField(o, "position", {"inner", "outer"});
    var color :- if "color" in o then DecodeColor(o["color"]) else None;
    var x :- NumberField(o, "x");
    var y :- NumberField(o, "y");
    var blur :- NumberField(o, "blur");
    var spread :- NumberField(o, "spread");
    Some(Shadow(if position == "inner" then Inner else Outer, color, x, y, blur, spread))
  }

  function DecodeShadows(vs: seq<Value>): (r: Option<seq<Shadow>>)
    ensures r.Some? ==> |r.value| == |vs|
  {
    if vs == [] then Some([])
    else
      var head :- DecodeShadow(vs[0]);
      var tail :- DecodeShadows(vs[1..]);
      Some([head] + tail)
  }

  function DecodeBBox(v: Value): Option<BBox> {
    var o :- AsObject(v);
    var top :- NullableField(o, "top");
    var right :- NullableField(o, "right");
    var bottom :- NullableField(o, "bottom");
    var left :- NullableField(o, "left");
    Some(BBox(top, right, bottom, left))
  }

  function DecodeCorners(v: Value): Option<Corners> {
    var o :- AsObject(v);
    var topLeft :- NullableField(o, "topLeft");
    var topRight :- NullableField(o, "topRight");
    var bottomRight :- NullableField(o, "bottomRight");
    var bottomLeft :- NullableField(o, "bottomLeft");
    Some(Corners(topLeft, topRight, bottomRight, bottomLeft))
  }

  function VisibilityField(o: map<string, Value>): Option<Visibility> {
    var v :- EnumField(o, "visible", {"visible", "hidden"});
    Some(if v == "visible" then Visible else Hidden)
  }

  function BBoxField(o: map<string, Value>, k: string): Option<BBox> {
    if k in o then DecodeBBox(o[k]) else None
  }

  function CornersField(o: map<string, Value>, k: string): Option<Corners> {
    if k in o then DecodeCorners(o[k]) else None
  }

  function ShadowsField(o: map<string, Value>): Option<seq<Shadow>> {
    if "shadows" in o && o["shadows"].Arr? then DecodeShadows(o["shadows"].items) else None
  }

  /** `pickerValueConfig.optional()` */
  function OptionalPickerField(o: map<string, Value>, k: string): Option<Option<PickerValue>> {
    if Absent(o, k) then Some(None)
    else
      var p :- DecodePicker(o[k]);
      Some(Some(p))
  }

  /** `colorValueConfig.optional()` */
  function OptionalColorField(o: map<string, Value>, k: string): Option<Option<ColorValue>> {
    if Absent(o, k) then Some(None)
    else
      var c :- DecodeColor(o[k]);
      Some(Some(c))
  }

  function DecodeStyle(v: Value): (r: Option<StyleConfig>)
    ensures r.Some? ==> ValidStyle(r.value)
  {
    var o :- AsObject(v);
    var padding :- BBoxField(o, "padding");
    var margin :- BBoxField(o, "margin");
    var opacity :- NullableField(o, "opacity");
    var visible :- VisibilityField(o);
    var overflow :- EnumField(o, "overflow", Overflows);
    var background :- OptionalPickerField(o, "background");
    var borderColor :- OptionalColorField(o, "borderColor");
    var borderRadius :- CornersField(o, "borderRadius");
    var borderWidth :- BBoxField(o, "borderWidth");
    var shadows :- ShadowsField(o);
    var zIndex :- NullableField(o, "zIndex");
    var rotation :- NullableField(o, "rotation");
    Some(StyleConfig(padding, margin, opacity, visible, overflow, background, borderColor,
                     borderRadius, borderWidth, shadows, zIndex, rotation))
  }

  // ---- round trips ------------------------------------------------------------

  lemma ShadowRoundTrip(s: Shadow)
    ensures DecodeShadow(EncodeShadow(s)) == Some(s)
  {
    ColorRoundTrip(s.color);
  }

  lemma {:induction false} ShadowsRoundTrip(l: seq<Shadow>)
    ensures DecodeShadows(EncodeShadows(l)) == Some(l)
  {
    if l != [] {
      var e := EncodeShadows(l);
      assert e[1..] == EncodeShadows(l[1..]);
      ShadowRoundTrip(l[0]);
      ShadowsRoundTrip(l[1..]);
      assert [l[0]] + l[1..] == l;
    }
  }

  lemma BBoxRoundTrip(b: BBox)
    ensures DecodeBBox(EncodeBBox(b)) == Some(b)
  {
  }

  lemma CornersRoundTrip(c: Corners)
    ensures DecodeCorners(EncodeCorners(c)) == Some(c)
  {
  }

  /** Every field of the object literal sits under its own key. */
  lemma StyleObjectLookups(padding: Value, margin: Value, opacity: Value, visible: Value, overflow: Value,
                           background: Value, borderColor: Value, borderRadius: Value, borderWidth: Value,
                           shadows: Value, zIndex: Value, rotation: Value)
    ensures var o := StyleObject(padding, margin, opacity, visible, overflow, background, borderColor,
                                 borderRadius, borderWidth, shadows, zIndex, rotation);
      && "padding" in o && o["padding"] == padding
      && "margin" in o && o["margin"] == margin
      && "opacity" in o && o["opacity"] == opacity
      && "visible" in o && o["visible"] == visible
      && "overflow" in o && o["overflow"] == overflow
      && "background" in o && o["background"] == background
      && "borderColor" in o && o["borderColor"] == borderColor
      && "borderRadius" in o && o["borderRadius"] == borderRadius
      && "borderWidth" in o && o["borderWidth"] == borderWidth
      && "shadows" in o && o["shadows"] == shadows
      && "zIndex" in o && o["zIndex"] == zIndex
      && "rotation" in o && o["rotation"] == rotation
  {
    FirstLookups(padding, margin, opacity, visible, overflow, background, borderColor, borderRadius, borderWidth, shadows, zIndex, rotation);
    LastLookups(padding, margin, opacity, visible, overflow, background, borderColor, borderRadius, borderWidth, shadows, zIndex, rotation);
  }

  lemma FirstLookups(padding: Value, margin: Value, opacity: Value, visible: Value, overflow: Value,
                           background: Value, borderColor: Value, borderRadius: Value, borderWidth: Value,
                           shadows: Value, zIndex: Value, rotation: Value)
    ensures var o := StyleObject(padding, margin, opacity, visible, overflow, background, borderColor,
                                 borderRadius, borderWidth, shadows, zIndex, rotation);
      && "padding" in o && o["padding"] == padding
      && "margin" in o && o["margin"] == margin
      && "opacity" in o && o["opacity"] == opacity
      && "visible" in o && o["visible"] == visible
      && "overflow" in o && o["overflow"] == overflow
      && "background" in o && o["background"] == background
  {
  }

  lemma LastLookups(padding: Value, margin: Value, opacity: Value, visible: Value, overflow: Value,
                           background: Value, borderColor: Value, borderRadius: Value, borderWidth: Value,
                           shadows: Value, zIndex: Value, rotation: Value)
    ensures var o := StyleObject(padding, margin, opacity, visible, overflow, background, borderColor,
                                 borderRadius, borderWidth, shadows, zIndex, rotation);
      && "borderColor" in o && o["borderColor"] == borderColor
      && "borderRadius" in o && o["borderRadius"] == borderRadius
      && "borderWidth" in o && o["borderWidth"] == borderWidth
      && "shadows" in o && o["shadows"] == shadows
      && "zIndex" in o && o["zIndex"] == zIndex
      && "rotation" in o && o["rotation"] == rotation
  {
  }

  lemma BBoxFieldOf(o: map<string, Value>, k: string, b: BBox)
    requires k in o && o[k] == EncodeBBox(b)
    ensures BBoxField(o, k) == Some(b)
  {
    BBoxRoundTrip(b);
  }

  lemma CornersFieldOf(o: map<string, Value>, k: string, c: Corners)
    requires k in o && o[k] == EncodeCorners(c)
    ensures CornersField(o, k) == Some(c)
  {
    CornersRoundTrip(c);
  }

  lemma PickerFieldOf(o: map<string, Value>, k: string, p: Option<PickerValue>)
    requires p.Some? ==> ValidPicker(p.value)
    requires k in o && o[k] == PickerJson(p)
    ensures OptionalPickerField(o, k) == Some(p)
  {
    if p.Some? {
      PickerRoundTrip(p.value);
    }
  }

  lemma ColorFieldOf(o: map<string, Value>, k: string, c: Option<ColorValue>)
    requires k in o && o[k] == ColorJson(c)
    ensures OptionalColorField(o, k) == Some(c)
  {
    if c.Some? {
      ColorRoundTrip(c.value);
    }
  }

  lemma VisibilityFieldOf(o: map<string, Value>, v: Visibility)
    requires "visible" in o && o["visible"] == EncodeVisibility(v)
    ensures VisibilityField(o) == Some(v)
  {
  }

  lemma ShadowsFieldOf(o: map<string, Value>, l: seq<Shadow>)
    requires "shadows" in o && o["shadows"] == Arr(EncodeShadows(l))
    ensures ShadowsField(o) == Some(l)
  {
    ShadowsRoundTrip(l);
  }

  /** What the parse needs to see, field by field, to produce `s`. */
  lemma DecodeStyleFields(o: map<string, Value>, s: StyleConfig)
    requires BBoxField(o, "padding") == Some(s.padding)
    requires BBoxField(o, "margin") == Some(s.margin)
    requires NullableField(o, "opacity") == Some(s.opacity)
    requires VisibilityField(o) == Some(s.visible)
    requires EnumField(o, "overflow", Overflows) == Some(s.overflow)
    requires OptionalPickerField(o, "background") == Some(s.background)
    requires OptionalColorField(o, "borderColor") == Some(s.borderColor)
    requires CornersField(o, "borderRadius") == Some(s.borderRadius)
    requires BBoxField(o, "borderWidth") == Some(s.borderWidth)
    requires ShadowsField(o) == Some(s.shadows)
    requires NullableField(o, "zIndex") == Some(s.zIndex)
    requires NullableField(o, "rotation") == Some(s.rotation)
    ensures DecodeStyle(Obj(o)) == Some(s)
  {
  }

  /** The converse: a parsed style object holds each field as parsed. */
  lemma DecodedStyleFields(o: map<string, Value>, s: StyleConfig)
    requires DecodeStyle(Obj(o)) == Some(s)
    ensures BBoxField(o, "padding") == Some(s.padding)
    ensures BBoxField(o, "margin") == Some(s.margin)
    ensures NullableField(o, "opacity") == Some(s.opacity)
    ensures VisibilityField(o) == Some(s.visible)
    ensures EnumField(o, "overflow", Overflows) == Some(s.overflow)
    ensures OptionalPickerField(o, "background") == Some(s.background)
    ensures OptionalColorField(o, "borderColor") == Some(s.borderColor)
    ensures CornersField(o, "borderRadius") == Some(s.borderRadius)
    ensures BBoxField(o, "borderWidth") == Some(s.borderWidth)
    ensures ShadowsField(o) == Some(s.shadows)
    ensures NullableField(o, "zIndex") == Some(s.zIndex)
    ensures NullableField(o, "rotation") == Some(s.rotation)
  {
  }

  /** Every valid style configuration survives encoding and parsing unchanged. */
  lemma StyleRoundTrip(s: StyleConfig)
    requires ValidStyle(s)
    ensures DecodeStyle(EncodeStyle(s)) == Some(s)
  {
    var o := EncodeStyle(s).fields;
    StyleObjectLookups(EncodeBBox(s.padding), EncodeBBox(s.margin), MaybeJson(s.opacity),
                       EncodeVisibility(s.visible), Str(s.overflow), PickerJson(s.background),
                       ColorJson(s.borderColor), EncodeCorners(s.borderRadius), EncodeBBox(s.borderWidth),
                       Arr(EncodeShadows(s.shadows)), MaybeJson(s.zIndex), MaybeJson(s.rotation));
    NullableFieldOf(o, "opacity", s.opacity);
    NullableFieldOf(o, "zIndex", s.zIndex);
    NullableFieldOf(o, "rotation", s.rotation);
    BBoxFieldOf(o, "padding", s.padding);
    BBoxFieldOf(o, "margin", s.margin);
    BBoxFieldOf(o, "borderWidth", s.borderWidth);
    CornersFieldOf(o, "borderRadius", s.borderRadius);
    VisibilityFieldOf(o, s.visible);
    ShadowsFieldOf(o, s.shadows);
    PickerFieldOf(o, "background", s.background);
    ColorFieldOf(o, "borderColor", s.borderColor);
    DecodeStyleFields(o, s);
  }

  /** The required `style` field of a text or container configuration. */
  function StyleField(o: map<string, Value>): Option<StyleConfig> {
    if "style" in o then DecodeStyle(o["style"]) else None
  }

  /** `{top: 0, right: 0, bottom: 0, left: 0}`, the default of every box in the factories. */
  const ZeroBoxJson: Value :=
    Obj(map["top" := Number(0.0), "right" := Number(0.0), "bottom" := Number(0.0), "left" := Number(0.0)])

  /** `{topLeft: 0, topRight: 0, bottomRight: 0, bottomLeft: 0}`. */
  const ZeroCornersJson: Value :=
    Obj(map["topLeft" := Number(0.0), "topRight" := Number(0.0), "bottomRight" := Number(0.0),
            "bottomLeft" := Number(0.0)])

  const ZeroBox: BBox := BBox(Defined(0.0), Defined(0.0), Defined(0.0), Defined(0.0))
  const ZeroCorners: Corners := Corners(Defined(0.0), Defined(0.0), Defined(0.0), Defined(0.0))

  lemma ZeroDefaults()
    ensures DecodeBBox(ZeroBoxJson) == Some(ZeroBox)
    ensures DecodeCorners(ZeroCornersJson) == Some(ZeroCorners)
  {
    BBoxRoundTrip(ZeroBox);
    CornersRoundTrip(ZeroCorners);
  }
}
