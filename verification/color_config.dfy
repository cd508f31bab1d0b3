/**
 * The fill schemas of src/lib/layout/color-config.ts: a plain colour, a linear
 * or radial gradient over colour stops, or a background image.
 */
module ColorConfig {
  import opened Common
  import opened Json

  /** `{type: 'color', color, opacity}`; opacity is on a 0..100 scale. */
  datatype ColorValue = ColorValue(color: string, opacity: real)

  datatype GradientStop = GradientStop(color: string, position: real, opacity: real)

  /** A linear gradient carries its angle; a radial gradient has none. */
  datatype GradientKind = Linear(angle: real) | Radial

  /** A picker value is exactly one of a colour, a gradient or an image. */
  datatype PickerValue =
    | ColorFill(value: ColorValue)
    | GradientFill(kind: GradientKind, stops: seq<GradientStop>)
    | ImageFill(url: string, backgroundSize: string, backgroundRepeat: string, backgroundPosition: string)

  const BackgroundSizes: set<string> := {"cover", "contain"}
  const BackgroundRepeats: set<string> := {"no-repeat", "repeat", "repeat-x", "repeat-y"}
  const BackgroundPositions: set<string> := {"top", "right", "left", "bottom", "center"}

  predicate ValidPicker(p: PickerValue) {
    p.ImageFill? ==>
      p.backgroundSize in BackgroundSizes &&
      p.backgroundRepeat in BackgroundRepeats &&
      p.backgroundPosition in BackgroundPositions
  }

  // ---- encoding -------------------------------------------------------------

  function EncodeColor(c: ColorValue): Value {
    Obj(map["type" := Str("color"), "color" := Str(c.color), "opacity" := Number(c.opacity)])
  }

  function EncodeStop(s: GradientStop): Value {
    Obj(map["color" := Str(s.color), "position" := Number(s.position), "opacity" := Number(s.opacity)])
  }

  function EncodeStops(stops: seq<GradientStop>): (r: seq<Value>)
    ensures |r| == |stops|
    ensures forall i :: 0 <= i < |stops| ==> r[i] == EncodeStop(stops[i])
  {
    if stops == [] then [] else [EncodeStop(stops[0])] + EncodeStops(stops[1..])
  }

  function EncodePicker(p: PickerValue): Value {
    match p
    case ColorFill(c) => EncodeColor(c)
    case GradientFill(Linear(angle), stops) =>
      Obj(map["type" := Str("gradient"), "stops" := Arr(EncodeStops(stops)),
               "gradientType" := Str("linear"), "angle" := Number(angle)])
    case GradientFill(Radial, stops) =>
      Obj(map["type" := Str("gradient"), "stops" := Arr(EncodeStops(stops)),
               "gradientType" := Str("radial")])
    case ImageFill(url, size, repeat, position) =>
      Obj(map["type" := Str("image"), "url" := Str(url), "backgroundSize" := Str(size),
               "backgroundRepeat" := Str(repeat), "backgroundPosition" := Str(position)])
  }

  // ---- decoding (the zod parse; unknown keys are stripped) ------------------

  function DecodeColor(v: Value): (r: Option<ColorValue>)
    ensures r.Some? ==> v.Obj? && TagIs(v.fields, "type", "color")
  {
    var o :- AsObject(v);
    if !TagIs(o, "type", "color") then None
    else
      var color :- StringField(o, "color");
      var opacity :- NumberField(o, "opacity");
      Some(ColorValue(color, opacity))
  }

  function DecodeStop(v: Value): Option<GradientStop> {
    var o :- AsObject(v);
    var color :- StringField(o, "color");
    var position :- NumberField(o, "position");
    var opacity :- NumberField(o, "opacity");
    Some(GradientStop(color, position, opacity))
  }

  function DecodeStops(vs: seq<Value>): (r: Option<seq<GradientStop>>)
    ensures r.Some? ==> |r.value| == |vs|
  {
    if vs == [] then Some([])
    else
      var head :- DecodeStop(vs[0]);
      var tail :- DecodeStops(vs[1..]);
      Some([head] + tail)
  }

  /** The intersection of `{type: 'gradient', stops}` with the linear-or-radial union. */
  function DecodeGradient(o: map<string, Value>): Option<PickerValue> {
    if !TagIs(o, "type", "gradient") || !("stops" in o && o["stops"].Arr?) then None
    else
      var stops :- DecodeStops(o["stops"].items);
      if TagIs(o, "gradientType", "linear") && "angle" in o && o["angle"].Number? then
        Some(GradientFill(Linear(o["angle"].n), stops))
      else if TagIs(o, "gradientType", "radial") then
        Some(GradientFill(Radial, stops))
      else None
  }

  function DecodeImage(o: map<string, Value>): Option<PickerValue> {
    if !TagIs(o, "type", "image") then None
    else
      var url :- StringField(o, "url");
      var size :- EnumField(o, "backgroundSize", BackgroundSizes);
      var repeat :- EnumField(o, "backgroundRepeat", BackgroundRepeats);
      var position :- EnumField(o, "backgroundPosition", BackgroundPositions);
      Some(ImageFill(url, size, repeat, position))
  }

  /** `z.union([color, gradient, image])`: the first alternative that parses wins. */
  function DecodePicker(v: Value): (r: Option<PickerValue>)
    ensures r.Some? ==> ValidPicker(r.value)
  {
    var o :- AsObject(v);
    match DecodeColor(v)
    case Some(c) => Some(ColorFill(c))
    case None =>
      match DecodeGradient(o)
      case Some(g) => Some(g)
      case None => DecodeImage(o)
  }

  // ---- round trips ------------------------------------------------------------

  lemma ColorRoundTrip(c: ColorValue)
    ensures DecodeColor(EncodeColor(c)) == Some(c)
  {
  }

  lemma {:induction false} StopsRoundTrip(stops: seq<GradientStop>)
    ensures DecodeStops(EncodeStops(stops)) == Some(stops)
  {
    if stops != [] {
      var e := EncodeStops(stops);
      assert e[0] == EncodeStop(stops[0]);
      assert e[1..] == EncodeStops(stops[1..]);
      StopsRoundTrip(stops[1..]);
      assert [stops[0]] + stops[1..] == stops;
    }
  }

  lemma GradientRoundTrip(p: PickerValue)
    requires p.GradientFill?
    ensures DecodeColor(EncodePicker(p)).None?
    ensures DecodeGradient(EncodePicker(p).fields) == Some(p)
  {
    StopsRoundTrip(p.stops);
  }

  lemma ImageRoundTrip(p: PickerValue)
    requires p.ImageFill? && ValidPicker(p)
    ensures DecodeColor(EncodePicker(p)).None?
    ensures DecodeGradient(EncodePicker(p).fields).None?
    ensures DecodeImage(EncodePicker(p).fields) == Some(p)
  {
  }

  /** Every valid picker value survives encoding and parsing unchanged. */
  lemma PickerRoundTrip(p: PickerValue)
    requires ValidPicker(p)
    ensures DecodePicker(EncodePicker(p)) == Some(p)
  {
    match p
    case ColorFill(c) =>
      ColorRoundTrip(c);
    case GradientFill(_, _) =>
      GradientRoundTrip(p);
    case ImageFill(_, _, _, _) =>
      ImageRoundTrip(p);
  }
}
