/**
 * `sizeConfig` of src/lib/layout/size-config.ts: a width, a height and an
 * ordered list of min/max constraints, each a size item.
 */
module SizeConfig {
  import opened Common
  import opened Json

  /** `fill`, `fixed`, `relative` and `viewport` carry a nullable-optional value; `auto` none. */
  datatype SizeItem =
    | Fill(value: Maybe)
    | Fixed(value: Maybe)
    | Relative(value: Maybe)
    | Viewport(value: Maybe)
    | Auto

  datatype Bound = MinWidth | MinHeight | MaxWidth | MaxHeight

  datatype MinMaxItem = MinMaxItem(bound: Bound, size: SizeItem)

  datatype SizeConfig = SizeConfig(width: SizeItem, height: SizeItem, minMax: seq<MinMaxItem>)

  const SizeTypes: set<string> := {"fill", "fixed", "relative", "viewport", "auto"}
  const Bounds: set<string> := {"min-width", "min-height", "max-width", "max-height"}

  /** The `type` discriminant of a size item. */
  function SizeType(s: SizeItem): (r: string)
    ensures r in SizeTypes
  {
    match s
    case Fill(_) => "fill"
    case Fixed(_) => "fixed"
    case Relative(_) => "relative"
    case Viewport(_) => "viewport"
    case Auto => "auto"
  }

  function BoundName(b: Bound): (r: string)
    ensures r in Bounds
  {
    match b
    case MinWidth => "min-width"
    case MinHeight => "min-height"
    case MaxWidth => "max-width"
    case MaxHeight => "max-height"
  }

  function BoundOf(name: string): (r: Bound)
    requires name in Bounds
    ensures BoundName(r) == name
  {
    if name == "min-width" then MinWidth
    else if name == "min-height" then MinHeight
    else if name == "max-width" then MaxWidth
    else MaxHeight
  }

  /**
   * `generateInitialSizeConfig(type)`: fill 1, relative 100, fixed 400,
   * viewport 100, and auto with no value.
   */
  function GenerateInitialSizeConfig(kind: string): (r: SizeItem)
    requires kind in SizeTypes
    ensures SizeType(r) == kind
    ensures r.Auto? || r.value.Defined?
  {
    if kind == "auto" then Auto
    else if kind == "fill" then Fill(Defined(1.0))
    else if kind == "relative" then Relative(Defined(100.0))
    else if kind == "fixed" then Fixed(Defined(400.0))
    else Viewport(Defined(100.0))
  }

  /** The default values, one per kind. */
  lemma InitialSizeValues()
    ensures GenerateInitialSizeConfig("fill") == Fill(Defined(1.0))
    ensures GenerateInitialSizeConfig("relative") == Relative(Defined(100.0))
    ensures GenerateInitialSizeConfig("fixed") == Fixed(Defined(400.0))
    ensures GenerateInitialSizeConfig("viewport") == Viewport(Defined(100.0))
    ensures GenerateInitialSizeConfig("auto") == Auto
  {
  }

  // ---- encoding -------------------------------------------------------------

  function EncodeSizeItem(s: SizeItem): Value {
    if s.Auto? then Obj(map["type" := Str("auto")])
    else Obj(map["type" := Str(SizeType(s)), "value" := MaybeJson(s.value)])
  }

  function EncodeMinMaxItem(m: MinMaxItem): Value {
    Obj(map["type" := Str(BoundName(m.bound)), "size" := EncodeSizeItem(m.size)])
  }

  function EncodeMinMax(l: seq<MinMaxItem>): (r: seq<Value>)
    ensures |r| == |l|
    ensures forall i :: 0 <= i < |l| ==> r[i] == EncodeMinMaxItem(l[i])
  {
    if l == [] then [] else [EncodeMinMaxItem(l[0])] + EncodeMinMax(l[1..])
  }

  function EncodeSize(s: SizeConfig): Value {
    Obj(map["width" := EncodeSizeItem(s.width), "height" := EncodeSizeItem(s.height),
            "minMax" := Arr(EncodeMinMax(s.minMax))])
  }

  // ---- decoding -------------------------------------------------------------

  /** `sizeItemConfig`, discriminated on `type`. */
  function DecodeSizeItem(v: Value): (r: Option<SizeItem>)
    ensures r.Some? ==> v.Obj? && TagIs(v.fields, "type", SizeType(r.value))
  {
    var o :- AsObject(v);
    if TagIs(o, "type", "auto") then Some(Auto)
    else
      var kind :- EnumField(o, "type", SizeTypes);
      var value :- NullableField(o, "value");
      Some(if kind == "fill" then Fill(value)
           else if kind == "fixed" then Fixed(value)
           else if kind == "relative" then Relative(value)
           else Viewport(value))
  }

  function DecodeMinMaxItem(v: Value): Option<MinMaxItem> {
    var o :- AsObject(v);
    var name :- EnumField(o, "type", Bounds);
    var size :- if "size" in o then DecodeSizeItem(o["size"]) else None;
    Some(MinMaxItem(BoundOf(name), size))
  }

  function DecodeMinMax(vs: seq<Value>): (r: Option<seq<MinMaxItem>>)
    ensures r.Some? ==> |r.value| == |vs|
  {
    if vs == [] then Some([])
    else
      var head :- DecodeMinMaxItem(vs[0]);
      var tail :- DecodeMinMax(vs[1..]);
      Some([head] + tail)
  }

  /** `sizeConfig`: width, height and minMax are all required. */
  function DecodeSize(v: Value): (r: Option<SizeConfig>)
    ensures r.Some? ==> v.Obj? && "width" in v.fields && "height" in v.fields && "minMax" in v.fields
  {
    var o :- AsObject(v);
    var width :- if "width" in o then DecodeSizeItem(o["width"]) else None;
    var height :- if "height" in o then DecodeSizeItem(o["height"]) else None;
    var minMax :- if "minMax" in o && o["minMax"].Arr? then DecodeMinMax(o["minMax"].items) else None;
    Some(SizeConfig(width, height, minMax))
  }

  // ---- round trips ------------------------------------------------------------

  lemma SizeItemRoundTrip(s: SizeItem)
    ensures DecodeSizeItem(EncodeSizeItem(s)) == Some(s)
  {
  }

  lemma MinMaxItemRoundTrip(m: MinMaxItem)
    ensures DecodeMinMaxItem(EncodeMinMaxItem(m)) == Some(m)
  {
    SizeItemRoundTrip(m.size);
  }

  lemma {:induction false} MinMaxRoundTrip(l: seq<MinMaxItem>)
    ensures DecodeMinMax(EncodeMinMax(l)) == Some(l)
  {
    if l != [] {
      var e := EncodeMinMax(l);
      assert e[1..] == EncodeMinMax(l[1..]);
      MinMaxItemRoundTrip(l[0]);
      MinMaxRoundTrip(l[1..]);
      assert [l[0]] + l[1..] == l;
    }
  }

  /** Every size configuration survives encoding and parsing unchanged. */
  lemma SizeRoundTrip(s: SizeConfig)
    ensures DecodeSize(EncodeSize(s)) == Some(s)
  {
    SizeItemRoundTrip(s.width);
    SizeItemRoundTrip(s.height);
    MinMaxRoundTrip(s.minMax);
  }

  /** The required `size` field of an element configuration. */
  function SizeField(o: map<string, Value>): Option<SizeConfig> {
    if "size" in o then DecodeSize(o["size"]) else None
  }
}
