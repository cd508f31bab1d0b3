/**
 * `filterConfig` and `generateFilterStyle` of src/lib/layout/filter-config.tsx.
 *
 * The filter is read by key presence (`'blur' in config`), so it is kept as the
 * object it is: a key may be missing, present with a number, or present with
 * `undefined`, and those three print differently.
 */
module FilterConfig {
  import opened Common
  import opened Json
  import opened Css
  import P = CssProps

  type FilterConfig = map<string, Value>

  const Blendings: set<string> := {
    "normal", "multiply", "screen", "overlay", "darken", "lighten", "color-dodge", "color-burn",
    "hard-light", "soft-light", "difference", "exclusion", "hue", "saturation", "color", "luminosity"}

  /** A numeric entry within `lo..hi`, or not given (every key is optional). */
  predicate InRange(f: FilterConfig, k: string, lo: real, hi: real) {
    Absent(f, k) || (f[k].Number? && lo <= f[k].n <= hi)
  }

  /** The zod bounds of `filterConfig`. */
  predicate ValidFilter(f: FilterConfig) {
    InRange(f, "contrast", 0.0, 200.0) &&
    (Absent(f, "blending") || (f["blending"].Str? && f["blending"].s in Blendings)) &&
    InRange(f, "blur", 0.0, 100.0) &&
    InRange(f, "bgBlur", 0.0, 100.0) &&
    InRange(f, "brightness", 0.0, 200.0) &&
    InRange(f, "grayscale", 0.0, 200.0) &&
    InRange(f, "hue", 0.0, 360.0) &&
    InRange(f, "invert", 0.0, 200.0) &&
    InRange(f, "saturate", 0.0, 200.0) &&
    InRange(f, "sepia", 0.0, 100.0)
  }

  /** The JSON form of an optional filter: `undefined` when not given. */
  function EncodeFilter(f: Option<FilterConfig>): Value {
    if f.Some? then Obj(f.value) else Undef
  }

  /** `filterConfig.optional()`: not given, or an object within the bounds. */
  function FilterField(o: map<string, Value>): (r: Option<Option<FilterConfig>>)
    ensures r == Some(None) <==> Absent(o, "filter")
    ensures r.Some? && r.value.Some? ==> ValidFilter(r.value.value)
  {
    if Absent(o, "filter") then Some(None)
    else if o["filter"].Obj? && ValidFilter(o["filter"].fields) then Some(Some(o["filter"].fields))
    else None
  }

  lemma EmptyFilterValid()
    ensures ValidFilter(map[])
  {
  }

  lemma FilterFieldOf(o: map<string, Value>, f: Option<FilterConfig>)
    requires f.Some? ==> ValidFilter(f.value)
    requires "filter" in o && o["filter"] == EncodeFilter(f)
    ensures FilterField(o) == Some(f)
  {
  }

  /** The eight chain functions in the order the composer appends them. */
  datatype FilterFn = Blur | Contrast | Brightness | Grayscale | Saturate | Invert | Sepia | HueRotate

  const FilterOrder: seq<FilterFn> := [Blur, Contrast, Brightness, Grayscale, Saturate, Invert, Sepia, HueRotate]

  /** The configuration key a chain function reads. */
  function FnKey(fn: FilterFn): string {
    match fn
    case Blur => "blur"
    case Contrast => "contrast"
    case Brightness => "brightness"
    case Grayscale => "grayscale"
    case Saturate => "saturate"
    case Invert => "invert"
    case Sepia => "sepia"
    case HueRotate => "hue"
  }

  /** The CSS function name; only `hue` is renamed. */
  function FnName(fn: FilterFn): string {
    if fn == HueRotate then "hue-rotate" else FnKey(fn)
  }

  /** Blur is in pixels, the hue in degrees, everything else in percent. */
  function FnUnit(fn: FilterFn): string {
    match fn
    case Blur => "px"
    case HueRotate => "deg"
    case _ => "%"
  }

  /** Numeric keys hold numbers (or `undefined`), `blending` a string: the TypeScript type. */
  predicate WellTyped(f: FilterConfig) {
    (forall fn: FilterFn :: FnKey(fn) in f ==> f[FnKey(fn)].Number? || f[FnKey(fn)].Undef?) &&
    ("bgBlur" in f ==> f["bgBlur"].Number? || f["bgBlur"].Undef?) &&
    ("blending" in f ==> f["blending"].Str? || f["blending"].Undef?)
  }

  lemma ValidIsWellTyped(f: FilterConfig)
    requires ValidFilter(f)
    ensures WellTyped(f)
  {
    forall fn: FilterFn | FnKey(fn) in f
      ensures f[FnKey(fn)].Number? || f[FnKey(fn)].Undef?
    {
      match fn
      case Blur =>
      case Contrast =>
      case Brightness =>
      case Grayscale =>
      case Saturate =>
      case Invert =>
      case Sepia =>
      case HueRotate =>
    }
  }

  /** `${x}` for a number or `undefined`. */
  function Interpolate(v: Value): (r: Piece)
    requires v.Number? || v.Undef?
    ensures v.Number? ==> r == Num(v.n)
    ensures v.Undef? ==> r == Lit("undefined")
  {
    if v.Number? then Num(v.n) else Lit("undefined")
  }

  /** ` name(<value><unit>)`, the text one chain function appends. */
  function Segment(f: FilterConfig, fn: FilterFn): Text
    requires FnKey(fn) in f && WellTyped(f)
  {
    [Lit(" " + FnName(fn) + "("), Interpolate(f[FnKey(fn)]), Lit(FnUnit(fn) + ")")]
  }

  /** The segment if the key is present, nothing otherwise. */
  function Step(f: FilterConfig, fn: FilterFn): (r: Text)
    requires WellTyped(f)
    ensures r == [] <==> FnKey(fn) !in f
  {
    if FnKey(fn) in f then Segment(f, fn) else []
  }

  /** `if (key in config) filterString = `${filterString} name(value unit)``. */
  function Append(s: Text, f: FilterConfig, fn: FilterFn): (r: Text)
    requires WellTyped(f)
    ensures r == s + Step(f, fn)
  {
    if FnKey(fn) in f then s + Segment(f, fn) else s
  }

  /** `filterString`, built by the eight appends in source order. */
  function FilterString(f: FilterConfig): Text
    requires WellTyped(f)
  {
    Append(Append(Append(Append(Append(Append(Append(Append([],
      f, Blur), f, Contrast), f, Brightness), f, Grayscale), f, Saturate), f, Invert), f, Sepia), f, HueRotate)
  }

  /** The table-driven reading: one step per function of `fns`, in order. */
  function Chain(f: FilterConfig, fns: seq<FilterFn>): Text
    requires WellTyped(f)
  {
    if fns == [] then [] else Chain(f, fns[..|fns| - 1]) + Step(f, fns[|fns| - 1])
  }

  /** The chain is empty exactly when none of its functions' keys is present. */
  lemma {:induction false} ChainEmpty(f: FilterConfig, fns: seq<FilterFn>)
    requires WellTyped(f)
    ensures Chain(f, fns) == [] <==> forall i :: 0 <= i < |fns| ==> FnKey(fns[i]) !in f
  {
    if fns != [] {
      var init := fns[..|fns| - 1];
      ChainEmpty(f, init);
      assert forall i :: 0 <= i < |init| ==> init[i] == fns[i];
    }
  }

  /** The chain never prints as the empty string once it holds a segment. */
  lemma {:induction false} ChainBlank(f: FilterConfig, fns: seq<FilterFn>)
    requires WellTyped(f)
    ensures Blank(Chain(f, fns)) <==> Chain(f, fns) == []
  {
    if fns != [] {
      var c := Chain(f, fns);
      var init := Chain(f, fns[..|fns| - 1]);
      var last := fns[|fns| - 1];
      if FnKey(last) in f {
        assert c[|init|] == Lit(" " + FnName(last) + "(");
        assert c[|init|] != Lit("");
      } else {
        assert c == init;
        ChainBlank(f, fns[..|fns| - 1]);
      }
    }
  }

  /** Extending the functions by one appends that function's step. */
  lemma ChainSnoc(f: FilterConfig, fns: seq<FilterFn>, n: nat)
    requires WellTyped(f) && n < |fns|
    ensures Chain(f, fns[..n + 1]) == Chain(f, fns[..n]) + Step(f, fns[n])
  {
    assert fns[..n + 1][..n] == fns[..n];
  }

  /** One more source append extends the chain over the first `n` functions by the next one. */
  lemma AppendExtendsChain(f: FilterConfig, s: Text, n: nat)
    requires WellTyped(f) && n < |FilterOrder|
    requires s == Chain(f, FilterOrder[..n])
    ensures Append(s, f, FilterOrder[n]) == Chain(f, FilterOrder[..n + 1])
  {
    ChainSnoc(f, FilterOrder, n);
  }

  /** Two more source appends extend the chain over the first `n` functions by the next two. */
  lemma TwoAppends(f: FilterConfig, c: Text, n: nat)
    requires WellTyped(f) && n + 2 <= |FilterOrder|
    requires c == Chain(f, FilterOrder[..n])
    ensures Append(Append(c, f, FilterOrder[n]), f, FilterOrder[n + 1]) == Chain(f, FilterOrder[..n + 2])
  {
    AppendExtendsChain(f, c, n);
    AppendExtendsChain(f, Append(c, f, FilterOrder[n]), n + 1);
  }

  /** Four more source appends, naming the next four functions, extend the chain by those four. */
  lemma FourAppends(f: FilterConfig, c: Text, n: nat, f0: FilterFn, f1: FilterFn, f2: FilterFn, f3: FilterFn)
    requires WellTyped(f) && n + 4 <= |FilterOrder|
    requires FilterOrder[n] == f0 && FilterOrder[n + 1] == f1 && FilterOrder[n + 2] == f2 && FilterOrder[n + 3] == f3
    requires c == Chain(f, FilterOrder[..n])
    ensures Append(Append(Append(Append(c, f, f0), f, f1), f, f2), f, f3) == Chain(f, FilterOrder[..n + 4])
  {
    TwoAppends(f, c, n);
    TwoAppends(f, Append(Append(c, f, f0), f, f1), n + 2);
  }

  /** The first four source appends build the chain over the first four functions. */
  lemma FirstFourAppends(f: FilterConfig)
    requires WellTyped(f)
    ensures Append(Append(Append(Append([], f, Blur), f, Contrast), f, Brightness), f, Grayscale)
            == Chain(f, FilterOrder[..4])
  {
    FourAppends(f, [], 0, Blur, Contrast, Brightness, Grayscale);
  }

  /** The last four source appends extend the chain over the first four functions to all eight. */
  lemma LastFourAppends(f: FilterConfig, c4: Text)
    requires WellTyped(f) && c4 == Chain(f, FilterOrder[..4])
    ensures Append(Append(Append(Append(c4, f, Saturate), f, Invert), f, Sepia), f, HueRotate)
            == Chain(f, FilterOrder)
  {
    FourAppends(f, c4, 4, Saturate, Invert, Sepia, HueRotate);
    assert FilterOrder[..8] == FilterOrder;
  }

  /** The appends in the source build exactly the table-driven chain over `FilterOrder`. */
  lemma FilterStringIsChain(f: FilterConfig)
    requires WellTyped(f)
    ensures FilterString(f) == Chain(f, FilterOrder)
  {
    FirstFourAppends(f);
    LastFourAppends(f, Append(Append(Append(Append([], f, Blur), f, Contrast), f, Brightness), f, Grayscale));
  }

  /** `blending ↦ mixBlendMode`: the value is copied, `undefined` included. */
  function BlendValue(v: Value): (r: Option<CssValue>)
    requires v.Str? || v.Undef?
    ensures r.Some? <==> v.Str?
    ensures v.Str? ==> r.value == Kw(v.s)
  {
    if v.Str? then Some(Kw(v.s)) else None
  }

  /** `generateFilterStyle(config)`: it writes filter properties only. */
  function GenerateFilterStyle(f: FilterConfig): (r: Decls)
    requires WellTyped(f)
    ensures forall k :: k in r ==> k.Effect?
  {
    var style: Decls := map[];
    var style := if "blending" in f then style[P.Effect(P.MixBlendMode) := BlendValue(f["blending"])] else style;
    var style := if "bgBlur" in f
      then style[P.Effect(P.BackdropFilter) := Some(Textual([Lit("blur("), Interpolate(f["bgBlur"]), Lit("px)")]))]
      else style;
    var filterString := FilterString(f);
    if !Blank(filterString) then style[P.Effect(P.Filter) := Some(Textual(filterString))] else style
  }

  /**
   * The blending is copied to `mixBlendMode` and the background blur becomes a
   * `blur(...px)` backdrop filter, each exactly when its key is present
   * (`undefined` included); `filter` holds the composed chain.
   */
  lemma FilterStyleLaw(f: FilterConfig)
    requires WellTyped(f)
    ensures P.Effect(P.MixBlendMode) in GenerateFilterStyle(f) <==> "blending" in f
    ensures "blending" in f ==> GenerateFilterStyle(f)[P.Effect(P.MixBlendMode)] == BlendValue(f["blending"])
    ensures P.Effect(P.BackdropFilter) in GenerateFilterStyle(f) <==> "bgBlur" in f
    ensures "bgBlur" in f ==>
      GenerateFilterStyle(f)[P.Effect(P.BackdropFilter)] ==
        Some(Textual([Lit("blur("), Interpolate(f["bgBlur"]), Lit("px)")]))
    ensures P.Effect(P.Filter) in GenerateFilterStyle(f) ==>
      GenerateFilterStyle(f)[P.Effect(P.Filter)] == Some(Textual(FilterString(f)))
  {
  }

  /**
   * The `filter` key is emitted exactly when one of the eight chain keys is
   * present, whatever its value (a 0 counts): presence, not truthiness.
   */
  lemma FilterEmittedIffAnyKey(f: FilterConfig)
    requires WellTyped(f)
    ensures P.Effect(P.Filter) in GenerateFilterStyle(f) <==> exists fn: FilterFn :: FnKey(fn) in f
  {
    FilterStringIsChain(f);
    ChainBlank(f, FilterOrder);
    ChainEmpty(f, FilterOrder);
    if exists fn: FilterFn :: FnKey(fn) in f {
      var fn: FilterFn :| FnKey(fn) in f;
      assert FilterOrder[FilterOrderIndex(fn)] == fn;
    }
  }

  /** Where each function sits in `FilterOrder`. */
  function FilterOrderIndex(fn: FilterFn): (i: nat)
    ensures i < |FilterOrder| && FilterOrder[i] == fn
  {
    match fn
    case Blur => 0
    case Contrast => 1
    case Brightness => 2
    case Grayscale => 3
    case Saturate => 4
    case Invert => 5
    case Sepia => 6
    case HueRotate => 7
  }

  /** An empty configuration produces an empty style. */
  lemma EmptyFilter()
    ensures GenerateFilterStyle(map[]) == map[]
  {
    FilterEmittedIffAnyKey(map[]);
  }
}
