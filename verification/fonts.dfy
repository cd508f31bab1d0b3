/**
 * The font helpers of src/lib/fonts/index.ts: looking a weight variant up,
 * the Google Fonts axis string of a weight, collecting the distinct
 * (family, weight) pairs a page uses, and the stylesheet URL for them.
 */
module Fonts {
  import opened Common
  import opened Json
  import opened TextConfig
  import ColorConfig
  import StyleConfig
  import LayoutConfig
  import SizeConfig
  import PositionConfig
  import FilterConfig
  import ElementShape
  import ImageConfig
  import IconConfig
  import Element

  // ---- getFontWeightAndStyle --------------------------------------------------

  /**
   * The members every plain object inherits from `Object.prototype`; the
   * JavaScript `in` operator finds them on `TEXT_WEIGHTS_CONFIG` too.
   */
  const PrototypeNames: set<string> := {
    "constructor", "hasOwnProperty", "isPrototypeOf", "propertyIsEnumerable",
    "toLocaleString", "toString", "valueOf", "__proto__",
    "__defineGetter__", "__defineSetter__", "__lookupGetter__", "__lookupSetter__"
  }

  /** What indexing the weight table yields: an own entry, or an inherited member. */
  datatype Lookup = Entry(config: TextWeightConfig) | Inherited(member: string)

  /**
   * `getFontWeightAndStyle(variant)` as written: `None` is the thrown
   * "Invalid font variant" error. The guard is `variant in TEXT_WEIGHTS_CONFIG`,
   * which also holds for inherited member names.
   */
  function GetFontWeightAndStyleAsWritten(variant: string): (r: Option<Lookup>)
    ensures r.Some? <==> variant in WeightNames || variant in PrototypeNames
    ensures r.Some? && r.value.Entry? <==> variant in WeightNames
    ensures r.Some? && r.value.Entry? ==> WeightName(WeightOf(variant).value) == variant &&
                                           r.value.config == TextWeightsConfig(WeightOf(variant).value)
  {
    match WeightOf(variant)
    case Some(w) => Some(Entry(TextWeightsConfig(w)))
    case None => if variant in PrototypeNames then Some(Inherited(variant)) else None
  }

  /** The guard lets `"toString"` through although no weight variant has that name. */
  lemma InheritedNamePassesGuard()
    ensures "toString" !in WeightNames
    ensures GetFontWeightAndStyleAsWritten("toString") == Some(Inherited("toString"))
  {
  }

  /**
   * `getFontWeightAndStyle(variant)` with the evidently intended own-key
   * guard: it throws (`None`) exactly for a string that names no variant.
   */
  function GetFontWeightAndStyle(variant: string): (r: Option<TextWeightConfig>)
    ensures r.Some? <==> variant in WeightNames
  {
    match WeightOf(variant)
    case Some(w) => Some(TextWeightsConfig(w))
    case None => None
  }

  /** Every variant's name looks up that variant's table entry. */
  lemma LookupByName(w: Weight)
    ensures GetFontWeightAndStyle(WeightName(w)) == Some(TextWeightsConfig(w))
  {
    WeightNameRoundTrip(w);
  }

  /** The corrected lookup agrees with the code wherever the code finds an own entry, and throws otherwise. */
  lemma LookupAgrees(variant: string)
    ensures GetFontWeightAndStyle(variant).Some? <==>
            GetFontWeightAndStyleAsWritten(variant).Some? && GetFontWeightAndStyleAsWritten(variant).value.Entry?
    ensures GetFontWeightAndStyle(variant).Some? ==>
            GetFontWeightAndStyleAsWritten(variant) == Some(Entry(GetFontWeightAndStyle(variant).value))
  {
  }

  // ---- getGoogleFontAxisPropertiesFromWeightAndStyle ------------------------

  /** Every table weight prints as its hundreds digit followed by `00`. */
  lemma HundredsString(k: nat)
    requires 1 <= k <= 9
    ensures NatString(100 * k) == [DigitChar(k), '0', '0']
  {
    assert (100 * k) / 10 == 10 * k && (100 * k) % 10 == 0;
    assert (10 * k) / 10 == k && (10 * k) % 10 == 0;
    assert NatString(k) == [DigitChar(k)];
    assert NatString(10 * k) == NatString(k) + [DigitChar(0)];
  }

  const ItalicAxis: string := "ital,wght@1,"
  const UprightAxis: string := "wght@"

  /** `getGoogleFontAxisPropertiesFromWeightAndStyle(config)`. */
  function Axis(c: TextWeightConfig): (r: string)
    ensures c.italic ==> |r| > |ItalicAxis| && r[..|ItalicAxis|] == ItalicAxis
    ensures !c.italic ==> |r| > |UprightAxis| && r[..|UprightAxis|] == UprightAxis
  {
    (if c.italic then ItalicAxis else UprightAxis) + NatString(c.fontWeight)
  }

  /** The three digits of a weight's axis string. */
  function AxisDigits(w: Weight): string {
    NatString(TextWeightsConfig(w).fontWeight)
  }

  /**
   * The axis of every variant is `ital,wght@1,` or `wght@` followed by three
   * digits, the first being the hundreds of its weight; an upright variant and
   * its italic counterpart carry the same digits.
   */
  lemma AxisForm(w: Weight)
    ensures var c := TextWeightsConfig(w);
      && |AxisDigits(w)| == 3
      && AxisDigits(w)[0] == DigitChar(c.fontWeight / 100)
      && AxisDigits(w)[1..] == "00"
      && Axis(c) == (if c.italic then ItalicAxis else UprightAxis) + AxisDigits(w)
    ensures !TextWeightsConfig(w).italic ==> AxisDigits(ItalicOf(w)) == AxisDigits(w)
  {
    FontWeightsAreHundreds(w);
    var fw := TextWeightsConfig(w).fontWeight;
    HundredsString(fw / 100);
    assert 100 * (fw / 100) == fw;
    if !TextWeightsConfig(w).italic {
      PairsShareWeight(w);
    }
  }

  // ---- generateGoogleFontsUrl ---------------------------------------------------

  /** `s.replace(/ /g, '+')`. */
  function PlusForSpace(s: string): (r: string)
    ensures |r| == |s|
    ensures forall i :: 0 <= i < |s| ==> r[i] == (if s[i] == ' ' then '+' else s[i])
  {
    if s == [] then [] else [if s[0] == ' ' then '+' else s[0]] + PlusForSpace(s[1..])
  }

  /** `FontFamilyData`. */
  datatype FontFamilyData = FontFamilyData(fontFamily: string, fontWeight: Weight)

  /** `family=<name with + for spaces>:<axis>`. */
  function FamilyParam(f: FontFamilyData): string {
    "family=" + PlusForSpace(f.fontFamily) + ":" + Axis(TextWeightsConfig(f.fontWeight))
  }

  function Params(fs: seq<FontFamilyData>): (r: seq<string>)
    ensures |r| == |fs|
    ensures forall i :: 0 <= i < |fs| ==> r[i] == FamilyParam(fs[i])
  {
    if fs == [] then [] else [FamilyParam(fs[0])] + Params(fs[1..])
  }

  /** `parts.join(sep)` for a one-character separator. */
  function JoinWith(parts: seq<string>, sep: char): string {
    if |parts| == 0 then ""
    else if |parts| == 1 then parts[0]
    else parts[0] + [sep] + JoinWith(parts[1..], sep)
  }

  /** `s.split(sep)`: the pieces between separators, in order. */
  function Split(s: string, sep: char): (r: seq<string>)
    ensures |r| >= 1
    decreases |s|
  {
    if sep !in s then [s]
    else
      var i := IndexOf(s, sep);
      [s[..i]] + Split(s[i + 1..], sep)
  }

  function IndexOf(s: string, c: char): (i: nat)
    requires c in s
    ensures i < |s| && s[i] == c
    ensures forall j :: 0 <= j < i ==> s[j] != c
  {
    if s[0] == c then 0
    else
      assert c in s[1..] by { var k :| 0 <= k < |s| && s[k] == c; assert s[1..][k - 1] == c; }
      var j := IndexOf(s[1..], c);
      assert forall k :: 1 <= k <= j ==> s[k] == s[1..][k - 1];
      j + 1
  }

  lemma IndexOfFirst(a: string, b: string, c: char)
    requires c !in a
    ensures c in a + [c] + b && IndexOf(a + [c] + b, c) == |a|
  {
    var s := a + [c] + b;
    assert s[|a|] == c;
    assert forall j :: 0 <= j < |a| ==> s[j] == a[j];
    var i := IndexOf(s, c);
  }

  /** Splitting at the first separator peels off the piece before it. */
  lemma SplitFirst(a: string, b: string, c: char)
    requires c !in a
    ensures Split(a + [c] + b, c) == [a] + Split(b, c)
  {
    var s := a + [c] + b;
    IndexOfFirst(a, b, c);
    assert s[..|a|] == a;
    assert s[|a| + 1..] == b;
  }

  /** Splitting a join recovers the parts, when no part contains the separator. */
  lemma {:induction false} SplitJoin(parts: seq<string>, sep: char)
    requires |parts| >= 1
    requires forall i :: 0 <= i < |parts| ==> sep !in parts[i]
    ensures Split(JoinWith(parts, sep), sep) == parts
    decreases |parts|
  {
    if |parts| > 1 {
      var rest := JoinWith(parts[1..], sep);
      assert JoinWith(parts, sep) == parts[0] + [sep] + rest;
      SplitFirst(parts[0], rest, sep);
      assert forall i :: 0 <= i < |parts[1..]| ==> parts[1..][i] == parts[i + 1];
      SplitJoin(parts[1..], sep);
      assert [parts[0]] + parts[1..] == parts;
    }
  }

  const GoogleFontsBase: string := "https://fonts.googleapis.com/css2"

  /** `generateGoogleFontsUrl(fontFamilies)`. */
  function GenerateGoogleFontsUrl(fs: seq<FontFamilyData>): (r: string)
    ensures fs == [] <==> r == ""
  {
    if |fs| == 0 then "" else GoogleFontsBase + "?" + JoinWith(Params(fs), '&')
  }

  /** Replacing spaces introduces no `&`. */
  lemma PlusForSpaceKeeps(s: string)
    requires '&' !in s
    ensures '&' !in PlusForSpace(s)
  {
    var p := PlusForSpace(s);
    assert forall i :: 0 <= i < |p| ==> p[i] != '&';
  }

  lemma DigitsOnly(n: nat)
    ensures '&' !in NatString(n)
  {
    var d := NatString(n);
    assert forall i :: 0 <= i < |d| ==> d[i] != '&';
  }

  /** A `family=` parameter contains no `&` when the family name does not. */
  lemma ParamHasNoAmpersand(f: FontFamilyData)
    requires '&' !in f.fontFamily
    ensures '&' !in FamilyParam(f)
  {
    var c := TextWeightsConfig(f.fontWeight);
    PlusForSpaceKeeps(f.fontFamily);
    DigitsOnly(c.fontWeight);
    var head := if c.italic then ItalicAxis else UprightAxis;
    assert '&' !in head;
    assert '&' !in "family=" && '&' !in ":";
  }

  /**
   * A non-empty URL is the stylesheet base, `?`, and then one `family=`
   * parameter per entry, in input order, separated by `&`: splitting the
   * query on `&` gives the parameters back.
   */
  lemma UrlLaw(fs: seq<FontFamilyData>)
    requires fs != []
    requires forall i :: 0 <= i < |fs| ==> '&' !in fs[i].fontFamily
    ensures var r := GenerateGoogleFontsUrl(fs);
      && |r| > |GoogleFontsBase| + 1
      && r[..|GoogleFontsBase| + 1] == GoogleFontsBase + "?"
      && Split(r[|GoogleFontsBase| + 1..], '&') == Params(fs)
  {
    var ps := Params(fs);
    forall i | 0 <= i < |ps|
      ensures '&' !in ps[i]
    {
      ParamHasNoAmpersand(fs[i]);
    }
    SplitJoin(ps, '&');
    var r := GenerateGoogleFontsUrl(fs);
    var q := JoinWith(ps, '&');
    assert r == (GoogleFontsBase + "?") + q;
    assert |q| > 0 by { JoinStartsWithFirst(ps, '&'); }
  }

  lemma {:induction false} JoinStartsWithFirst(parts: seq<string>, sep: char)
    requires |parts| >= 1
    ensures |JoinWith(parts, sep)| >= |parts[0]| && JoinWith(parts, sep)[..|parts[0]|] == parts[0]
  {
  }

  // ---- gatherAllFonts ---------------------------------------------------------

  /**
   * A collected pair, as `JSON.parse(JSON.stringify({fontFamily, fontWeight}))`
   * gives it back; the values are whatever the layout held.
   */
  datatype FontPair = FontPair(family: Value, weight: Value)

  /** `fontWeight ?? 'regular'`. */
  function WeightOrRegular(t: map<string, Value>): Value {
    if "fontWeight" in t && !t["fontWeight"].Undef? && !t["fontWeight"].Null? then t["fontWeight"]
    else Str("regular")
  }

  /**
   * The font a truthy layout contributes: `Some(None)` when it has no `text`
   * key or its text has no `fontFamily` key, and `None` for the `TypeError`
   * the `in` operator throws on a primitive (a primitive layout, or a `text`
   * key holding a primitive).
   */
  function FontOf(layout: Value): (r: Option<Option<FontPair>>)
    ensures r.Some? && r.value.Some? <==>
            layout.Obj? && "text" in layout.fields && layout.fields["text"].Obj? &&
            "fontFamily" in layout.fields["text"].fields
    ensures r.Some? && r.value.Some? ==>
            r.value.value.family == layout.fields["text"].fields["fontFamily"] &&
            !r.value.value.weight.Undef? && !r.value.value.weight.Null?
  {
    match layout
    case Obj(o) =>
      if "text" !in o then Some(None)
      else
        (match o["text"]
         case Obj(t) =>
           if "fontFamily" in t then Some(Some(FontPair(t["fontFamily"], WeightOrRegular(t)))) else Some(None)
         case Arr(_) => Some(None)
         case _ => None)
    case Arr(_) => Some(None)
    case _ => None
  }

  /** `Object.values(value)` of one element's responsive layout. */
  function Tiers(r: Element.ResponsiveLayout): seq<Value> {
    [Element.EncodeLayout(r.desktop), r.tablet, r.mobile]
  }

  function KeepTruthy(vs: seq<Value>): (r: seq<Value>)
    ensures forall v :: v in r <==> v in vs && Truthy(v)
  {
    if vs == [] then [] else (if Truthy(vs[0]) then [vs[0]] else []) + KeepTruthy(vs[1..])
  }

  /** Filtering a concatenation filters each part and keeps the parts in order. */
  lemma {:induction false} KeepTruthyAppend(a: seq<Value>, b: seq<Value>)
    ensures KeepTruthy(a + b) == KeepTruthy(a) + KeepTruthy(b)
  {
    if a != [] {
      var h := if Truthy(a[0]) then [a[0]] else [];
      assert (a + b)[0] == a[0] && (a + b)[1..] == a[1..] + b;
      KeepTruthyAppend(a[1..], b);
      assert KeepTruthy(a + b) == h + (KeepTruthy(a[1..]) + KeepTruthy(b));
      assert KeepTruthy(a) == h + KeepTruthy(a[1..]);
    } else {
      assert a + b == b;
    }
  }

  /**
   * `Object.entries(config).flatMap(([_, value]) => Object.values(value)).filter(Boolean)`,
   * filtered element by element: every truthy tier of every element, and nothing else.
   */
  function Layouts(entries: seq<Element.ResponsiveLayout>): (r: seq<Value>)
    ensures forall v :: v in r <==> Truthy(v) && exists i :: 0 <= i < |entries| && v in Tiers(entries[i])
  {
    if entries == [] then []
    else
      assert forall i :: 1 <= i < |entries| ==> entries[i] == entries[1..][i - 1];
      KeepTruthy(Tiers(entries[0])) + Layouts(entries[1..])
  }

  /** `Object.entries(config).flatMap(([_, value]) => Object.values(value))`: all tiers, element after element. */
  function AllTiers(entries: seq<Element.ResponsiveLayout>): (r: seq<Value>)
    ensures |r| == 3 * |entries|
  {
    if entries == [] then [] else Tiers(entries[0]) + AllTiers(entries[1..])
  }

  /** `Layouts` is the source's flatMap followed by one `filter(Boolean)`, in the same order. */
  lemma {:induction false} LayoutsFilterFlatMap(entries: seq<Element.ResponsiveLayout>)
    ensures Layouts(entries) == KeepTruthy(AllTiers(entries))
  {
    if entries != [] {
      LayoutsFilterFlatMap(entries[1..]);
      KeepTruthyAppend(Tiers(entries[0]), AllTiers(entries[1..]));
    }
  }

  /** The pairs the loop adds, in order, or `None` if some layout throws. */
  function Pairs(layouts: seq<Value>): (r: Option<seq<FontPair>>)
    ensures r.None? <==> exists i :: 0 <= i < |layouts| && FontOf(layouts[i]).None?
  {
    if layouts == [] then Some([])
    else
      var tail := Pairs(layouts[1..]);
      match FontOf(layouts[0])
      case None => None
      case Some(None) => tail
      case Some(Some(p)) => if tail.Some? then Some([p] + tail.value) else None
  }

  predicate Distinct<T(==)>(xs: seq<T>) {
    forall i, j :: 0 <= i < j < |xs| ==> xs[i] != xs[j]
  }

  function FirstIndex<T(==)>(xs: seq<T>, x: T): (i: nat)
    requires x in xs
    ensures i < |xs| && xs[i] == x
    ensures forall j :: 0 <= j < i ==> xs[j] != x
  {
    if xs[0] == x then 0
    else
      assert x in xs[1..] by { var k :| 0 <= k < |xs| && xs[k] == x; assert xs[1..][k - 1] == x; }
      FirstIndex(xs[1..], x) + 1
  }

  /** An element missing from the prefix before `n` first occurs at `n`. */
  lemma FirstOccurrence<T>(xs: seq<T>, n: nat)
    requires n < |xs| && xs[n] !in xs[..n]
    ensures FirstIndex(xs, xs[n]) == n
  {
  }

  /**
   * Adding every element to a `Set` and reading it back with `Array.from`:
   * each element once, in the order of its first occurrence.
   */
  method Dedup<T(==)>(xs: seq<T>) returns (r: seq<T>)
    ensures Distinct(r)
    ensures forall x :: x in r <==> x in xs
    ensures forall i, j :: 0 <= i < j < |r| ==> FirstIndex(xs, r[i]) < FirstIndex(xs, r[j])
  {
    r := [];
    var n := 0;
    while n < |xs|
      invariant n <= |xs|
      invariant Distinct(r)
      invariant forall x :: x in r <==> x in xs[..n]
      invariant forall k :: 0 <= k < |r| ==> r[k] in xs && FirstIndex(xs, r[k]) < n
      invariant forall i, j :: 0 <= i < j < |r| ==> FirstIndex(xs, r[i]) < FirstIndex(xs, r[j])
    {
      var x := xs[n];
      assert xs[..n + 1] == xs[..n] + [x];
      if x !in r {
        FirstOccurrence(xs, n);
        r := r + [x];
      }
      n := n + 1;
    }
    assert xs[..n] == xs;
  }

  /**
   * `gatherAllFonts(config)` over the elements in entry order: `None` when a
   * layout makes the `in` operator throw, otherwise the distinct pairs in the
   * order they first occur.
   */
  method GatherAllFonts(entries: seq<Element.ResponsiveLayout>) returns (r: Option<seq<FontPair>>)
    ensures r.None? <==> exists v :: v in Layouts(entries) && FontOf(v).None?
    ensures r.Some? ==> Pairs(Layouts(entries)).Some?
    ensures r.Some? ==> var ps := Pairs(Layouts(entries)).value;
      && Distinct(r.value)
      && (forall p :: p in r.value <==> p in ps)
      && (forall i, j :: 0 <= i < j < |r.value| ==> FirstIndex(ps, r.value[i]) < FirstIndex(ps, r.value[j]))
  {
    var layouts := Layouts(entries);
    var pairs := Pairs(layouts);
    if pairs.None? {
      return None;
    }
    var d := Dedup(pairs.value);
    r := Some(d);
  }

  /** A shape object whose part sits under another key has no `text` key. */
  lemma ShapeWithoutText(tag: string, size: Value, position: Value, partKey: string, part: Value,
                         style: Value, filter: Value)
    requires partKey !in {"type", "size", "position", "style", "filter", "text"}
    ensures FontOf(Obj(ElementShape.ShapeObject(tag, size, position, partKey, part, style, filter))) == Some(None)
  {
  }

  /** A shape object whose `text` part is an object without a `fontFamily` key. */
  lemma ShapeTextWithoutFamily(tag: string, size: Value, position: Value, part: map<string, Value>,
                               style: Value, filter: Value)
    requires "fontFamily" !in part
    ensures FontOf(Obj(ElementShape.ShapeObject(tag, size, position, "text", Obj(part), style, filter))) == Some(None)
  {
    ElementShape.ShapeLookups(tag, size, position, "text", Obj(part), style, filter);
  }

  /** A shape object whose `text` part is an object with a `fontFamily` key. */
  lemma ShapeTextWithFamily(tag: string, size: Value, position: Value, part: map<string, Value>,
                            style: Value, filter: Value)
    requires "fontFamily" in part
    ensures FontOf(Obj(ElementShape.ShapeObject(tag, size, position, "text", Obj(part), style, filter))) ==
            Some(Some(FontPair(part["fontFamily"], WeightOrRegular(part))))
  {
    ElementShape.ShapeLookups(tag, size, position, "text", Obj(part), style, filter);
  }

  lemma TextFont(c: TextStyleConfig)
    ensures FontOf(EncodeTextStyle(c)) == Some(Some(FontPair(Str(c.text.fontFamily), Str(WeightName(c.text.fontWeight)))))
  {
    var t := c.text;
    TextObjectLookups(Number(t.fontSize), Number(t.lineHeight), Number(t.letterSpacing), Str(t.textAlign),
                      Str(WeightName(t.fontWeight)), Str(t.fontFamily), ColorConfig.EncodeColor(t.color),
                      Str(t.textTransform), Str(t.textDecoration));
    ShapeTextWithFamily("text", SizeConfig.EncodeSize(c.size), PositionConfig.EncodePosition(c.position),
                        EncodeText(t).fields, StyleConfig.EncodeStyle(c.style), FilterConfig.EncodeFilter(c.filter));
  }

  /**
   * A desktop layout contributes a font exactly when it is a text layout:
   * its family, and its weight variant's name. An icon's `text` part holds
   * only a colour.
   */
  lemma DesktopFont(l: Element.ElementLayout)
    ensures l.TextLayout? ==>
            FontOf(Element.EncodeLayout(l)) ==
            Some(Some(FontPair(Str(l.text.text.fontFamily), Str(WeightName(l.text.text.fontWeight)))))
    ensures !l.TextLayout? ==> FontOf(Element.EncodeLayout(l)) == Some(None)
  {
    match l
    case TextLayout(c) =>
      TextFont(c);
    case ContainerLayout(c) =>
      ShapeWithoutText("container", SizeConfig.EncodeSize(c.size), PositionConfig.EncodePosition(c.position),
                       "layout", LayoutConfig.EncodeLayout(c.layout), StyleConfig.EncodeStyle(c.style),
                       FilterConfig.EncodeFilter(c.filter));
    case ImageLayout(c) =>
      ShapeWithoutText("image", SizeConfig.EncodeSize(c.size), PositionConfig.EncodePosition(c.position),
                       "image", ImageConfig.EncodeImage(c.image), ImageConfig.EncodeRest(c.style),
                       FilterConfig.EncodeFilter(c.filter));
    case IconLayout(c) =>
      ShapeTextWithoutFamily("icon", SizeConfig.EncodeSize(c.size), PositionConfig.EncodePosition(c.position),
                             IconConfig.EncodeIconText(c.iconText).fields, IconConfig.EncodeRest(c.style),
                             FilterConfig.EncodeFilter(c.filter));
  }
}
