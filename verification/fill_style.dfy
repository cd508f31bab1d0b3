/**
 * `generateGradientValue`, `generateColorValue` and `generateShadowStyles`,
 * nested in `generateElementStyle` of src/lib/layout/styles.ts: how a picker
 * value and a shadow list print as CSS text.
 */
module FillStyle {
  import opened Common
  import opened Css
  import opened ColorConfig
  import opened StyleConfig

  // ---- sorting the stops ----------------------------------------------------------

  predicate Sorted(s: seq<GradientStop>) {
    forall i, j :: 0 <= i < j < |s| ==> s[i].position <= s[j].position
  }

  /** Stops at the same position are the same stop. */
  predicate DistinctPositions(s: seq<GradientStop>) {
    forall x, y :: x in s && y in s && x.position == y.position ==> x == y
  }

  /** Inserts `x` after every stop at or before its position (which keeps the sort stable). */
  function Insert(s: seq<GradientStop>, x: GradientStop): (r: seq<GradientStop>)
    ensures multiset(r) == multiset(s) + multiset{x}
  {
    if s == [] then [x]
    else if x.position < s[0].position then [x] + s
    else
      assert s == [s[0]] + s[1..];
      [s[0]] + Insert(s[1..], x)
  }

  /** A lower bound on the positions of the list and of `x` bounds the positions after the insertion. */
  lemma InsertLowerBound(s: seq<GradientStop>, x: GradientStop, b: real)
    requires forall i :: 0 <= i < |s| ==> b <= s[i].position
    requires b <= x.position
    ensures forall i :: 0 <= i < |Insert(s, x)| ==> b <= Insert(s, x)[i].position
  {
    var r := Insert(s, x);
    forall i | 0 <= i < |r|
      ensures b <= r[i].position
    {
      assert r[i] in multiset(r);
      if r[i] != x {
        assert r[i] in multiset(s);
        var k :| 0 <= k < |s| && s[k] == r[i];
      }
    }
  }

  /** Inserting into a sorted list keeps it sorted. */
  lemma {:induction false} InsertSorted(s: seq<GradientStop>, x: GradientStop)
    requires Sorted(s)
    ensures Sorted(Insert(s, x))
  {
    if s != [] && x.position >= s[0].position {
      var rest := Insert(s[1..], x);
      InsertSorted(s[1..], x);
      InsertLowerBound(s[1..], x, s[0].position);
      var r := [s[0]] + rest;
      forall i, j | 0 <= i < j < |r|
        ensures r[i].position <= r[j].position
      {
        if i == 0 {
          assert r[j] == rest[j - 1];
        } else {
          assert r[i] == rest[i - 1] && r[j] == rest[j - 1];
        }
      }
    }
  }

  /** `[...stops].sort((a, b) => a.position - b.position)`. */
  function SortStops(stops: seq<GradientStop>): (r: seq<GradientStop>)
    ensures Sorted(r)
    ensures multiset(r) == multiset(stops)
    decreases |stops|
  {
    if stops == [] then []
    else
      var init := stops[..|stops| - 1];
      assert stops == init + [stops[|stops| - 1]];
      InsertSorted(SortStops(init), stops[|stops| - 1]);
      Insert(SortStops(init), stops[|stops| - 1])
  }

  /** The first stops of two sorted orderings of the same stops with distinct positions agree. */
  lemma HeadsAgree(a: seq<GradientStop>, b: seq<GradientStop>)
    requires Sorted(a) && Sorted(b) && multiset(a) == multiset(b) && DistinctPositions(a)
    requires |a| > 0 && |b| > 0
    ensures a[0] == b[0]
  {
    assert a[0] in multiset(b);
    var k :| 0 <= k < |b| && b[k] == a[0];
    assert b[0] in multiset(a);
    var m :| 0 <= m < |a| && a[m] == b[0];
    assert a[0].position <= a[m].position;
    assert b[0].position <= b[k].position;
  }

  lemma TailsArePermutations(a: seq<GradientStop>, b: seq<GradientStop>)
    requires |a| > 0 && |b| > 0 && a[0] == b[0] && multiset(a) == multiset(b)
    ensures multiset(a[1..]) == multiset(b[1..])
  {
    assert a == [a[0]] + a[1..];
    assert b == [b[0]] + b[1..];
    assert multiset(a[1..]) == multiset(a) - multiset{a[0]};
    assert multiset(b[1..]) == multiset(b) - multiset{b[0]};
  }

  /** Two sorted orderings of the same stops with distinct positions are one and the same. */
  lemma {:induction false} SortedUnique(a: seq<GradientStop>, b: seq<GradientStop>)
    requires Sorted(a) && Sorted(b) && multiset(a) == multiset(b) && DistinctPositions(a)
    ensures a == b
    decreases |a|
  {
    SameLength(a, b);
    if |a| > 0 {
      HeadsAgree(a, b);
      TailsArePermutations(a, b);
      TailKeepsOrder(a);
      TailKeepsOrder(b);
      TailKeepsDistinct(a);
      SortedUnique(a[1..], b[1..]);
      SameHeadAndTail(a, b);
    }
  }

  lemma SameLength(a: seq<GradientStop>, b: seq<GradientStop>)
    requires multiset(a) == multiset(b)
    ensures |a| == |b|
  {
    assert |a| == |multiset(a)| == |multiset(b)| == |b|;
  }

  lemma SameHeadAndTail(a: seq<GradientStop>, b: seq<GradientStop>)
    requires |a| > 0 && |b| > 0 && a[0] == b[0] && a[1..] == b[1..]
    ensures a == b
  {
    assert a == [a[0]] + a[1..];
    assert b == [b[0]] + b[1..];
  }

  lemma TailKeepsOrder(s: seq<GradientStop>)
    requires |s| > 0 && Sorted(s)
    ensures Sorted(s[1..])
  {
  }

  lemma TailKeepsDistinct(s: seq<GradientStop>)
    requires |s| > 0 && DistinctPositions(s)
    ensures DistinctPositions(s[1..])
  {
    forall x, y | x in s[1..] && y in s[1..] && x.position == y.position
      ensures x == y
    {
      assert x in s && y in s;
    }
  }

  lemma DistinctUnderPermutation(a: seq<GradientStop>, b: seq<GradientStop>)
    requires multiset(a) == multiset(b) && DistinctPositions(a)
    ensures DistinctPositions(b)
  {
    forall x, y | x in b && y in b && x.position == y.position
      ensures x == y
    {
      assert x in multiset(b) && y in multiset(b);
    }
  }

  // ---- generateGradientValue --------------------------------------------------------

  /** `${Color(color).alpha(opacity / 100).rgb()}`. */
  function ColorPiece(c: ColorValue): Piece {
    Rgba(c.color, c.opacity / 100.0)
  }

  /** One stop: its colour at its opacity, then `<position>%`. */
  function StopText(s: GradientStop): Text {
    [Rgba(s.color, s.opacity / 100.0), Lit(" "), Num(s.position), Lit("%")]
  }

  function StopTexts(stops: seq<GradientStop>): (r: seq<Text>)
    ensures |r| == |stops|
    ensures forall i :: 0 <= i < |stops| ==> r[i] == StopText(stops[i])
  {
    if stops == [] then [] else [StopText(stops[0])] + StopTexts(stops[1..])
  }

  const Comma: Text := [Lit(", ")]

  /** `generateGradientValue(value)`: the stops in ascending position, joined by `", "`. */
  function GenerateGradientValue(kind: GradientKind, stops: seq<GradientStop>): Text {
    var body := Join(StopTexts(SortStops(stops)), Comma);
    match kind
    case Linear(angle) => [Lit("linear-gradient("), Num(angle), Lit("deg, ")] + body + [Lit(")")]
    case Radial => [Lit("radial-gradient(circle, ")] + body + [Lit(")")]
  }

  /**
   * Stops are sorted before printing, so when no two stops share a position
   * the order they are stored in does not matter.
   */
  lemma GradientIgnoresStopOrder(kind: GradientKind, s1: seq<GradientStop>, s2: seq<GradientStop>)
    requires multiset(s1) == multiset(s2) && DistinctPositions(s1)
    ensures GenerateGradientValue(kind, s1) == GenerateGradientValue(kind, s2)
  {
    var a := SortStops(s1);
    var b := SortStops(s2);
    DistinctUnderPermutation(s1, a);
    SortedUnique(a, b);
  }

  // ---- generateColorValue -------------------------------------------------------------

  /** `generateColorValue(config)`: undefined for no fill. */
  function GenerateColorValue(p: Option<PickerValue>): (r: Option<Text>)
    ensures r.Some? <==> p.Some?
  {
    match p
    case None => None
    case Some(ColorFill(c)) => Some([ColorPiece(c)])
    case Some(GradientFill(kind, stops)) => Some(GenerateGradientValue(kind, stops))
    case Some(ImageFill(url, size, repeat, position)) =>
      Some([Lit("url(\""), Lit(url), Lit("\") "), Lit(repeat), Lit(" "), Lit(position), Lit("/"), Lit(size)])
  }

  /** The fill kind a rendered value starts with. */
  function FillKindOf(t: Text): string {
    if t == [] then ""
    else match t[0]
      case Rgba(_, _) => "color"
      case Lit(s) =>
        if s == "url(\"" then "image"
        else if s == "linear-gradient(" || s == "radial-gradient(circle, " then "gradient"
        else ""
      case Num(_) => ""
  }

  /** The printed value determines which of the three fills it came from. */
  lemma FillKindRecovered(p: PickerValue)
    ensures FillKindOf(GenerateColorValue(Some(p)).value) ==
      (if p.ColorFill? then "color" else if p.GradientFill? then "gradient" else "image")
  {
  }

  // ---- generateShadowStyles -----------------------------------------------------------

  /** `${inset}${x}px ${y}px ${blur}px ${spread}px ${color}`. */
  function ShadowText(s: Shadow): (r: Text)
    ensures |r| > 0 && (r[0] == Lit("inset ") <==> s.position == Inner)
  {
    (if s.position == Inner then [Lit("inset ")] else []) +
    [Num(s.x), Lit("px "), Num(s.y), Lit("px "), Num(s.blur), Lit("px "), Num(s.spread), Lit("px "),
     ColorPiece(s.color)]
  }

  function ShadowTexts(l: seq<Shadow>): (r: seq<Text>)
    ensures |r| == |l|
    ensures forall i :: 0 <= i < |l| ==> r[i] == ShadowText(l[i])
  {
    if l == [] then [] else [ShadowText(l[0])] + ShadowTexts(l[1..])
  }

  /** `shadows.map(...).join(', ')`: every shadow in stored order. */
  function GenerateShadowStyles(l: seq<Shadow>): (r: Text)
    ensures l == [] ==> r == []
    ensures |l| == 1 ==> r == ShadowText(l[0])
  {
    Join(ShadowTexts(l), Comma)
  }

  /** Shadows keep their order: the rendering of a concatenation is the two renderings joined by `", "`. */
  lemma ShadowsKeepOrder(a: seq<Shadow>, b: seq<Shadow>)
    requires a != [] && b != []
    ensures GenerateShadowStyles(a + b) == GenerateShadowStyles(a) + Comma + GenerateShadowStyles(b)
  {
    assert ShadowTexts(a + b) == ShadowTexts(a) + ShadowTexts(b);
    JoinAppend(ShadowTexts(a), ShadowTexts(b), Comma);
  }
}
