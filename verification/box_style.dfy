/**
 * `generatePositionStyle`, `generateLayoutStyle`, `generatePaddingStyle`,
 * `generateMarginStyle` and `generateTransformStyles`, nested in
 * `generateElementStyle` of src/lib/layout/styles.ts, with the border and
 * opacity expressions of the rest styles.
 */
module BoxStyle {
  import opened Common
  import opened Css
  import opened StyleConfig
  import opened LayoutConfig
  import PositionConfig
  import P = CssProps

  // ---- generatePositionStyle -----------------------------------------------------

  const PositionKeys: set<P.Prop> := {P.Placing(P.Position), P.Placing(P.Top), P.Placing(P.Bottom), P.Placing(P.Left), P.Placing(P.Right)}

  /** `generatePositionStyle(config)`: the offsets are copied with `?? undefined`. */
  function GeneratePositionStyle(p: PositionConfig.Position): (r: Decls)
    ensures r.Keys <= PositionKeys
    ensures forall k :: k in r ==> k.Placing?
  {
    match p
    case Relative => map[P.Placing(P.Position) := Some(Kw("relative"))]
    case Placed(placement, top, left, bottom, right) =>
      map[P.Placing(P.Position) := Some(Kw(PositionConfig.PlacementName(placement))),
          P.Placing(P.Top) := NumberOrUnset(top), P.Placing(P.Bottom) := NumberOrUnset(bottom),
          P.Placing(P.Left) := NumberOrUnset(left), P.Placing(P.Right) := NumberOrUnset(right)]
  }

  /**
   * The CSS `position` keyword is the configuration's own `type`; a relative
   * position sets nothing else, and a placed one renders exactly its defined
   * offsets (a `null` offset is dropped like a missing one).
   */
  lemma PositionLaw(p: PositionConfig.Position)
    ensures GeneratePositionStyle(p)[P.Placing(P.Position)] == Some(Kw(PositionConfig.PositionType(p)))
    ensures p.Relative? ==> GeneratePositionStyle(p).Keys == {P.Placing(P.Position)}
    ensures p.Placed? ==> GeneratePositionStyle(p).Keys == PositionKeys
    ensures p.Placed? ==> (P.Placing(P.Top) in Rendered(GeneratePositionStyle(p)) <==> p.top.Defined?)
    ensures p.Placed? ==> (P.Placing(P.Left) in Rendered(GeneratePositionStyle(p)) <==> p.left.Defined?)
    ensures p.Placed? ==> (P.Placing(P.Bottom) in Rendered(GeneratePositionStyle(p)) <==> p.bottom.Defined?)
    ensures p.Placed? ==> (P.Placing(P.Right) in Rendered(GeneratePositionStyle(p)) <==> p.right.Defined?)
  {
  }

  // ---- generateLayoutStyle ---------------------------------------------------------

  /** `FLEX_DIRECTION[direction][directionReverse ?? false ? 'reverse' : 'default']`. */
  function FlexDirectionValue(direction: Direction, reverse: Option<bool>): string {
    var name := DirectionName(direction);
    if reverse.GetOr(false) then name + "-reverse" else name
  }

  /** Reads a `flex-direction` keyword back: the direction and whether it is reversed. */
  function ParseFlexDirection(s: string): Option<(Direction, bool)> {
    if s == "row" then Some((Row, false))
    else if s == "column" then Some((Column, false))
    else if s == "row-reverse" then Some((Row, true))
    else if s == "column-reverse" then Some((Column, true))
    else None
  }

  /** The flex direction keyword records the direction and the reversal, a missing one reading as not reversed. */
  lemma FlexDirectionRoundTrip(direction: Direction, reverse: Option<bool>)
    ensures ParseFlexDirection(FlexDirectionValue(direction, reverse)) == Some((direction, reverse.GetOr(false)))
  {
  }

  const LayoutKeys: set<P.Prop> :=
    {P.Arranging(P.Display), P.Arranging(P.FlexDirection), P.Arranging(P.AlignItems), P.Arranging(P.JustifyContent), P.Arranging(P.FlexWrap), P.Arranging(P.Gap),
     P.Arranging(P.GridTemplateColumns), P.Arranging(P.GridTemplateRows)}

  /** `repeat(${n}, minmax(0, 1fr))`. */
  function Tracks(n: real): CssValue {
    Textual([Lit("repeat("), Num(n), Lit(", minmax(0, 1fr))")])
  }

  /** `generateLayoutStyle(config)`. */
  function GenerateLayoutStyle(l: Layout): (r: Decls)
    ensures r.Keys <= LayoutKeys
    ensures P.Arranging(P.Display) in r
    ensures forall k :: k in r ==> k.Arranging?
  {
    match l
    case Flex(direction, reverse, align, justify, wrap, gap) =>
      map[P.Arranging(P.Display) := Some(Kw("flex")), P.Arranging(P.FlexDirection) := Some(Kw(FlexDirectionValue(direction, reverse))),
          P.Arranging(P.AlignItems) := Some(Kw(align)), P.Arranging(P.JustifyContent) := Some(Kw(justify)),
          P.Arranging(P.FlexWrap) := Some(Kw(wrap)), P.Arranging(P.Gap) := TruthyOrUnset(Defined(gap))]
    case Grid(columns, rows, gap, align) =>
      map[P.Arranging(P.Display) := Some(Kw("grid")), P.Arranging(P.GridTemplateColumns) := Some(Tracks(columns)),
          P.Arranging(P.GridTemplateRows) := Some(Tracks(rows)), P.Arranging(P.AlignItems) := Some(Kw(align)),
          P.Arranging(P.Gap) := TruthyOrUnset(gap)]
  }

  /** The layout's `type` is its `display`, and a zero gap is not rendered in either variant. */
  lemma LayoutLaw(l: Layout)
    ensures GenerateLayoutStyle(l)[P.Arranging(P.Display)] == Some(Kw(if l.Flex? then "flex" else "grid"))
    ensures l.Flex? ==> (P.Arranging(P.Gap) in Rendered(GenerateLayoutStyle(l)) <==> l.gap != 0.0)
    ensures l.Grid? ==> (P.Arranging(P.Gap) in Rendered(GenerateLayoutStyle(l)) <==> l.gridGap.Truthy())
    ensures l.Flex? ==> GenerateLayoutStyle(l)[P.Arranging(P.FlexDirection)] == Some(Kw(FlexDirectionValue(l.direction, l.directionReverse)))
    ensures GenerateLayoutStyle(l)[P.Arranging(P.AlignItems)] == Some(Kw(l.alignItems))
  {
  }

  // ---- padding, margin, borders --------------------------------------------------------

  const PaddingKeys: set<P.Prop> := {P.Boxing(P.PaddingTop), P.Boxing(P.PaddingRight), P.Boxing(P.PaddingBottom), P.Boxing(P.PaddingLeft)}
  const MarginKeys: set<P.Prop> := {P.Boxing(P.MarginTop), P.Boxing(P.MarginRight), P.Boxing(P.MarginBottom), P.Boxing(P.MarginLeft)}
  const BorderWidthKeys: set<P.Prop> := {P.Boxing(P.BorderTopWidth), P.Boxing(P.BorderRightWidth), P.Boxing(P.BorderBottomWidth), P.Boxing(P.BorderLeftWidth)}
  const BorderRadiusKeys: set<P.Prop> :=
    {P.Boxing(P.BorderTopLeftRadius), P.Boxing(P.BorderTopRightRadius), P.Boxing(P.BorderBottomRightRadius), P.Boxing(P.BorderBottomLeftRadius)}

  /** `generatePaddingStyle`: each side with `?? undefined`, so a 0 is kept. */
  function GeneratePaddingStyle(b: BBox): (r: Decls)
    ensures r.Keys == PaddingKeys
    ensures forall k :: k in r ==> k.Boxing?
  {
    map[P.Boxing(P.PaddingTop) := NumberOrUnset(b.top), P.Boxing(P.PaddingRight) := NumberOrUnset(b.right),
        P.Boxing(P.PaddingBottom) := NumberOrUnset(b.bottom), P.Boxing(P.PaddingLeft) := NumberOrUnset(b.left)]
  }

  /** `generateMarginStyle`: each side with `?? undefined`, so a 0 is kept. */
  function GenerateMarginStyle(b: BBox): (r: Decls)
    ensures r.Keys == MarginKeys
    ensures forall k :: k in r ==> k.Boxing?
  {
    map[P.Boxing(P.MarginTop) := NumberOrUnset(b.top), P.Boxing(P.MarginRight) := NumberOrUnset(b.right),
        P.Boxing(P.MarginBottom) := NumberOrUnset(b.bottom), P.Boxing(P.MarginLeft) := NumberOrUnset(b.left)]
  }

  /** The border widths, each with `|| undefined`, so a 0 is dropped. */
  function BorderWidthStyle(b: BBox): (r: Decls)
    ensures r.Keys == BorderWidthKeys
    ensures forall k :: k in r ==> k.Boxing?
  {
    map[P.Boxing(P.BorderTopWidth) := TruthyOrUnset(b.top), P.Boxing(P.BorderRightWidth) := TruthyOrUnset(b.right),
        P.Boxing(P.BorderBottomWidth) := TruthyOrUnset(b.bottom), P.Boxing(P.BorderLeftWidth) := TruthyOrUnset(b.left)]
  }

  /** The border radii, each with `|| undefined`, so a 0 is dropped. */
  function BorderRadiusStyle(c: Corners): (r: Decls)
    ensures r.Keys == BorderRadiusKeys
    ensures forall k :: k in r ==> k.Boxing?
  {
    map[P.Boxing(P.BorderTopLeftRadius) := TruthyOrUnset(c.topLeft), P.Boxing(P.BorderTopRightRadius) := TruthyOrUnset(c.topRight),
        P.Boxing(P.BorderBottomRightRadius) := TruthyOrUnset(c.bottomRight),
        P.Boxing(P.BorderBottomLeftRadius) := TruthyOrUnset(c.bottomLeft)]
  }

  /** Padding and margin sides render whenever they are numbers, 0 included. */
  lemma SpacingKeepsZero(b: BBox)
    ensures P.Boxing(P.PaddingTop) in Rendered(GeneratePaddingStyle(b)) <==> b.top.Defined?
    ensures P.Boxing(P.MarginLeft) in Rendered(GenerateMarginStyle(b)) <==> b.left.Defined?
    ensures b == ZeroBox ==> Rendered(GeneratePaddingStyle(b))[P.Boxing(P.PaddingBottom)] == Numeric(0.0)
    ensures b == ZeroBox ==> Rendered(GenerateMarginStyle(b))[P.Boxing(P.MarginRight)] == Numeric(0.0)
  {
  }

  /** Border widths and radii render only when they are non-zero numbers. */
  lemma BordersDropZero(b: BBox, c: Corners)
    ensures P.Boxing(P.BorderTopWidth) in Rendered(BorderWidthStyle(b)) <==> b.top.Defined? && b.top.n != 0.0
    ensures P.Boxing(P.BorderTopLeftRadius) in Rendered(BorderRadiusStyle(c)) <==> c.topLeft.Defined? && c.topLeft.n != 0.0
  {
  }

  /** The all-zero defaults render no border at all. */
  lemma ZeroBordersVanish()
    ensures Rendered(BorderWidthStyle(ZeroBox)) == map[]
    ensures Rendered(BorderRadiusStyle(ZeroCorners)) == map[]
  {
    assert Rendered(BorderWidthStyle(ZeroBox)).Keys == {};
    assert Rendered(BorderRadiusStyle(ZeroCorners)).Keys == {};
  }

  // ---- opacity and transform -------------------------------------------------------------

  /** `(opacity ?? 100) / 100`: a missing or null opacity is fully opaque. */
  function Opacity(m: Maybe): (r: real)
    ensures !m.Defined? ==> r == 1.0
    ensures r * 100.0 == m.Or(100.0)
  {
    m.Or(100.0) / 100.0
  }

  /** `generateTransformStyles({rotation}) || undefined`: only a non-zero rotation rotates. */
  function GenerateTransformStyles(rotation: Maybe): (r: Option<CssValue>)
    ensures r.Some? <==> rotation.Truthy()
  {
    if rotation.Truthy() then Some(Textual([Lit("rotate("), Num(rotation.n), Lit("deg)")])) else None
  }
}
