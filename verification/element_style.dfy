/**
 * `generateElementStyle` of src/lib/layout/styles.ts: the flat style object of
 * one element, given its configuration and its parent's.
 */
module ElementStyle {
  import opened Common
  import opened Css
  import opened ColorConfig
  import opened StyleConfig
  import opened SizeStyle
  import opened FillStyle
  import opened BoxStyle
  import TextConfig
  import ImageConfig
  import IconConfig
  import FilterConfig
  import Element
  import P = CssProps

  // ---- the rest styles ---------------------------------------------------------------

  const Common4Keys: set<P.Prop> := {P.Boxing(P.Opacity), P.Boxing(P.ZIndex), P.Boxing(P.BoxShadow), P.Boxing(P.Transform)}
  const BorderKeys: set<P.Prop> := BorderRadiusKeys + BorderWidthKeys + {P.Boxing(P.BorderColor)}
  const RestKeys: set<P.Prop> := PaddingKeys + MarginKeys + {P.Boxing(P.Overflow), P.Boxing(P.Background)} + BorderKeys + Common4Keys

  /** A printed value, or undefined. */
  function TextOrUnset(t: Option<Text>): (r: Option<CssValue>)
    ensures r.Some? <==> t.Some?
  {
    if t.Some? then Some(Textual(t.value)) else None
  }

  /** `config.borderColor ? generateColorValue(config.borderColor) : undefined`. */
  function BorderColor(c: Option<ColorValue>): Option<CssValue> {
    TextOrUnset(if c.Some? then GenerateColorValue(Some(ColorFill(c.value))) else None)
  }

  /** The declarations every rest style shares: opacity, z-index, shadows and rotation. */
  function Common4(opacity: Maybe, zIndex: Maybe, shadows: seq<Shadow>, rotation: Maybe): (r: Decls)
    ensures r.Keys == Common4Keys
    ensures forall k :: k in r ==> k.Boxing?
  {
    map[P.Boxing(P.Opacity) := Some(Numeric(Opacity(opacity))), P.Boxing(P.ZIndex) := TruthyOrUnset(zIndex),
        P.Boxing(P.BoxShadow) := Some(Textual(GenerateShadowStyles(shadows))),
        P.Boxing(P.Transform) := GenerateTransformStyles(rotation)]
  }

  /** The border declarations of the container, text and image rest styles. */
  function Borders(radius: Corners, width: BBox, color: Option<ColorValue>): (r: Decls)
    ensures r.Keys == BorderKeys
    ensures forall k :: k in r ==> k.Boxing?
  {
    BorderRadiusStyle(radius) + BorderWidthStyle(width) + map[P.Boxing(P.BorderColor) := BorderColor(color)]
  }

  /** `generateRestStyles(config)`: containers and text. */
  function GenerateRestStyles(s: StyleConfig): (r: Decls)
    ensures r.Keys == RestKeys
    ensures forall k :: k in r ==> k.Boxing?
  {
    RestKeysAreBoxing();
    GeneratePaddingStyle(s.padding) + GenerateMarginStyle(s.margin) +
    map[P.Boxing(P.Overflow) := Some(Kw(s.overflow)), P.Boxing(P.Background) := TextOrUnset(GenerateColorValue(s.background))] +
    Borders(s.borderRadius, s.borderWidth, s.borderColor) +
    Common4(s.opacity, s.zIndex, s.shadows, s.rotation)
  }

  lemma RestKeysAreBoxing()
    ensures forall k :: k in RestKeys ==> k.Boxing?
  {
  }

  /** `generateImageRestStyles(config)`: no padding, margin, overflow or background. */
  function GenerateImageRestStyles(s: ImageConfig.ImageRestStyle): (r: Decls)
    ensures r.Keys == BorderKeys + Common4Keys
    ensures forall k :: k in r ==> k.Boxing?
  {
    Borders(s.borderRadius, s.borderWidth, s.borderColor) + Common4(s.opacity, s.zIndex, s.shadows, s.rotation)
  }

  /** `generateIconRestStyles(config)`: opacity, z-index, shadows and rotation only. */
  function GenerateIconRestStyles(s: IconConfig.IconRestStyle): (r: Decls)
    ensures r.Keys == Common4Keys
    ensures forall k :: k in r ==> k.Boxing?
  {
    Common4(s.opacity, s.zIndex, s.shadows, s.rotation)
  }

  // ---- the type styles -----------------------------------------------------------------

  const TextKeys: set<P.Prop> :=
    {P.Typing(P.FontSize), P.Typing(P.FontFamily), P.Typing(P.LineHeight), P.Typing(P.TextAlign), P.Typing(P.FontWeight), P.Typing(P.FontStyle), P.Typing(P.LetterSpacing),
     P.Typing(P.Color), P.Typing(P.TextTransform), P.Typing(P.TextDecoration)}

  /** `generateTextStyles(config)`: the weight and the italic flag come from the weights table. */
  function GenerateTextStyles(t: TextConfig.TextConfig): (r: Decls)
    ensures r.Keys == TextKeys
    ensures forall k :: k in r ==> k.Typing?
  {
    var weight := TextConfig.TextWeightsConfig(t.fontWeight);
    map[P.Typing(P.FontSize) := Some(Numeric(t.fontSize)), P.Typing(P.FontFamily) := Some(Kw(t.fontFamily)),
        P.Typing(P.LineHeight) := Some(Numeric(t.lineHeight)), P.Typing(P.TextAlign) := Some(Kw(t.textAlign)),
        P.Typing(P.FontWeight) := Some(Numeric(weight.fontWeight as real)),
        P.Typing(P.FontStyle) := (if weight.italic then Some(Kw("italic")) else None),
        P.Typing(P.LetterSpacing) := Some(Numeric(t.letterSpacing)),
        P.Typing(P.Color) := TextOrUnset(GenerateColorValue(Some(ColorFill(t.color)))),
        P.Typing(P.TextTransform) := Some(Kw(t.textTransform)), P.Typing(P.TextDecoration) := Some(Kw(t.textDecoration))]
  }

  /** The weight's numeric value and its italic style, as the weight variant names them. */
  lemma TextWeightLaw(t: TextConfig.TextConfig)
    ensures GenerateTextStyles(t)[P.Typing(P.FontWeight)] == Some(Numeric(TextConfig.TextWeightsConfig(t.fontWeight).fontWeight as real))
    ensures P.Typing(P.FontStyle) in Rendered(GenerateTextStyles(t)) <==>
      TextConfig.EndsWithItalic(TextConfig.WeightName(t.fontWeight))
  {
    TextConfig.ItalicIffNameSaysSo(t.fontWeight);
  }

  /** `generateImageStyles(config)`. */
  function GenerateImageStyles(i: ImageConfig.ImageConfig): (r: Decls)
    ensures r.Keys == ImageKeys
    ensures forall k :: k in r ==> k.Fitting?
  {
    map[P.Fitting(P.ObjectFit) := Some(Kw(i.objectFit)), P.Fitting(P.ObjectPosition) := Some(Kw(i.objectPosition))]
  }

  /** `generateIconStyles(config)`. */
  function GenerateIconStyles(t: IconConfig.IconText): (r: Decls)
    ensures r.Keys == {P.Typing(P.Color)}
    ensures forall k :: k in r ==> k.Typing?
  {
    map[P.Typing(P.Color) := TextOrUnset(GenerateColorValue(Some(ColorFill(t.color))))]
  }

  // ---- generateElementStyle --------------------------------------------------------------

  function VisibilityOf(l: Element.ElementLayout): Visibility {
    match l
    case ContainerLayout(c) => c.style.visible
    case TextLayout(c) => c.style.visible
    case ImageLayout(c) => c.style.visible
    case IconLayout(c) => c.style.visible
  }

  function SizeOf(l: Element.ElementLayout): SizeConfig.SizeConfig {
    match l
    case ContainerLayout(c) => c.size
    case TextLayout(c) => c.size
    case ImageLayout(c) => c.size
    case IconLayout(c) => c.size
  }

  function PositionOf(l: Element.ElementLayout): PositionConfig.Position {
    match l
    case ContainerLayout(c) => c.position
    case TextLayout(c) => c.position
    case ImageLayout(c) => c.position
    case IconLayout(c) => c.position
  }

  function FilterOf(l: Element.ElementLayout): Option<FilterConfig.FilterConfig>
  {
    match l
    case ContainerLayout(c) => c.filter
    case TextLayout(c) => c.filter
    case ImageLayout(c) => c.filter
    case IconLayout(c) => c.filter
  }

  /** The size, min/max and position declarations every element starts from. */
  function BaseStyle(l: Element.ElementLayout, parent: Option<Element.ElementLayout>): (r: Decls)
    ensures forall k :: k in r ==> k.Sizing? || k.Placing?
  {
    var size := SizeOf(l);
    GenerateSizeStyle(size.width, Width, parent) + GenerateSizeStyle(size.height, Height, parent) +
    GenerateMinMaxStyle(size.minMax) + GeneratePositionStyle(PositionOf(l))
  }

  const Block: Decls := map[P.Arranging(P.Display) := Some(Kw("block"))]

  const ImageKeys: set<P.Prop> := {P.Fitting(P.ObjectFit), P.Fitting(P.ObjectPosition)}

  /** What a type style may write: everything but size, position and filter properties. */
  predicate TypeWritten(k: P.Prop) {
    k.Arranging? || k.Boxing? || k.Typing? || k.Fitting?
  }

  /** The declarations specific to the element's type, spread after the base. */
  function TypeStyle(l: Element.ElementLayout): (r: Decls)
    ensures P.Arranging(P.Display) in r
    ensures forall k :: k in r ==> TypeWritten(k)
  {
    match l
    case ContainerLayout(c) => GenerateLayoutStyle(c.layout) + GenerateRestStyles(c.style)
    case TextLayout(c) => GenerateTextStyles(c.text) + GenerateRestStyles(c.style) + Block
    case ImageLayout(c) => GenerateImageStyles(c.image) + GenerateImageRestStyles(c.style) + Block
    case IconLayout(c) => GenerateIconStyles(c.iconText) + GenerateIconRestStyles(c.style) + Block
  }

  const FilterKeys: set<P.Prop> := {P.Effect(P.MixBlendMode), P.Effect(P.BackdropFilter), P.Effect(P.Filter)}

  /**
   * The element's filter, if any, has the shape its TypeScript type gives it:
   * numbers (or undefined) for the filter functions, a string for the blending.
   */
  predicate FilterTyped(l: Element.ElementLayout) {
    FilterOf(l).Some? ==> FilterConfig.WellTyped(FilterOf(l).value)
  }

  /** Every layout the schemas accept is typed so. */
  lemma ValidIsFilterTyped(l: Element.ElementLayout)
    requires Element.ValidLayout(l)
    ensures FilterTyped(l)
  {
    match l
    case ContainerLayout(c) => if c.filter.Some? { FilterConfig.ValidIsWellTyped(c.filter.value); }
    case TextLayout(c) => if c.filter.Some? { FilterConfig.ValidIsWellTyped(c.filter.value); }
    case ImageLayout(c) => if c.filter.Some? { FilterConfig.ValidIsWellTyped(c.filter.value); }
    case IconLayout(c) => if c.filter.Some? { FilterConfig.ValidIsWellTyped(c.filter.value); }
  }

  /** The filter declarations, empty when the element has no filter. */
  function FilterStyle(l: Element.ElementLayout): (r: Decls)
    requires FilterTyped(l)
    ensures r.Keys <= FilterKeys
    ensures forall k :: k in r ==> k.Effect?
    ensures FilterOf(l).None? ==> r == map[]
  {
    match FilterOf(l)
    case None => map[]
    case Some(f) => FilterConfig.GenerateFilterStyle(f)
  }

  /** `{...base, ...type, ...filter}`. */
  function Spread(base: Decls, typed: Decls, filter: Decls): (r: Decls)
    ensures forall k :: k in r <==> k in base || k in typed || k in filter
    ensures forall k :: k in filter ==> r[k] == filter[k]
    ensures forall k :: k in typed && k !in filter ==> r[k] == typed[k]
    ensures forall k :: k in base && k !in typed && k !in filter ==> r[k] == base[k]
  {
    base + typed + filter
  }

  /**
   * `generateElementStyle(config, parentConfig)`: a hidden element is only
   * `display: none`; otherwise the base, then the type styles, then (when the
   * element has a filter, which as an object is always truthy) the filter styles.
   */
  function GenerateElementStyle(l: Element.ElementLayout, parent: Option<Element.ElementLayout>): (r: Decls)
    requires FilterTyped(l)
    ensures P.Arranging(P.Display) in r
  {
    Assemble(VisibilityOf(l), BaseStyle(l, parent), TypeStyle(l), FilterStyle(l))
  }

  /** The last step of `generateElementStyle`, given the element's visibility and its three parts. */
  function Assemble(visible: Visibility, base: Decls, typed: Decls, filter: Decls): (r: Decls)
    requires P.Arranging(P.Display) in typed
    ensures P.Arranging(P.Display) in r
    ensures visible == Hidden ==> r == map[P.Arranging(P.Display) := Some(Kw("none"))]
  {
    if visible == Hidden then map[P.Arranging(P.Display) := Some(Kw("none"))]
    else Spread(base, typed, filter)
  }

  /** A visible element's parts are spread in order. */
  lemma AssembleVisible(base: Decls, typed: Decls, filter: Decls)
    requires P.Arranging(P.Display) in typed
    ensures Assemble(Visible, base, typed, filter) == Spread(base, typed, filter)
  {
  }

  // ---- laws ------------------------------------------------------------------------

  /** A hidden element gets exactly `{display: 'none'}`, whatever else it configures. */
  lemma HiddenLaw(l: Element.ElementLayout, parent: Option<Element.ElementLayout>)
    requires FilterTyped(l) && VisibilityOf(l) == Hidden
    ensures GenerateElementStyle(l, parent) == map[P.Arranging(P.Display) := Some(Kw("none"))]
  {
  }

  /** A visible element's style is its base, type and filter styles spread in that order. */
  lemma VisibleSpread(l: Element.ElementLayout, parent: Option<Element.ElementLayout>)
    requires FilterTyped(l) && VisibilityOf(l) == Visible
    ensures GenerateElementStyle(l, parent) == Spread(BaseStyle(l, parent), TypeStyle(l), FilterStyle(l))
  {
    AssembleVisible(BaseStyle(l, parent), TypeStyle(l), FilterStyle(l));
  }

  lemma TypeStyleDisplay(l: Element.ElementLayout)
    ensures TypeStyle(l)[P.Arranging(P.Display)] ==
      (if l.ContainerLayout? then Some(Kw(if l.container.layout.Flex? then "flex" else "grid"))
       else Some(Kw("block")))
  {
    if l.ContainerLayout? {
      LayoutLaw(l.container.layout);
    }
  }

  // ---- spreading, over any three objects -----------------------------------------------

  /** `display` comes from the type styles: the base never sets it, and neither does the filter. */
  lemma SpreadDisplay(base: Decls, typed: Decls, filter: Decls)
    requires forall k :: k in base ==> k.Sizing? || k.Placing?
    requires P.Arranging(P.Display) in typed
    requires forall k :: k in filter ==> k.Effect?
    ensures Spread(base, typed, filter)[P.Arranging(P.Display)] == typed[P.Arranging(P.Display)]
  {
  }

  /** What the filter spreads last is kept as is; nothing before it writes a filter property. */
  lemma SpreadFilterLast(base: Decls, typed: Decls, filter: Decls)
    requires forall k :: k in base ==> k.Sizing? || k.Placing?
    requires forall k :: k in typed ==> TypeWritten(k)
    requires forall k :: k in filter ==> k.Effect?
    ensures forall k :: k in filter ==> Spread(base, typed, filter)[k] == filter[k]
    ensures filter == map[] ==> forall k :: k in Spread(base, typed, filter) ==> !k.Effect?
  {
  }

  /** The base spreads first; the min/max part of it is followed only by position properties. */
  lemma SpreadKeepsMinMax(sizes: Decls, minMax: Decls, position: Decls, typed: Decls, filter: Decls)
    requires forall k :: k in position ==> k.Placing?
    requires forall k :: k in typed ==> TypeWritten(k)
    requires forall k :: k in filter ==> k.Effect?
    requires forall k :: k in minMax ==> k.Sizing?
    ensures forall k :: k in minMax ==> Spread(sizes + minMax + position, typed, filter)[k] == minMax[k]
  {
    assert forall k :: k in minMax ==> (sizes + minMax + position)[k] == minMax[k];
  }

  // ---- the element's style ------------------------------------------------------------

  /**
   * A visible text, image or icon element is displayed as a block, since
   * `display: 'block'` is spread after its type styles.
   */
  lemma DisplayBlock(l: Element.ElementLayout, parent: Option<Element.ElementLayout>)
    requires FilterTyped(l) && VisibilityOf(l) == Visible && !l.ContainerLayout?
    ensures GenerateElementStyle(l, parent)[P.Arranging(P.Display)] == Some(Kw("block"))
  {
    VisibleSpread(l, parent);
    TypeStyleDisplay(l);
    SpreadDisplay(BaseStyle(l, parent), TypeStyle(l), FilterStyle(l));
  }

  /** A visible container is displayed as its layout type. */
  lemma DisplayFromLayout(l: Element.ElementLayout, parent: Option<Element.ElementLayout>)
    requires FilterTyped(l) && VisibilityOf(l) == Visible && l.ContainerLayout?
    ensures GenerateElementStyle(l, parent)[P.Arranging(P.Display)] ==
            Some(Kw(if l.container.layout.Flex? then "flex" else "grid"))
  {
    VisibleSpread(l, parent);
    TypeStyleDisplay(l);
    SpreadDisplay(BaseStyle(l, parent), TypeStyle(l), FilterStyle(l));
  }

  /** The filter styles are spread last: each filter declaration appears as the filter produced it. */
  lemma FilterLastLaw(l: Element.ElementLayout, parent: Option<Element.ElementLayout>)
    requires FilterTyped(l) && VisibilityOf(l) == Visible
    ensures forall k :: k in FilterStyle(l) ==>
              k in GenerateElementStyle(l, parent) && GenerateElementStyle(l, parent)[k] == FilterStyle(l)[k]
  {
    VisibleSpread(l, parent);
    SpreadFilterLast(BaseStyle(l, parent), TypeStyle(l), FilterStyle(l));
  }

  /** An element without a filter gets no filter property. */
  lemma NoFilterNoEffect(l: Element.ElementLayout, parent: Option<Element.ElementLayout>)
    requires FilterTyped(l) && FilterOf(l).None?
    ensures forall k :: k in GenerateElementStyle(l, parent) ==> !k.Effect?
  {
    SpreadFilterLast(BaseStyle(l, parent), TypeStyle(l), FilterStyle(l));
  }

  /** The min/max declarations reach the result unchanged: nothing later sets those keys. */
  lemma MinMaxSurvives(l: Element.ElementLayout, parent: Option<Element.ElementLayout>)
    requires FilterTyped(l) && VisibilityOf(l) == Visible
    ensures forall k :: k in GenerateMinMaxStyle(SizeOf(l).minMax) ==>
              k in GenerateElementStyle(l, parent) &&
              GenerateElementStyle(l, parent)[k] == GenerateMinMaxStyle(SizeOf(l).minMax)[k]
  {
    VisibleSpread(l, parent);
    var size := SizeOf(l);
    var sizes := GenerateSizeStyle(size.width, Width, parent) + GenerateSizeStyle(size.height, Height, parent);
    SpreadKeepsMinMax(sizes, GenerateMinMaxStyle(size.minMax), GeneratePositionStyle(PositionOf(l)),
      TypeStyle(l), FilterStyle(l));
  }

  /** The initial icon has no filter, so it never gets filter declarations. */
  lemma InitialIconHasNoFilterStyle(parent: Option<Element.ElementLayout>)
    ensures FilterTyped(Element.IconLayout(IconConfig.InitialIcon))
    ensures forall k :: k in GenerateElementStyle(Element.IconLayout(IconConfig.InitialIcon), parent) ==> !k.Effect?
  {
    NoFilterNoEffect(Element.IconLayout(IconConfig.InitialIcon), parent);
  }
}
