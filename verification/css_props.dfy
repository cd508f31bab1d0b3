/**
 * The React style properties the generators emit. `React.CSSProperties` is a
 * record type with a fixed set of property names, so a property is a
 * constructor here. Properties are grouped by the generator of
 * src/lib/layout/styles.ts that writes them, so that "these two generators
 * never write the same property" is a statement about the outer constructor.
 */
module CssProps {
  /** Written by `generateSizeStyle` and `generateMinMaxStyle`. */
  datatype SizeProp = Width | Height | Flex | MinWidth | MinHeight | MaxWidth | MaxHeight

  /** Written by `generatePositionStyle`. */
  datatype PlaceProp = Position | Top | Bottom | Left | Right

  /** Written by `generateLayoutStyle`, and `display` also by the leaf elements. */
  datatype ArrangeProp =
    | Display | FlexDirection | AlignItems | JustifyContent | FlexWrap | Gap
    | GridTemplateColumns | GridTemplateRows

  /** Written by the rest styles: spacing, fill, borders, opacity, shadows, stacking, rotation. */
  datatype BoxProp =
    | PaddingTop | PaddingRight | PaddingBottom | PaddingLeft
    | MarginTop | MarginRight | MarginBottom | MarginLeft
    | Opacity | Overflow | Background
    | BorderTopLeftRadius | BorderTopRightRadius | BorderBottomRightRadius | BorderBottomLeftRadius
    | BorderTopWidth | BorderRightWidth | BorderBottomWidth | BorderLeftWidth
    | BorderColor | BoxShadow | ZIndex | Transform

  /** Written by `generateTextStyles`; `color` also by `generateIconStyles`. */
  datatype TextProp =
    | FontSize | FontFamily | LineHeight | TextAlign | FontWeight | FontStyle | LetterSpacing | Color
    | TextTransform | TextDecoration

  /** Written by `generateImageStyles`. */
  datatype FitProp = ObjectFit | ObjectPosition

  /** Written by `generateFilterStyle`. */
  datatype EffectProp = MixBlendMode | BackdropFilter | Filter

  datatype Prop =
    | Sizing(size: SizeProp)
    | Placing(place: PlaceProp)
    | Arranging(arrange: ArrangeProp)
    | Boxing(box: BoxProp)
    | Typing(text: TextProp)
    | Fitting(fit: FitProp)
    | Effect(effect: EffectProp)
}
