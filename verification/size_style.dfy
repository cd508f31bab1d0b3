/**
 * `generateSizeStyle` and `generateMinMaxStyle`, nested in
 * `generateElementStyle` of src/lib/layout/styles.ts: the width, height and
 * min/max declarations of an element.
 */
module SizeStyle {
  import opened Common
  import opened Css
  import opened SizeConfig
  import opened LayoutConfig
  import Element
  import P = CssProps

  /** The `key` argument: which dimension a size item sizes. */
  datatype Dim = Width | Height

  function DimKey(d: Dim): P.Prop {
    if d == Width then P.Sizing(P.Width) else P.Sizing(P.Height)
  }

  function ViewportUnit(d: Dim): string {
    if d == Width then "vw" else "vh"
  }

  /** The element's axis (x for width) is the flex parent's axis (x for a row). */
  predicate OnMainAxis(d: Dim, direction: Direction) {
    (d == Width) <==> (direction == Row)
  }

  /** `${value ?? 0} 0 0px`: grow by the value, shrink 0, basis 0. */
  function FlexShorthand(value: Maybe): CssValue {
    Textual([Num(value.Or(0.0)), Lit(" 0 0px")])
  }

  /** `${(value ?? 0) * 100}%`. */
  function FillPercent(value: Maybe): CssValue {
    Textual([Num(value.Or(0.0) * 100.0), Lit("%")])
  }

  /** `calculateFillLayout`: only a flex container parent gives a fill item a size. */
  function CalculateFillLayout(value: Maybe, d: Dim, parent: Element.ElementLayout): Decls {
    if !parent.ContainerLayout? then map[]
    else
      match parent.container.layout
      case Grid(_, _, _, _) => map[]
      case Flex(direction, _, _, _, _, _) =>
        if OnMainAxis(d, direction) then map[P.Sizing(P.Flex) := Some(FlexShorthand(value))]
        else map[DimKey(d) := Some(FillPercent(value))]
  }

  /** `generateSizeStyle(config, key, parentConfig)`. */
  function GenerateSizeStyle(item: SizeItem, d: Dim, parent: Option<Element.ElementLayout>): (r: Decls)
    ensures r.Keys <= {DimKey(d), P.Sizing(P.Flex)}
    ensures P.Sizing(P.Flex) in r ==> item.Fill?
    ensures forall k :: k in r ==> k.Sizing?
  {
    match item
    case Auto => map[DimKey(d) := Some(Kw("auto"))]
    case Fill(v) => if parent.Some? then CalculateFillLayout(v, d, parent.value) else map[]
    case Fixed(v) => map[DimKey(d) := NumberOrUnset(v)]
    case Relative(v) => map[DimKey(d) := Some(Textual([Show(v), Lit("%")]))]
    case Viewport(v) => map[DimKey(d) := Some(Textual([Show(v), Lit(ViewportUnit(d))]))]
  }

  /** The parent is a container laid out as a flex box. */
  predicate FlexParent(parent: Option<Element.ElementLayout>) {
    parent.Some? && parent.value.ContainerLayout? && parent.value.container.layout.Flex?
  }

  /**
   * The fill rule: without a flex container parent a fill item gives nothing;
   * in one, it becomes the `flex` shorthand on the parent's main axis and a
   * percentage of its own dimension on the cross axis.
   */
  lemma FillRule(v: Maybe, d: Dim, parent: Option<Element.ElementLayout>)
    ensures !FlexParent(parent) ==> GenerateSizeStyle(Fill(v), d, parent) == map[]
    ensures FlexParent(parent) && OnMainAxis(d, parent.value.container.layout.direction) ==>
      GenerateSizeStyle(Fill(v), d, parent) == map[P.Sizing(P.Flex) := Some(FlexShorthand(v))]
    ensures FlexParent(parent) && !OnMainAxis(d, parent.value.container.layout.direction) ==>
      GenerateSizeStyle(Fill(v), d, parent) == map[DimKey(d) := Some(FillPercent(v))]
  {
  }

  // ---- generateMinMaxStyle ------------------------------------------------------

  function BoundKey(b: Bound): P.Prop {
    match b
    case MinWidth => P.Sizing(P.MinWidth)
    case MinHeight => P.Sizing(P.MinHeight)
    case MaxWidth => P.Sizing(P.MaxWidth)
    case MaxHeight => P.Sizing(P.MaxHeight)
  }

  function BoundDim(b: Bound): Dim {
    if b == MinWidth || b == MaxWidth then Width else Height
  }

  const MinMaxKeys: set<P.Prop> := {P.Sizing(P.MinWidth), P.Sizing(P.MinHeight), P.Sizing(P.MaxWidth), P.Sizing(P.MaxHeight)}

  /** `generateSizeValue`: auto and fill constrain nothing. */
  function GenerateSizeValue(item: SizeItem, d: Dim): (r: Option<CssValue>)
    ensures item.Auto? || item.Fill? ==> r.None?
  {
    match item
    case Auto => None
    case Fill(_) => None
    case Fixed(v) => NumberOrUnset(v)
    case Relative(v) => Some(Textual([Show(v), Lit("%")]))
    case Viewport(v) => Some(Textual([Show(v), Lit(ViewportUnit(d))]))
  }

  /** The declaration one min/max entry spreads over the accumulator. */
  function MinMaxEntry(m: MinMaxItem): Decls {
    map[BoundKey(m.bound) := GenerateSizeValue(m.size, BoundDim(m.bound))]
  }

  /** `config.reduce((acc, item) => ({...acc, ...style(item)}), {})`. */
  function GenerateMinMaxStyle(items: seq<MinMaxItem>): (r: Decls)
    ensures r.Keys <= MinMaxKeys
    ensures forall k :: k in r ==> k.Sizing?
    decreases |items|
  {
    if items == [] then map[]
    else GenerateMinMaxStyle(items[..|items| - 1]) + MinMaxEntry(items[|items| - 1])
  }

  /** The last entry of the list that constrains bound `b`, if any. */
  function LastOf(items: seq<MinMaxItem>, b: Bound): (r: Option<MinMaxItem>)
    ensures r.Some? ==> r.value in items && r.value.bound == b
    ensures r.None? <==> forall i :: 0 <= i < |items| ==> items[i].bound != b
    decreases |items|
  {
    if items == [] then None
    else if items[|items| - 1].bound == b then Some(items[|items| - 1])
    else LastOf(items[..|items| - 1], b)
  }

  /**
   * A bound is declared exactly when some entry constrains it, and then with
   * the value of the LAST such entry: later entries override earlier ones.
   */
  lemma {:induction false} MinMaxLastWins(items: seq<MinMaxItem>, b: Bound)
    ensures BoundKey(b) in GenerateMinMaxStyle(items) <==> LastOf(items, b).Some?
    ensures LastOf(items, b).Some? ==>
      GenerateMinMaxStyle(items)[BoundKey(b)] == GenerateSizeValue(LastOf(items, b).value.size, BoundDim(b))
    decreases |items|
  {
    if items != [] {
      MinMaxLastWins(items[..|items| - 1], b);
    }
  }

  /** An auto or fill constraint that comes last for its bound leaves the bound unset. */
  lemma AutoOrFillUnsets(items: seq<MinMaxItem>, b: Bound)
    requires LastOf(items, b).Some? && (LastOf(items, b).value.size.Auto? || LastOf(items, b).value.size.Fill?)
    ensures BoundKey(b) !in Rendered(GenerateMinMaxStyle(items))
  {
    MinMaxLastWins(items, b);
  }

  /**
   * The primary size and a min/max bound render a fixed, relative or viewport
   * item identically; they differ only for auto (`'auto'` against unset) and
   * fill (the flex rule against unset).
   */
  lemma SizeAndBoundAgree(item: SizeItem, d: Dim, parent: Option<Element.ElementLayout>)
    requires !item.Auto? && !item.Fill?
    ensures GenerateSizeStyle(item, d, parent) == map[DimKey(d) := GenerateSizeValue(item, d)]
  {
  }

  lemma AutoDiffers(d: Dim, parent: Option<Element.ElementLayout>)
    ensures GenerateSizeStyle(Auto, d, parent) == map[DimKey(d) := Some(Kw("auto"))]
    ensures GenerateSizeValue(Auto, d).None?
  {
  }
}
