/**
 * The element registry of src/lib/element.tsx: the four element types, the
 * union of their style configurations discriminated on `type`, the responsive
 * configuration, and the per-type factories of `ELEMENT_CONFIG`.
 */
module Element {
  import opened Common
  import opened Json
  import ContainerConfig
  import TextConfig
  import ImageConfig
  import IconConfig

  datatype ElementType = Container | Text | Image | Icon

  function TypeName(t: ElementType): (r: string)
    ensures r in ElementTypes
  {
    match t
    case Container => "container"
    case Text => "text"
    case Image => "image"
    case Icon => "icon"
  }

  /** `elementType`: `z.enum(['image', 'text', 'container', 'icon'])`. */
  const ElementTypes: set<string> := {"image", "text", "container", "icon"}

  function TypeOf(name: string): (r: Option<ElementType>)
    ensures r.Some? <==> name in ElementTypes
    ensures r.Some? ==> TypeName(r.value) == name
  {
    if name == "container" then Some(Container)
    else if name == "text" then Some(Text)
    else if name == "image" then Some(Image)
    else if name == "icon" then Some(Icon)
    else None
  }

  /** The type names are distinct, so the enum and the datatype are in bijection. */
  lemma TypeNameRoundTrip(t: ElementType)
    ensures TypeOf(TypeName(t)) == Some(t)
  {
  }

  // ---- elementLayoutConfig ----------------------------------------------------

  /** `elementLayoutConfig`: one of the four style configurations. */
  datatype ElementLayout =
    | ContainerLayout(container: ContainerConfig.ContainerStyleConfig)
    | TextLayout(text: TextConfig.TextStyleConfig)
    | ImageLayout(image: ImageConfig.ImageStyleConfig)
    | IconLayout(icon: IconConfig.IconStyleConfig)

  function LayoutType(l: ElementLayout): ElementType {
    match l
    case ContainerLayout(_) => Container
    case TextLayout(_) => Text
    case ImageLayout(_) => Image
    case IconLayout(_) => Icon
  }

  predicate ValidLayout(l: ElementLayout) {
    match l
    case ContainerLayout(c) => ContainerConfig.ValidContainerStyle(c)
    case TextLayout(c) => TextConfig.ValidTextStyle(c)
    case ImageLayout(c) => ImageConfig.ValidImageStyle(c)
    case IconLayout(c) => IconConfig.ValidIconStyle(c)
  }

  function EncodeLayout(l: ElementLayout): Value {
    match l
    case ContainerLayout(c) => ContainerConfig.EncodeContainerStyle(c)
    case TextLayout(c) => TextConfig.EncodeTextStyle(c)
    case ImageLayout(c) => ImageConfig.EncodeImageStyle(c)
    case IconLayout(c) => IconConfig.EncodeIconStyle(c)
  }

  /** The element type named by the value's `type` tag, if any. */
  function TagOf(v: Value): (r: Option<ElementType>)
    ensures r.Some? <==> v.Obj? && EnumField(v.fields, "type", ElementTypes).Some?
    ensures r.Some? ==> TagIs(v.fields, "type", TypeName(r.value))
  {
    if v.Obj? && "type" in v.fields && v.fields["type"].Str? then TypeOf(v.fields["type"].s) else None
  }

  /** Parsing with the schema of one element type. */
  function DecodeAs(t: ElementType, v: Value): (r: Option<ElementLayout>)
    ensures r.Some? ==> ValidLayout(r.value) && LayoutType(r.value) == t
    ensures r.Some? ==> v.Obj? && TagIs(v.fields, "type", TypeName(t))
  {
    match t
    case Container =>
      var c :- ContainerConfig.DecodeContainerStyle(v);
      Some(ContainerLayout(c))
    case Text =>
      var c :- TextConfig.DecodeTextStyle(v);
      Some(TextLayout(c))
    case Image =>
      var c :- ImageConfig.DecodeImageStyle(v);
      Some(ImageLayout(c))
    case Icon =>
      var c :- IconConfig.DecodeIconStyle(v);
      Some(IconLayout(c))
  }

  /**
   * `z.discriminatedUnion('type', [...])`: the `type` tag picks the one schema
   * the value is parsed with; an unknown tag is rejected.
   */
  function DecodeLayout(v: Value): (r: Option<ElementLayout>)
    ensures r.Some? ==> ValidLayout(r.value)
    ensures r.Some? ==> v.Obj? && TagIs(v.fields, "type", TypeName(LayoutType(r.value)))
    ensures TagOf(v).None? ==> r.None?
  {
    var t :- TagOf(v);
    DecodeAs(t, v)
  }

  lemma EncodedTag(l: ElementLayout)
    ensures TagOf(EncodeLayout(l)) == Some(LayoutType(l))
  {
    TypeNameRoundTrip(LayoutType(l));
  }

  /** Every valid element layout survives encoding and parsing unchanged. */
  lemma LayoutRoundTrip(l: ElementLayout)
    requires ValidLayout(l)
    ensures DecodeLayout(EncodeLayout(l)) == Some(l)
  {
    EncodedTag(l);
    match l
    case ContainerLayout(c) => ContainerConfig.ContainerStyleRoundTrip(c); DecodeAsSome(EncodeLayout(l), l);
    case TextLayout(c) => TextConfig.TextStyleRoundTrip(c); DecodeAsSome(EncodeLayout(l), l);
    case ImageLayout(c) => ImageConfig.ImageStyleRoundTrip(c); DecodeAsSome(EncodeLayout(l), l);
    case IconLayout(c) => IconConfig.IconStyleRoundTrip(c); DecodeAsSome(EncodeLayout(l), l);
  }

  // ---- responsiveLayoutConfig -------------------------------------------------

  /**
   * `responsiveLayoutConfig`: a complete desktop layout, and tablet and mobile
   * overrides of any shape (`z.any().optional()`); a missing tier is `Undef`.
   */
  datatype ResponsiveLayout = ResponsiveLayout(desktop: ElementLayout, tablet: Value, mobile: Value)

  function TierField(o: map<string, Value>, k: string): (r: Value)
    ensures Absent(o, k) ==> r == Undef
    ensures k in o ==> r == o[k]
  {
    if k in o then o[k] else Undef
  }

  function DecodeResponsive(v: Value): (r: Option<ResponsiveLayout>)
    ensures r.Some? ==> v.Obj? && "desktop" in v.fields && ValidLayout(r.value.desktop)
    ensures r.Some? ==> r.value.tablet == TierField(v.fields, "tablet") && r.value.mobile == TierField(v.fields, "mobile")
  {
    var o :- AsObject(v);
    if "desktop" !in o then None
    else
      var desktop :- DecodeLayout(o["desktop"]);
      Some(ResponsiveLayout(desktop, TierField(o, "tablet"), TierField(o, "mobile")))
  }

  function EncodeResponsive(r: ResponsiveLayout): Value {
    Obj(map["desktop" := EncodeLayout(r.desktop), "tablet" := r.tablet, "mobile" := r.mobile])
  }

  /** Any tablet and mobile values are accepted next to a valid desktop layout. */
  lemma ResponsiveRoundTrip(r: ResponsiveLayout)
    requires ValidLayout(r.desktop)
    ensures DecodeResponsive(EncodeResponsive(r)) == Some(r)
  {
    LayoutRoundTrip(r.desktop);
  }

  /** Without a parsable desktop layout the configuration is rejected, whatever the other tiers hold. */
  lemma DesktopRequired(o: map<string, Value>)
    requires "desktop" !in o || DecodeLayout(o["desktop"]).None?
    ensures DecodeResponsive(Obj(o)).None?
  {
  }

  // ---- ELEMENT_CONFIG and ELEMENT_ITEMS ----------------------------------------

  /** The data of an `ELEMENT_CONFIG` entry that is not a React node or a zod schema. */
  datatype ElementConfig = ElementConfig(kind: ElementType, name: string, disabled: bool, hasInitialData: bool)

  function ElementConfigOf(t: ElementType): ElementConfig {
    match t
    case Container => ElementConfig(Container, "Container", false, false)
    case Text => ElementConfig(Text, "Text", false, true)
    case Image => ElementConfig(Image, "Image", false, true)
    case Icon => ElementConfig(Icon, "Icon", false, true)
  }

  /** `ELEMENT_CONFIG[t].type == t`; no element is disabled; only containers lack initial data. */
  lemma ElementConfigConsistent(t: ElementType)
    ensures ElementConfigOf(t).kind == t
    ensures !ElementConfigOf(t).disabled
    ensures ElementConfigOf(t).hasInitialData <==> t != Container
    ensures ElementConfigOf(t).hasInitialData <==> GenerateInitialData(t).Some?
  {
  }

  const ElementItems: seq<ElementType> := [Container, Text, Image, Icon]

  /** `ELEMENT_ITEMS` lists every element type exactly once. */
  lemma ElementItemsComplete(t: ElementType)
    ensures t in ElementItems
    ensures forall i, j :: 0 <= i < j < |ElementItems| ==> ElementItems[i] != ElementItems[j]
  {
  }

  /** `ELEMENT_CONFIG[t].generateInitialStyleConfig(config)`. */
  function GenerateInitialStyleConfig(t: ElementType, config: Value): (r: Value)
    requires config.Obj?
    ensures r.Obj? && config.fields.Keys <= r.fields.Keys
  {
    match t
    case Container => ContainerConfig.GenerateInitialContainerStyleConfig(config)
    case Text => TextConfig.GenerateInitialTextStyleConfig(config)
    case Image => ImageConfig.GenerateInitialImageStyleConfig(config)
    case Icon => IconConfig.GenerateInitialIconStyleConfig(config)
  }

  /** The typed layout every factory produces from an empty argument. */
  function InitialLayout(t: ElementType): (r: ElementLayout)
    ensures LayoutType(r) == t
  {
    match t
    case Container => ContainerLayout(ContainerConfig.InitialContainer)
    case Text => TextLayout(TextConfig.InitialText)
    case Image => ImageLayout(ImageConfig.InitialImage)
    case Icon => IconLayout(IconConfig.InitialIcon)
  }

  /** Parsing under one type's schema succeeds with whatever that schema yields. */
  lemma DecodeAsSome(v: Value, l: ElementLayout)
    requires match l
      case ContainerLayout(c) => ContainerConfig.DecodeContainerStyle(v) == Some(c)
      case TextLayout(c) => TextConfig.DecodeTextStyle(v) == Some(c)
      case ImageLayout(c) => ImageConfig.DecodeImageStyle(v) == Some(c)
      case IconLayout(c) => IconConfig.DecodeIconStyle(v) == Some(c)
    ensures DecodeAs(LayoutType(l), v) == Some(l)
  {
  }

  lemma InitialDecodesAs(t: ElementType)
    ensures DecodeAs(t, GenerateInitialStyleConfig(t, Empty)) == Some(InitialLayout(t))
  {
    var v := GenerateInitialStyleConfig(t, Empty);
    match t
    case Container => ContainerConfig.InitialContainerConfig(); DecodeAsSome(v, InitialLayout(t));
    case Text => TextConfig.InitialTextConfig(); DecodeAsSome(v, InitialLayout(t));
    case Image => ImageConfig.InitialImageConfig(); DecodeAsSome(v, InitialLayout(t));
    case Icon => IconConfig.InitialIconConfig(); DecodeAsSome(v, InitialLayout(t));
  }

  lemma InitialTag(t: ElementType)
    ensures TagOf(GenerateInitialStyleConfig(t, Empty)) == Some(t)
  {
    InitialDecodesAs(t);
    TypeNameRoundTrip(t);
  }

  /**
   * Each factory, called with no argument, yields a layout that parses under
   * the union and carries its own element type.
   */
  lemma InitialStyleConfigParses(t: ElementType)
    ensures DecodeLayout(GenerateInitialStyleConfig(t, Empty)) == Some(InitialLayout(t))
    ensures LayoutType(InitialLayout(t)) == t
  {
    InitialTag(t);
    InitialDecodesAs(t);
  }

  // ---- element data -------------------------------------------------------------

  /** `elementData`: the content of a text, image or icon element. */
  datatype ElementData = TextData(text: string) | ImageData(url: string) | IconData(icon: string)

  /** `ELEMENT_CONFIG[t].generateInitialData?.()`: containers have none. */
  function GenerateInitialData(t: ElementType): (r: Option<ElementData>)
    ensures r.Some? <==> t != Container
    ensures t == Text ==> r.value.TextData?
    ensures t == Image ==> r.value.ImageData?
    ensures t == Icon ==> r.value.IconData?
  {
    match t
    case Container => None
    case Text => Some(TextData("Enter your text here"))
    case Image => Some(ImageData("https://images.unsplash.com/photo-1696259141244-650be1219522?auto=format&fit=crop&q=80&w=1974"))
    case Icon => Some(IconData("home"))
  }
}
