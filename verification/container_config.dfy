/**
 * `containerStyleConfig` and `generateInitialContainerStyleConfig` of
 * src/lib/layout/container-config.ts.
 */
module ContainerConfig {
  import opened Common
  import opened Json
  import opened Utils
  import opened ColorConfig
  import opened StyleConfig
  import opened LayoutConfig
  import opened ElementShape
  import PositionConfig
  import SizeConfig
  import FilterConfig

  /** A container carries a flex or grid layout for its children and the full style. */
  datatype ContainerStyleConfig = ContainerStyleConfig(
    position: PositionConfig.Position,
    size: SizeConfig.SizeConfig,
    layout: Layout,
    style: StyleConfig,
    filter: Option<FilterConfig.FilterConfig>)

  predicate ValidContainerStyle(c: ContainerStyleConfig) {
    ValidLayout(c.layout) && ValidStyle(c.style) &&
    (c.filter.Some? ==> FilterConfig.ValidFilter(c.filter.value))
  }

  function EncodeContainerStyle(c: ContainerStyleConfig): Value {
    Obj(ShapeObject("container", SizeConfig.EncodeSize(c.size), PositionConfig.EncodePosition(c.position),
                    "layout", EncodeLayout(c.layout), EncodeStyle(c.style), FilterConfig.EncodeFilter(c.filter)))
  }

  function LayoutField(o: map<string, Value>): Option<Layout> {
    if "layout" in o then DecodeLayout(o["layout"]) else None
  }

  function DecodeContainerStyle(v: Value): (r: Option<ContainerStyleConfig>)
    ensures r.Some? ==> ValidContainerStyle(r.value) && v.Obj? && TagIs(v.fields, "type", "container")
  {
    var o :- AsObject(v);
    if !TagIs(o, "type", "container") then None
    else
      var position :- PositionConfig.PositionField(o);
      var size :- SizeConfig.SizeField(o);
      var layout :- LayoutField(o);
      var style :- StyleField(o);
      var filter :- FilterConfig.FilterField(o);
      Some(ContainerStyleConfig(position, size, layout, style, filter))
  }

  lemma DecodeContainerStyleFields(o: map<string, Value>, c: ContainerStyleConfig)
    requires TagIs(o, "type", "container")
    requires PositionConfig.PositionField(o) == Some(c.position)
    requires SizeConfig.SizeField(o) == Some(c.size)
    requires LayoutField(o) == Some(c.layout)
    requires StyleField(o) == Some(c.style)
    requires FilterConfig.FilterField(o) == Some(c.filter)
    ensures DecodeContainerStyle(Obj(o)) == Some(c)
  {
  }

  /** Every valid container configuration survives encoding and parsing unchanged. */
  lemma ContainerStyleRoundTrip(c: ContainerStyleConfig)
    requires ValidContainerStyle(c)
    ensures DecodeContainerStyle(EncodeContainerStyle(c)) == Some(c)
  {
    var o := EncodeContainerStyle(c).fields;
    ShapeLookups("container", SizeConfig.EncodeSize(c.size), PositionConfig.EncodePosition(c.position),
                 "layout", EncodeLayout(c.layout), EncodeStyle(c.style), FilterConfig.EncodeFilter(c.filter));
    PositionConfig.PositionRoundTrip(c.position);
    SizeConfig.SizeRoundTrip(c.size);
    LayoutRoundTrip(c.layout);
    StyleRoundTrip(c.style);
    FilterConfig.FilterFieldOf(o, c.filter);
    DecodeContainerStyleFields(o, c);
  }

  // ---- generateInitialContainerStyleConfig ------------------------------------

  /** Width from `generateInitialSizeConfig('relative')`, height from `generateInitialSizeConfig('fixed')`. */
  const ContainerSizeDefaults: Value :=
    Obj(map["width" := SizeConfig.EncodeSizeItem(SizeConfig.GenerateInitialSizeConfig("relative")),
            "height" := SizeConfig.EncodeSizeItem(SizeConfig.GenerateInitialSizeConfig("fixed")),
            "minMax" := Arr([])])

  const ContainerLayoutDefaults: Value :=
    Obj(map["type" := Str("flex"), "direction" := Str("column"), "alignItems" := Str("flex-start"),
            "justifyContent" := Str("stretch"), "gap" := Number(0.0), "wrap" := Str("nowrap")])

  /** The light blue `#B3E1FF` at half opacity. */
  const LightBlueJson: Value :=
    Obj(map["type" := Str("color"), "color" := Str("#B3E1FF"), "opacity" := Number(50.0)])

  const ContainerStyleDefaults: Value :=
    Obj(map["padding" := ZeroBoxJson, "margin" := ZeroBoxJson, "opacity" := Number(100.0),
            "background" := LightBlueJson, "borderColor" := Undef, "borderWidth" := ZeroBoxJson,
            "borderRadius" := ZeroCornersJson, "overflow" := Str("visible"), "shadows" := Arr([]),
            "visible" := Str("visible")])

  /** The base object `generateInitialContainerStyleConfig` merges its argument into. */
  const ContainerDefaults: Value :=
    Obj(map["type" := Str("container"), "position" := PositionConfig.RelativeJson,
            "size" := ContainerSizeDefaults, "layout" := ContainerLayoutDefaults,
            "style" := ContainerStyleDefaults, "filter" := Empty])

  /**
   * `generateInitialContainerStyleConfig(config)`: the defaults, deep-merged with the argument.
   * A field the argument gives as anything but an object replaces the default,
   * and a default the argument does not mention is kept.
   */
  function GenerateInitialContainerStyleConfig(config: Value): (r: Value)
    requires config.Obj?
    ensures r.Obj? && r.fields.Keys == ContainerDefaults.fields.Keys + config.fields.Keys
    ensures forall k :: k in config.fields && !config.fields[k].Obj? ==> r.fields[k] == config.fields[k]
    ensures forall k :: k in ContainerDefaults.fields && k !in config.fields ==> r.fields[k] == ContainerDefaults.fields[k]
  {
    Merge(ContainerDefaults, config)
  }

  const InitialContainerStyle: StyleConfig :=
    StyleConfig(ZeroBox, ZeroBox, Defined(100.0), Visible, "visible",
                Some(ColorFill(ColorValue("#B3E1FF", 50.0))), None, ZeroCorners, ZeroBox, [],
                Undefined, Undefined)

  /** The configuration a new container starts with. */
  const InitialContainer: ContainerStyleConfig :=
    ContainerStyleConfig(
      PositionConfig.Relative,
      SizeConfig.SizeConfig(SizeConfig.Relative(Defined(100.0)), SizeConfig.Fixed(Defined(400.0)), []),
      Flex(Column, None, "flex-start", "stretch", "nowrap", 0.0),
      InitialContainerStyle,
      Some(map[]))

  lemma ContainerSizeDefaultsDecode()
    ensures SizeConfig.DecodeSize(ContainerSizeDefaults) == Some(InitialContainer.size)
  {
    SizeConfig.InitialSizeValues();
  }

  lemma ContainerLayoutDefaultsDecode()
    ensures DecodeLayout(ContainerLayoutDefaults) == Some(InitialContainer.layout)
  {
  }

  lemma ContainerStyleDefaultsBoxes()
    ensures var o := ContainerStyleDefaults.fields;
      && BBoxField(o, "padding") == Some(ZeroBox)
      && BBoxField(o, "margin") == Some(ZeroBox)
      && BBoxField(o, "borderWidth") == Some(ZeroBox)
      && CornersField(o, "borderRadius") == Some(ZeroCorners)
  {
    ZeroDefaults();
  }

  lemma ContainerStyleDefaultsNumbers()
    ensures var o := ContainerStyleDefaults.fields;
      && NullableField(o, "opacity") == Some(Defined(100.0))
      && NullableField(o, "zIndex") == Some(Undefined)
      && NullableField(o, "rotation") == Some(Undefined)
  {
  }

  lemma ContainerStyleDefaultsPaint()
    ensures var o := ContainerStyleDefaults.fields;
      && VisibilityField(o) == Some(Visible)
      && EnumField(o, "overflow", Overflows) == Some("visible")
      && OptionalColorField(o, "borderColor") == Some(None)
      && ShadowsField(o) == Some([])
  {
  }

  lemma ContainerStyleDefaultsBackground()
    ensures OptionalPickerField(ContainerStyleDefaults.fields, "background") ==
            Some(Some(ColorFill(ColorValue("#B3E1FF", 50.0))))
  {
    PickerFieldOf(ContainerStyleDefaults.fields, "background", Some(ColorFill(ColorValue("#B3E1FF", 50.0))));
  }

  lemma ContainerStyleDefaultsDecode()
    ensures DecodeStyle(ContainerStyleDefaults) == Some(InitialContainerStyle)
  {
    ContainerStyleDefaultsBoxes();
    ContainerStyleDefaultsNumbers();
    ContainerStyleDefaultsPaint();
    ContainerStyleDefaultsBackground();
    DecodeStyleFields(ContainerStyleDefaults.fields, InitialContainerStyle);
  }

  lemma ContainerDefaultsShape()
    ensures var o := ContainerDefaults.fields;
      && TagIs(o, "type", "container")
      && PositionConfig.PositionField(o) == Some(InitialContainer.position)
  {
  }

  lemma ContainerDefaultsFilter()
    ensures FilterConfig.FilterField(ContainerDefaults.fields) == Some(InitialContainer.filter)
  {
    FilterConfig.EmptyFilterValid();
  }

  lemma ContainerDefaultsParts()
    ensures var o := ContainerDefaults.fields;
      && SizeConfig.SizeField(o) == Some(InitialContainer.size)
      && LayoutField(o) == Some(InitialContainer.layout)
      && StyleField(o) == Some(InitialContainer.style)
  {
    ContainerDefaultsSize();
    ContainerDefaultsLayout();
    ContainerDefaultsStyle();
  }

  lemma ContainerDefaultsSize()
    ensures SizeConfig.SizeField(ContainerDefaults.fields) == Some(InitialContainer.size)
  {
    ContainerSizeDefaultsDecode();
  }

  lemma ContainerDefaultsLayout()
    ensures LayoutField(ContainerDefaults.fields) == Some(InitialContainer.layout)
  {
    ContainerLayoutDefaultsDecode();
  }

  lemma ContainerDefaultsStyle()
    ensures StyleField(ContainerDefaults.fields) == Some(InitialContainer.style)
  {
    ContainerStyleDefaultsDecode();
  }

  /**
   * `generateInitialContainerStyleConfig({})` is a valid container configuration:
   * relative position, width relative 100, height fixed 400, a nowrap flex
   * column with no gap, a half-transparent light blue background and an empty
   * filter.
   */
  lemma InitialContainerConfig()
    ensures DecodeContainerStyle(GenerateInitialContainerStyleConfig(Empty)) == Some(InitialContainer)
  {
    RightIdentity(ContainerDefaults);
    ContainerDefaultsShape();
    ContainerDefaultsFilter();
    ContainerDefaultsParts();
    DecodeContainerStyleFields(ContainerDefaults.fields, InitialContainer);
  }
}
