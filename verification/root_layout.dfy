/**
 * `ROOT_NODE_LAYOUT` of src/lib/tree.ts: the container every page starts
 * from, made by deep-merging a full-height, white-background override into
 * the container defaults.
 */
module RootLayout {
  import opened Common
  import opened Json
  import opened Utils
  import opened ColorConfig
  import opened StyleConfig
  import SizeConfig
  import PositionConfig
  import FilterConfig
  import ContainerConfig

  /** `{type: 'color', color: '#ffffff', opacity: 100}`. */
  const WhiteJson: Value :=
    Obj(map["type" := Str("color"), "color" := Str("#ffffff"), "opacity" := Number(100.0)])

  const FullHeightJson: Value :=
    Obj(map["type" := Str("relative"), "value" := Number(100.0)])

  /** The argument `ROOT_NODE_LAYOUT` passes to the container factory. */
  const RootOverride: Value :=
    Obj(map["size" := Obj(map["height" := FullHeightJson]),
            "style" := Obj(map["background" := WhiteJson])])

  const RootNodeLayout: Value := ContainerConfig.GenerateInitialContainerStyleConfig(RootOverride)

  /** The container defaults with the height relative 100 and an opaque white background. */
  const RootContainer: ContainerConfig.ContainerStyleConfig :=
    ContainerConfig.InitialContainer.(
      size := ContainerConfig.InitialContainer.size.(height := SizeConfig.Relative(Defined(100.0))),
      style := ContainerConfig.InitialContainerStyle.(background := Some(ColorFill(ColorValue("#ffffff", 100.0)))))

  // ---- the merged object, part by part ----------------------------------------

  const RootSizeJson: Value :=
    Obj(ContainerConfig.ContainerSizeDefaults.fields["height" := FullHeightJson])

  const RootStyleJson: Value :=
    Obj(ContainerConfig.ContainerStyleDefaults.fields["background" := WhiteJson])

  /** A one-key override object merges into the base's value at that key and nowhere else. */
  lemma MergeOneKey(base: map<string, Value>, k: string, v: Value)
    requires k in base
    ensures Merge(Obj(base), Obj(map[k := v])) == Obj(base[k := Merge(base[k], v)])
  {
    assert Merge(Obj(base), Obj(map[k := v])).fields == base[k := Merge(base[k], v)];
  }

  /** A two-key override object merges into the base's values at those keys and nowhere else. */
  lemma MergeTwoKeys(base: map<string, Value>, k: string, v: Value, j: string, w: Value)
    requires k in base && j in base && k != j
    ensures Merge(Obj(base), Obj(map[k := v, j := w])) ==
            Obj(base[k := Merge(base[k], v)][j := Merge(base[j], w)])
  {
    var m := Merge(Obj(base), Obj(map[k := v, j := w])).fields;
    var e := base[k := Merge(base[k], v)][j := Merge(base[j], w)];
    assert m.Keys == e.Keys;
    assert forall x :: x in m ==> m[x] == e[x];
    assert m == e;
  }

  /** An override object that sets every key of the base to a non-object replaces it. */
  lemma MergeFlat(base: map<string, Value>, over: map<string, Value>)
    requires base.Keys <= over.Keys
    requires forall k :: k in over ==> !over[k].Obj?
    ensures Merge(Obj(base), Obj(over)) == Obj(over)
  {
    assert Merge(Obj(base), Obj(over)).fields == over;
  }

  /** A one-key override whose value is a flat object covering the base's object there replaces it. */
  lemma MergeReplaceFlat(base: map<string, Value>, k: string, v: Value)
    requires k in base && base[k].Obj? && v.Obj?
    requires base[k].fields.Keys <= v.fields.Keys
    requires forall j :: j in v.fields ==> !v.fields[j].Obj?
    ensures Merge(Obj(base), Obj(map[k := v])) == Obj(base[k := v])
  {
    MergeFlat(base[k].fields, v.fields);
    MergeOneKey(base, k, v);
  }

  lemma MergedSize()
    ensures Merge(ContainerConfig.ContainerSizeDefaults, RootOverride.fields["size"]) == RootSizeJson
  {
    SizeConfig.InitialSizeValues();
    MergeReplaceFlat(ContainerConfig.ContainerSizeDefaults.fields, "height", FullHeightJson);
  }

  lemma MergedStyle()
    ensures Merge(ContainerConfig.ContainerStyleDefaults, RootOverride.fields["style"]) == RootStyleJson
  {
    MergeReplaceFlat(ContainerConfig.ContainerStyleDefaults.fields, "background", WhiteJson);
  }

  lemma MergedRoot()
    ensures RootNodeLayout ==
            Obj(ContainerConfig.ContainerDefaults.fields["size" := RootSizeJson]["style" := RootStyleJson])
  {
    MergedSize();
    MergedStyle();
    var d := ContainerConfig.ContainerDefaults.fields;
    MergeTwoKeys(d, "size", RootOverride.fields["size"], "style", RootOverride.fields["style"]);
    assert RootOverride == Obj(map["size" := RootOverride.fields["size"], "style" := RootOverride.fields["style"]]);
  }

  // ---- reading the merged object back ------------------------------------------

  /** Replacing the height of a size object replaces the parsed height and nothing else. */
  lemma SizeWithHeight(d: map<string, Value>, s: SizeConfig.SizeConfig, h: Value, height: SizeConfig.SizeItem)
    requires SizeConfig.DecodeSize(Obj(d)) == Some(s)
    requires SizeConfig.DecodeSizeItem(h) == Some(height)
    ensures SizeConfig.DecodeSize(Obj(d["height" := h])) == Some(s.(height := height))
  {
  }

  /** Replacing the background of a style object replaces the parsed background and nothing else. */
  lemma StyleWithBackground(d: map<string, Value>, s: StyleConfig, b: Value, bg: Option<PickerValue>)
    requires DecodeStyle(Obj(d)) == Some(s)
    requires OptionalPickerField(d["background" := b], "background") == Some(bg)
    ensures DecodeStyle(Obj(d["background" := b])) == Some(s.(background := bg))
  {
    var o := d["background" := b];
    DecodedStyleFields(d, s);
    assert BBoxField(o, "padding") == BBoxField(d, "padding");
    assert BBoxField(o, "margin") == BBoxField(d, "margin");
    assert NullableField(o, "opacity") == NullableField(d, "opacity");
    assert VisibilityField(o) == VisibilityField(d);
    assert EnumField(o, "overflow", Overflows) == EnumField(d, "overflow", Overflows);
    assert OptionalColorField(o, "borderColor") == OptionalColorField(d, "borderColor");
    assert BBoxField(o, "borderWidth") == BBoxField(d, "borderWidth");
    assert CornersField(o, "borderRadius") == CornersField(d, "borderRadius");
    assert ShadowsField(o) == ShadowsField(d);
    assert NullableField(o, "zIndex") == NullableField(d, "zIndex");
    assert NullableField(o, "rotation") == NullableField(d, "rotation");
    DecodeStyleFields(o, s.(background := bg));
  }

  /** A container object whose other parts parse as `c`'s, with the given size and style objects. */
  lemma ContainerWithParts(d: map<string, Value>, c: ContainerConfig.ContainerStyleConfig,
                           sz: Value, st: Value)
    requires TagIs(d, "type", "container")
    requires PositionConfig.PositionField(d) == Some(c.position)
    requires ContainerConfig.LayoutField(d) == Some(c.layout)
    requires FilterConfig.FilterField(d) == Some(c.filter)
    requires SizeConfig.DecodeSize(sz) == Some(c.size)
    requires DecodeStyle(st) == Some(c.style)
    ensures ContainerConfig.DecodeContainerStyle(Obj(d["size" := sz]["style" := st])) == Some(c)
  {
    var o := d["size" := sz]["style" := st];
    assert PositionConfig.PositionField(o) == PositionConfig.PositionField(d);
    assert ContainerConfig.LayoutField(o) == ContainerConfig.LayoutField(d);
    assert FilterConfig.FilterField(o) == FilterConfig.FilterField(d);
    ContainerConfig.DecodeContainerStyleFields(o, c);
  }

  lemma RootSizeDecode()
    ensures SizeConfig.DecodeSize(RootSizeJson) == Some(RootContainer.size)
  {
    ContainerConfig.ContainerSizeDefaultsDecode();
    SizeConfig.SizeItemRoundTrip(SizeConfig.Relative(Defined(100.0)));
    SizeWithHeight(ContainerConfig.ContainerSizeDefaults.fields, ContainerConfig.InitialContainer.size,
                   FullHeightJson, SizeConfig.Relative(Defined(100.0)));
  }

  lemma RootStyleDecode()
    ensures DecodeStyle(RootStyleJson) == Some(RootContainer.style)
  {
    ContainerConfig.ContainerStyleDefaultsDecode();
    PickerFieldOf(RootStyleJson.fields, "background", Some(ColorFill(ColorValue("#ffffff", 100.0))));
    StyleWithBackground(ContainerConfig.ContainerStyleDefaults.fields, ContainerConfig.InitialContainerStyle,
                        WhiteJson, Some(ColorFill(ColorValue("#ffffff", 100.0))));
  }

  /**
   * `ROOT_NODE_LAYOUT` parses as a container configuration: the container
   * defaults, except that the height is relative 100 and the background is
   * opaque white.
   */
  lemma RootNodeLayoutConfig()
    ensures ContainerConfig.DecodeContainerStyle(RootNodeLayout) == Some(RootContainer)
  {
    MergedRoot();
    ContainerConfig.ContainerDefaultsShape();
    ContainerConfig.ContainerDefaultsFilter();
    ContainerConfig.ContainerDefaultsParts();
    RootSizeDecode();
    RootStyleDecode();
    ContainerWithParts(ContainerConfig.ContainerDefaults.fields, RootContainer, RootSizeJson, RootStyleJson);
  }
}
