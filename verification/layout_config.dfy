/**
 * `layoutConfig` of src/lib/layout/layout-config.ts: a flex or a grid layout,
 * discriminated on `type`.
 */
module LayoutConfig {
  import opened Common
  import opened Json

  datatype Direction = Row | Column

  /**
   * Flex `gap` is a required number; grid `gap` is nullable and optional, so
   * it is kept under a name of its own.
   */
  datatype Layout =
    | Flex(direction: Direction, directionReverse: Option<bool>, alignItems: string,
           justifyContent: string, wrap: string, gap: real)
    | Grid(columns: real, rows: real, gridGap: Maybe, alignItems: string)

  const AlignItems: set<string> := {"flex-start", "center", "flex-end"}
  const JustifyContents: set<string> :=
    {"flex-start", "flex-end", "center", "space-between", "space-around", "space-evenly", "stretch"}
  const Wraps: set<string> := {"nowrap", "wrap"}

  predicate ValidLayout(l: Layout) {
    l.alignItems in AlignItems &&
    (l.Flex? ==> l.justifyContent in JustifyContents && l.wrap in Wraps)
  }

  function DirectionName(d: Direction): string {
    if d == Row then "row" else "column"
  }

  function EncodeLayout(l: Layout): Value {
    match l
    case Flex(direction, reverse, align, justify, wrap, gap) =>
      Obj(map["type" := Str("flex"), "direction" := Str(DirectionName(direction)),
              "directionReverse" := (if reverse.Some? then Bool(reverse.value) else Undef),
              "alignItems" := Str(align), "justifyContent" := Str(justify), "wrap" := Str(wrap),
              "gap" := Number(gap)])
    case Grid(columns, rows, gap, align) =>
      Obj(map["type" := Str("grid"), "columns" := Number(columns), "rows" := Number(rows),
              "gap" := MaybeJson(gap), "alignItems" := Str(align)])
  }

  function DecodeFlex(o: map<string, Value>): Option<Layout> {
    var direction :- EnumField(o, "direction", {"row", "column"});
    var reverse :- OptionalBoolField(o, "directionReverse");
    var align :- EnumField(o, "alignItems", AlignItems);
    var justify :- EnumField(o, "justifyContent", JustifyContents);
    var wrap :- EnumField(o, "wrap", Wraps);
    var gap :- NumberField(o, "gap");
    Some(Flex(if direction == "row" then Row else Column, reverse, align, justify, wrap, gap))
  }

  function DecodeGrid(o: map<string, Value>): Option<Layout> {
    var columns :- NumberField(o, "columns");
    var rows :- NumberField(o, "rows");
    var gap :- NullableField(o, "gap");
    var align :- EnumField(o, "alignItems", AlignItems);
    Some(Grid(columns, rows, gap, align))
  }

  function DecodeLayout(v: Value): (r: Option<Layout>)
    ensures r.Some? ==> ValidLayout(r.value)
    ensures r.Some? ==> v.Obj? && (r.value.Flex? <==> TagIs(v.fields, "type", "flex"))
    ensures r.Some? ==> v.Obj? && (r.value.Grid? <==> TagIs(v.fields, "type", "grid"))
  {
    var o :- AsObject(v);
    if TagIs(o, "type", "flex") then DecodeFlex(o)
    else if TagIs(o, "type", "grid") then DecodeGrid(o)
    else None
  }

  lemma FlexRoundTrip(l: Layout)
    requires l.Flex? && ValidLayout(l)
    ensures DecodeLayout(EncodeLayout(l)) == Some(l)
  {
    var o := EncodeLayout(l).fields;
    assert EnumField(o, "direction", {"row", "column"}) == Some(DirectionName(l.direction));
    assert OptionalBoolField(o, "directionReverse") == Some(l.directionReverse);
    assert EnumField(o, "alignItems", AlignItems) == Some(l.alignItems);
    assert EnumField(o, "justifyContent", JustifyContents) == Some(l.justifyContent);
    assert EnumField(o, "wrap", Wraps) == Some(l.wrap);
    assert DecodeFlex(o) == Some(l);
  }

  lemma GridRoundTrip(l: Layout)
    requires l.Grid? && ValidLayout(l)
    ensures DecodeLayout(EncodeLayout(l)) == Some(l)
  {
  }

  /** Every valid layout survives encoding and parsing unchanged. */
  lemma LayoutRoundTrip(l: Layout)
    requires ValidLayout(l)
    ensures DecodeLayout(EncodeLayout(l)) == Some(l)
  {
    if l.Flex? {
      FlexRoundTrip(l);
    } else {
      GridRoundTrip(l);
    }
  }

  /** A flex layout without a numeric `gap` is rejected; a grid layout without one is not. */
  lemma GapRequiredOnlyForFlex(o: map<string, Value>)
    requires Absent(o, "gap")
    ensures DecodeLayout(Obj(o)).Some? ==> DecodeLayout(Obj(o)).value.Grid?
    ensures DecodeLayout(Obj(o)).Some? ==> DecodeLayout(Obj(o)).value.gridGap == Undefined
  {
  }
}
