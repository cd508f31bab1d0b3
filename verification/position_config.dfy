/**
 * `positionConfig` of src/lib/layout/position-config.ts: a union discriminated
 * on `type`, where only the absolute, fixed and sticky variants carry offsets.
 */
module PositionConfig {
  import opened Common
  import opened Json

  datatype Placement = Absolute | Fixed | Sticky

  /** `relative` carries no offsets; the other three share one offset record. */
  datatype Position =
    | Relative
    | Placed(placement: Placement, top: Maybe, left: Maybe, bottom: Maybe, right: Maybe)

  const Placements: set<string> := {"absolute", "fixed", "sticky"}

  function PlacementName(p: Placement): (r: string)
    ensures r in Placements
  {
    match p
    case Absolute => "absolute"
    case Fixed => "fixed"
    case Sticky => "sticky"
  }

  /** The placement a valid `type` names. */
  function PlacementOf(name: string): (r: Placement)
    requires name in Placements
    ensures PlacementName(r) == name
  {
    if name == "absolute" then Absolute else if name == "fixed" then Fixed else Sticky
  }

  /** The `type` discriminant of a position. */
  function PositionType(p: Position): string {
    if p.Relative? then "relative" else PlacementName(p.placement)
  }

  function EncodePosition(p: Position): Value {
    match p
    case Relative => Obj(map["type" := Str("relative")])
    case Placed(placement, top, left, bottom, right) =>
      Obj(map["type" := Str(PlacementName(placement)), "top" := MaybeJson(top), "left" := MaybeJson(left),
              "bottom" := MaybeJson(bottom), "right" := MaybeJson(right)])
  }

  function DecodePosition(v: Value): (r: Option<Position>)
    ensures r.Some? ==> v.Obj? && "type" in v.fields && v.fields["type"] == Str(PositionType(r.value))
    ensures r == Some(Relative) <==> v.Obj? && TagIs(v.fields, "type", "relative")
  {
    var o :- AsObject(v);
    if TagIs(o, "type", "relative") then Some(Relative)
    else
      var name :- EnumField(o, "type", Placements);
      var top :- NullableField(o, "top");
      var left :- NullableField(o, "left");
      var bottom :- NullableField(o, "bottom");
      var right :- NullableField(o, "right");
      Some(Placed(PlacementOf(name), top, left, bottom, right))
  }

  /** Every position survives encoding and parsing unchanged. */
  lemma PositionRoundTrip(p: Position)
    ensures DecodePosition(EncodePosition(p)) == Some(p)
  {
  }

  /** Offsets are all optional: a bare `{type: 'sticky'}` parses with all four unset. */
  lemma OffsetsOptional(placement: Placement)
    ensures DecodePosition(Obj(map["type" := Str(PlacementName(placement))]))
         == Some(Placed(placement, Undefined, Undefined, Undefined, Undefined))
  {
  }

  /** The required `position` field of an element configuration. */
  function PositionField(o: map<string, Value>): Option<Position> {
    if "position" in o then DecodePosition(o["position"]) else None
  }

  /** `{type: 'relative'}`, the default position of every element. */
  const RelativeJson: Value := Obj(map["type" := Str("relative")])
}
