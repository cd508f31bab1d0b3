/**
 * The JSON-like values the responsive overrides are made of. The tablet and
 * mobile tiers of a responsive layout are untyped (`z.any()` in
 * src/lib/element.tsx), so the cascade merges these values and the typed
 * configurations are read back out of them by the decoders of each schema.
 */
module Json {
  import opened Common

  /**
   * `Undef` is a key explicitly holding `undefined`: zod treats it like a
   * missing key, and deepmerge copies it over the base value like any other
   * non-object.
   */
  datatype Value =
    | Undef
    | Null
    | Bool(b: bool)
    | Number(n: real)
    | Str(s: string)
    | Arr(items: seq<Value>)
    | Obj(fields: map<string, Value>)

  /** JavaScript truthiness of a value (NaN is not modelled). */
  predicate Truthy(v: Value) {
    match v
    case Undef => false
    case Null => false
    case Bool(b) => b
    case Number(n) => n != 0.0
    case Str(s) => s != ""
    case Arr(_) => true
    case Obj(_) => true
  }

  const Empty: Value := Obj(map[])

  function AsObject(v: Value): (r: Option<map<string, Value>>)
    ensures r.Some? <==> v.Obj?
    ensures v.Obj? ==> r.value == v.fields
  {
    if v.Obj? then Some(v.fields) else None
  }

  /** The object's `type` discriminant equals `tag`. */
  predicate TagIs(o: map<string, Value>, key: string, tag: string) {
    key in o && o[key] == Str(tag)
  }

  /** The key is missing or holds `undefined`: what `.optional()` accepts as "not given". */
  predicate Absent(o: map<string, Value>, k: string) {
    k !in o || o[k] == Undef
  }

  /** A required `z.number()` field. */
  function NumberField(o: map<string, Value>, k: string): (r: Option<real>)
    ensures r.Some? <==> k in o && o[k].Number?
    ensures r.Some? ==> o[k] == Number(r.value)
  {
    if k in o && o[k].Number? then Some(o[k].n) else None
  }

  /** A required `z.string()` field. */
  function StringField(o: map<string, Value>, k: string): (r: Option<string>)
    ensures r.Some? <==> k in o && o[k].Str?
    ensures r.Some? ==> o[k] == Str(r.value)
  {
    if k in o && o[k].Str? then Some(o[k].s) else None
  }

  /** A required `z.enum([...])` field. */
  function EnumField(o: map<string, Value>, k: string, allowed: set<string>): (r: Option<string>)
    ensures r.Some? <==> k in o && o[k].Str? && o[k].s in allowed
    ensures r.Some? ==> o[k] == Str(r.value) && r.value in allowed
  {
    if k in o && o[k].Str? && o[k].s in allowed then Some(o[k].s) else None
  }

  /** A `z.number().nullable().optional()` field: missing, null or a number. */
  function NullableField(o: map<string, Value>, k: string): (r: Option<Maybe>)
    ensures r == Some(Undefined) <==> Absent(o, k)
    ensures r == Some(Nil) <==> k in o && o[k] == Null
    ensures r.None? <==> k in o && !o[k].Undef? && !o[k].Null? && !o[k].Number?
  {
    if Absent(o, k) then Some(Undefined)
    else match o[k]
      case Null => Some(Nil)
      case Number(n) => Some(Defined(n))
      case _ => None
  }

  /** A `z.number().optional()` field: missing or a number (null is rejected). */
  function OptionalNumberField(o: map<string, Value>, k: string): (r: Option<Option<real>>)
    ensures r == Some(None) <==> Absent(o, k)
    ensures r.None? <==> !Absent(o, k) && !o[k].Number?
  {
    if Absent(o, k) then Some(None)
    else if o[k].Number? then Some(Some(o[k].n))
    else None
  }

  /** A `z.enum([...]).optional()` field. */
  function OptionalEnumField(o: map<string, Value>, k: string, allowed: set<string>): (r: Option<Option<string>>)
    ensures r == Some(None) <==> Absent(o, k)
    ensures r.None? <==> !Absent(o, k) && !(o[k].Str? && o[k].s in allowed)
  {
    if Absent(o, k) then Some(None)
    else if o[k].Str? && o[k].s in allowed then Some(Some(o[k].s))
    else None
  }

  /** A `z.boolean().optional()` field. */
  function OptionalBoolField(o: map<string, Value>, k: string): (r: Option<Option<bool>>)
    ensures r == Some(None) <==> Absent(o, k)
    ensures r.None? <==> !Absent(o, k) && !o[k].Bool?
  {
    if Absent(o, k) then Some(None)
    else if o[k].Bool? then Some(Some(o[k].b))
    else None
  }

  /** The JSON form of a nullable-optional number. */
  function MaybeJson(m: Maybe): Value {
    match m
    case Undefined => Undef
    case Nil => Null
    case Defined(n) => Number(n)
  }

  /** A nullable-optional number reads back from its JSON form. */
  lemma NullableFieldOf(o: map<string, Value>, k: string, m: Maybe)
    requires k in o && o[k] == MaybeJson(m)
    ensures NullableField(o, k) == Some(m)
  {
  }

  function DigitChar(d: nat): (c: char)
    requires d < 10
    ensures '0' <= c <= '9'
    ensures c as int == '0' as int + d
  {
    ('0' as int + d) as char
  }

  /** A natural number in decimal, as a template literal prints it and as an index names a property. */
  function NatString(n: nat): (r: string)
    ensures |r| >= 1
    ensures forall i :: 0 <= i < |r| ==> '0' <= r[i] <= '9'
  {
    if n < 10 then [DigitChar(n)] else NatString(n / 10) + [DigitChar(n % 10)]
  }

  /** Two strings that each end in one more character agree exactly when both parts do. */
  lemma SnocInjective(x: string, c: char, y: string, d: char)
    requires x + [c] == y + [d]
    ensures x == y && c == d
  {
    assert x == (x + [c])[..|x|];
    assert y == (y + [d])[..|y|];
  }

  /** Distinct numbers print differently, so index names never collide. */
  lemma {:induction false} NatStringInjective(a: nat, b: nat)
    requires NatString(a) == NatString(b)
    ensures a == b
    decreases a
  {
    if a >= 10 && b >= 10 {
      SnocInjective(NatString(a / 10), DigitChar(a % 10), NatString(b / 10), DigitChar(b % 10));
      NatStringInjective(a / 10, b / 10);
    }
  }
}
