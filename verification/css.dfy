/**
 * The vocabulary of generated style objects.
 *
 * A generated string is a sequence of pieces: literal text, a number as the
 * template literal would print it, and a colour as the `color` library would
 * print it. Concatenation and joining are real sequence operations; printing a
 * number or a colour is left uninterpreted.
 *
 * A style object maps properties to `Some(value)` or to `None`, the latter
 * being a key explicitly set to `undefined` (or `null`): spreading such an
 * object over another one still overwrites the earlier value, and the renderer
 * finally drops it.
 */
module Css {
  import opened Common
  import CssProps

  datatype Piece =
    | Lit(s: string)
    | Num(x: real)
    | Rgba(hex: string, alpha: real)

  type Text = seq<Piece>

  /** A React style value: a number, or a string. */
  datatype CssValue = Numeric(n: real) | Textual(t: Text)

  type Decls = map<CssProps.Prop, Option<CssValue>>

  /** A keyword such as `'flex'` or `'auto'`. */
  function Kw(s: string): CssValue {
    Textual([Lit(s)])
  }

  /** `${m}` for a nullable-optional number. */
  function Show(m: Maybe): Piece {
    match m
    case Undefined => Lit("undefined")
    case Nil => Lit("null")
    case Defined(n) => Num(n)
  }

  /** `m ?? undefined` used as a number value. */
  function NumberOrUnset(m: Maybe): (r: Option<CssValue>)
    ensures r.Some? <==> m.Defined?
    ensures m.Defined? ==> r.value == Numeric(m.n)
  {
    if m.Defined? then Some(Numeric(m.n)) else None
  }

  /** `m || undefined` used as a number value: a zero is dropped like a missing value. */
  function TruthyOrUnset(m: Maybe): (r: Option<CssValue>)
    ensures r.Some? <==> m.Defined? && m.n != 0.0
    ensures r.Some? ==> r.value == Numeric(m.n)
  {
    if m.Truthy() then Some(Numeric(m.n)) else None
  }

  /** The text prints as the empty string (a falsy string). */
  predicate Blank(t: Text) {
    forall i :: 0 <= i < |t| ==> t[i] == Lit("")
  }

  /** `parts.join(sep)`. */
  function Join(parts: seq<Text>, sep: Text): Text
  {
    if |parts| == 0 then []
    else if |parts| == 1 then parts[0]
    else parts[0] + sep + Join(parts[1..], sep)
  }

  /** Joining two non-empty lists is joining each and putting one separator between them. */
  lemma {:induction false} JoinAppend(a: seq<Text>, b: seq<Text>, sep: Text)
    requires |a| > 0 && |b| > 0
    ensures Join(a + b, sep) == Join(a, sep) + sep + Join(b, sep)
    decreases |a|
  {
    if |a| == 1 {
      assert (a + b)[1..] == b;
    } else {
      assert (a + b)[1..] == a[1..] + b;
      JoinAppend(a[1..], b, sep);
    }
  }

  /** The declarations a renderer actually emits: keys set to undefined are dropped. */
  function Rendered(d: Decls): (r: map<CssProps.Prop, CssValue>)
    ensures forall k :: k in r <==> k in d && d[k].Some?
    ensures forall k :: k in r ==> r[k] == d[k].value
  {
    map k | k in d && d[k].Some? :: d[k].value
  }
}
