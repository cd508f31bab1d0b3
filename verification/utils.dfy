/**
 * `merge` of src/lib/utils.ts: deepmerge with an array merge that returns the
 * override's array, i.e. a deep merge in which lists are replaced wholesale.
 */
module Utils {
  import opened Common
  import opened Json

  /**
   * What deepmerge, with the list-replacing `arrayMerge` of `merge`, gives for
   * an override that is an object or a list, and what it stores at a key both
   * sides hold. Two objects merge key by key, recursing where both hold the
   * key. Anything else on the override side (a list, a primitive, or an object
   * over a non-object) is taken as is. A primitive override at the top level
   * is `MergeTop`'s business.
   */
  function Merge(base: Value, over: Value): (r: Value)
    ensures base.Obj? && over.Obj? ==> r.Obj? && r.fields.Keys == base.fields.Keys + over.fields.Keys
    ensures base.Obj? && over.Obj? ==>
      forall k :: k in over.fields && !over.fields[k].Obj? ==> r.fields[k] == over.fields[k]
    ensures base.Obj? && over.Obj? ==>
      forall k :: k in base.fields && k !in over.fields ==> r.fields[k] == base.fields[k]
    ensures !(base.Obj? && over.Obj?) ==> r == over
  {
    match over
    case Obj(o) =>
      (match base
       case Obj(b) =>
         Obj(map k | k in b.Keys + o.Keys ::
               if k in o then (if k in b then Merge(b[k], o[k]) else o[k]) else b[k])
       case _ => over)
    case _ => over
  }

  /** Both are objects and the second has every key of the first. */
  predicate KeysGrow(a: Value, b: Value) {
    a.Obj? && b.Obj? && a.fields.Keys <= b.fields.Keys
  }

  /** The base's own keys, which deepmerge copies first: an object's fields, nothing otherwise. */
  function OwnFields(v: Value): (m: map<string, Value>)
    ensures v.Obj? ==> m == v.fields
    ensures !v.Obj? ==> m == map[]
  {
    if v.Obj? then v.fields else map[]
  }

  /** No two indices share a name. */
  lemma IndexNamesDistinct(n: nat)
    ensures forall i :: 0 <= i < n ==> NatString(i) != NatString(n)
  {
    forall i | 0 <= i < n
      ensures NatString(i) != NatString(n)
    {
      if NatString(i) == NatString(n) {
        NatStringInjective(i, n);
      }
    }
  }

  /** The properties `Object.keys` finds on a string: each character under its index name. */
  function IndexEntries(s: string): map<string, Value>
    decreases |s|
  {
    if s == [] then map[] else IndexEntries(s[..|s| - 1])[NatString(|s| - 1) := Str([s[|s| - 1]])]
  }

  /** Each index of the string names its one-character string. */
  lemma {:induction false} IndexEntriesHold(s: string)
    ensures forall i :: 0 <= i < |s| ==> NatString(i) in IndexEntries(s) && IndexEntries(s)[NatString(i)] == Str([s[i]])
    decreases |s|
  {
    if s != [] {
      var n := |s| - 1;
      var init := s[..n];
      var e := IndexEntries(init);
      assert IndexEntries(s) == e[NatString(n) := Str([s[n]])];
      IndexEntriesHold(init);
      IndexNamesDistinct(n);
      forall i | 0 <= i < |s|
        ensures NatString(i) in IndexEntries(s) && IndexEntries(s)[NatString(i)] == Str([s[i]])
      {
        if i < n {
          assert init[i] == s[i];
          assert NatString(i) != NatString(n);
        }
      }
    }
  }

  /** The names of the first `n` indices. */
  function IndexNames(n: nat): set<string> {
    set i | 0 <= i < n :: NatString(i)
  }

  /** The index entries name nothing but the string's indices. */
  lemma {:induction false} IndexEntriesOnly(s: string)
    ensures IndexEntries(s).Keys == IndexNames(|s|)
    decreases |s|
  {
    if s != [] {
      var n := |s| - 1;
      var init := s[..n];
      IndexEntriesOnly(init);
      assert IndexEntries(s) == IndexEntries(init)[NatString(n) := Str([s[n]])];
      assert IndexNames(n + 1) == IndexNames(n) + {NatString(n)};
    }
  }

  /** The index entries name exactly the string's indices, each holding its one-character string. */
  lemma IndexEntriesLaw(s: string)
    ensures forall i :: 0 <= i < |s| ==> NatString(i) in IndexEntries(s) && IndexEntries(s)[NatString(i)] == Str([s[i]])
    ensures IndexEntries(s).Keys == IndexNames(|s|)
  {
    IndexEntriesHold(s);
    IndexEntriesOnly(s);
  }

  /**
   * `merge(base, over)` on any two values. When neither side is a list and
   * the override is not an object, deepmerge still builds an object: the
   * base's own keys, then the override's enumerable properties written over
   * them (none for a number or a boolean, the characters of a string). On
   * `null` and `undefined` that enumeration throws a TypeError, here `None`.
   */
  function MergeTop(base: Value, over: Value): (r: Option<Value>)
    ensures r.None? <==> !base.Arr? && (over.Null? || over.Undef?)
    ensures over.Obj? || over.Arr? || base.Arr? ==> r == Some(Merge(base, over))
  {
    if over.Obj? || over.Arr? || base.Arr? then Some(Merge(base, over))
    else
      match over
      case Str(s) => Some(Obj(OwnFields(base) + IndexEntries(s)))
      case Number(_) => Some(Obj(OwnFields(base)))
      case Bool(_) => Some(Obj(OwnFields(base)))
      case _ => None
  }

  /**
   * A number, boolean or string override at the top level does not replace
   * the base: a number or a boolean leaves the base object as it is (and
   * turns any other base into `{}`), and a string writes each of its
   * characters under its index name over the base's keys.
   */
  lemma ScalarOverride(base: Value, x: Value)
    requires !base.Arr? && (x.Number? || x.Bool? || x.Str?)
    ensures MergeTop(base, x).Some? && MergeTop(base, x).value.Obj?
    ensures base.Obj? && (x.Number? || x.Bool?) ==> MergeTop(base, x) == Some(base)
    ensures !base.Obj? && (x.Number? || x.Bool?) ==> MergeTop(base, x) == Some(Empty)
    ensures x.Str? ==> var m := MergeTop(base, x).value.fields;
      && (forall i :: 0 <= i < |x.s| ==> NatString(i) in m && m[NatString(i)] == Str([x.s[i]]))
      && m.Keys == OwnFields(base).Keys + IndexNames(|x.s|)
      && (forall k :: k in OwnFields(base) && k !in IndexNames(|x.s|) ==> m[k] == OwnFields(base)[k])
  {
    if x.Str? {
      IndexEntriesLaw(x.s);
    }
  }

  /** The value at a path of object keys, if every step exists. */
  function At(v: Value, path: seq<string>): Option<Value>
    decreases |path|
  {
    if path == [] then Some(v)
    else if v.Obj? && path[0] in v.fields then At(v.fields[path[0]], path[1..])
    else None
  }

  /**
   * The override does not set `path`: walking the path through objects, the
   * override runs out of keys before reaching the end.
   */
  predicate Unset(over: Value, path: seq<string>)
    decreases |path|
  {
    path != [] && over.Obj? &&
    (path[0] !in over.fields || Unset(over.fields[path[0]], path[1..]))
  }

  /** At a key both sides hold, a value of the override that is not itself an object wins outright. */
  lemma {:induction false} KeyOverrideWins(base: Value, over: Value, path: seq<string>, x: Value)
    requires At(over, path) == Some(x) && !x.Obj?
    ensures At(Merge(base, over), path) == Some(x)
    decreases |path|
  {
    if path != [] && base.Obj? && over.Obj? {
      var k := path[0];
      var r := Merge(base, over);
      assert r.fields[k] == (if k in base.fields then Merge(base.fields[k], over.fields[k]) else over.fields[k]);
      if k in base.fields {
        KeyOverrideWins(base.fields[k], over.fields[k], path[1..], x);
      }
    }
  }

  /** A value of the base at a path the override does not set survives the per-key merge. */
  lemma {:induction false} KeyBaseSurvives(base: Value, over: Value, path: seq<string>, x: Value)
    requires At(base, path) == Some(x) && Unset(over, path)
    ensures At(Merge(base, over), path) == Some(x)
    decreases |path|
  {
    var k := path[0];
    var r := Merge(base, over);
    if k in over.fields {
      assert r.fields[k] == Merge(base.fields[k], over.fields[k]);
      KeyBaseSurvives(base.fields[k], over.fields[k], path[1..], x);
    } else {
      assert r.fields[k] == base.fields[k];
    }
  }

  /**
   * `merge` and a value of the override that is not itself an object: below
   * the top level, or as a list, it wins outright; `null` or `undefined` as the
   * whole override (over a non-list) throws; a number or a boolean as the whole
   * override keeps an object base, and a string extends it (`ScalarOverride`).
   */
  lemma OverrideWins(base: Value, over: Value, path: seq<string>, x: Value)
    requires At(over, path) == Some(x) && !x.Obj?
    ensures MergeTop(base, over).None? <==> path == [] && !base.Arr? && (x.Null? || x.Undef?)
    ensures path != [] || x.Arr? || base.Arr? ==> At(MergeTop(base, over).value, path) == Some(x)
    ensures path == [] && base.Obj? && (x.Number? || x.Bool?) ==> MergeTop(base, over) == Some(base)
    ensures path == [] && base.Obj? && x.Str? ==> KeysGrow(base, MergeTop(base, over).value)
  {
    if path != [] {
      KeyOverrideWins(base, over, path, x);
    } else if !base.Arr? && (x.Number? || x.Bool? || x.Str?) {
      ScalarOverride(base, x);
    }
  }

  /** A value of the base at a path the override does not set survives `merge`. */
  lemma BaseSurvives(base: Value, over: Value, path: seq<string>, x: Value)
    requires At(base, path) == Some(x) && Unset(over, path)
    ensures MergeTop(base, over).Some? && At(MergeTop(base, over).value, path) == Some(x)
  {
    KeyBaseSurvives(base, over, path, x);
  }

  /** An override list replaces the base list: lists are never concatenated. */
  lemma ListReplaces(base: Value, xs: seq<Value>)
    ensures MergeTop(base, Arr(xs)) == Some(Arr(xs))
    ensures Merge(base, Arr(xs)) == Arr(xs)
  {
  }

  /** Merging an empty override object returns the base object (the factories' default path). */
  lemma RightIdentity(base: Value)
    requires base.Obj?
    ensures MergeTop(base, Empty) == Some(base)
  {
    assert Merge(base, Empty).fields == base.fields;
  }

  /**
   * Merging an object or a list into an empty object returns it (the
   * cascade's first step); a number or a boolean gives the empty object back.
   */
  lemma LeftIdentity(over: Value)
    ensures over.Obj? || over.Arr? ==> MergeTop(Empty, over) == Some(over)
    ensures over.Number? || over.Bool? ==> MergeTop(Empty, over) == Some(Empty)
    ensures Merge(Empty, over) == over
  {
    if over.Obj? {
      assert Merge(Empty, over).fields == over.fields;
    }
  }

  /** Merging a value with itself returns it, at any key and for an object or a list at the top. */
  lemma {:induction false} Idempotent(v: Value)
    ensures Merge(v, v) == v
    ensures v.Obj? || v.Arr? ==> MergeTop(v, v) == Some(v)
  {
    if v.Obj? {
      var m := Merge(v, v).fields;
      forall k | k in v.fields
        ensures m[k] == v.fields[k]
      {
        Idempotent(v.fields[k]);
      }
      assert m == v.fields;
    }
  }
}
