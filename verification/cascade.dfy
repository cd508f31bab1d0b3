/**
 * `DEVICES_TO_MERGE` and `computeFinalLayout` of src/lib/layout/styles.ts: the
 * layout shown on a device is the desktop layout with the overrides of every
 * narrower tier up to that device merged over it, in order.
 */
module Cascade {
  import opened Common
  import opened Json
  import opened Utils
  import opened Devices
  import Element

  /** `DEVICES_TO_MERGE[d]`. */
  function DevicesToMerge(d: Device): (r: seq<Device>)
    ensures r == AllDevices[..DeviceIndex(d) + 1]
  {
    match d
    case Desktop => [Desktop]
    case Tablet => [Desktop, Tablet]
    case Mobile => [Desktop, Tablet, Mobile]
  }

  /** `responsiveLayout[size]`; a missing tier is `Undef`. */
  function Tier(r: Element.ResponsiveLayout, d: Device): Value {
    match d
    case Desktop => Element.EncodeLayout(r.desktop)
    case Tablet => r.tablet
    case Mobile => r.mobile
  }

  /** One step of the reduction: a falsy tier is skipped, a truthy one is merged (and never throws). */
  function Step(acc: Value, layout: Value): (r: Value)
    ensures !Truthy(layout) ==> r == acc
    ensures Truthy(layout) ==> MergeTop(acc, layout) == Some(r)
  {
    if Truthy(layout) then MergeTop(acc, layout).value else acc
  }

  /** `devices.reduce(step, acc)`, left to right. */
  function Fold(acc: Value, r: Element.ResponsiveLayout, ds: seq<Device>): Value
    decreases |ds|
  {
    if ds == [] then acc else Fold(Step(acc, Tier(r, ds[0])), r, ds[1..])
  }

  /** `computeFinalLayout(responsiveLayout, device)`. */
  function ComputeFinalLayout(r: Element.ResponsiveLayout, d: Device): Value {
    Fold(Empty, r, DevicesToMerge(d))
  }

  /** Folding over one more device is one more step on the previous result. */
  lemma {:induction false} FoldSnoc(acc: Value, r: Element.ResponsiveLayout, ds: seq<Device>, d: Device)
    ensures Fold(acc, r, ds + [d]) == Step(Fold(acc, r, ds), Tier(r, d))
    decreases |ds|
  {
    if ds == [] {
      assert ([] + [d])[1..] == [];
    } else {
      assert (ds + [d])[0] == ds[0];
      assert (ds + [d])[1..] == ds[1..] + [d];
      FoldSnoc(Step(acc, Tier(r, ds[0])), r, ds[1..], d);
    }
  }

  lemma EncodedIsObject(l: Element.ElementLayout)
    ensures Element.EncodeLayout(l).Obj?
  {
  }

  /** On desktop the final layout is the desktop layout itself. */
  lemma DesktopLayout(r: Element.ResponsiveLayout)
    ensures ComputeFinalLayout(r, Desktop) == Element.EncodeLayout(r.desktop)
  {
    var desktop := Element.EncodeLayout(r.desktop);
    EncodedIsObject(r.desktop);
    LeftIdentity(desktop);
    assert [Desktop][1..] == [];
    assert Fold(Empty, r, [Desktop]) == Fold(Step(Empty, desktop), r, []);
  }

  /** Each narrower device adds exactly its own tier's override to the previous one. */
  lemma Incremental(r: Element.ResponsiveLayout)
    ensures ComputeFinalLayout(r, Tablet) == Step(ComputeFinalLayout(r, Desktop), r.tablet)
    ensures ComputeFinalLayout(r, Mobile) == Step(ComputeFinalLayout(r, Tablet), r.mobile)
  {
    FoldSnoc(Empty, r, [Desktop], Tablet);
    assert [Desktop] + [Tablet] == [Desktop, Tablet];
    FoldSnoc(Empty, r, [Desktop, Tablet], Mobile);
    assert [Desktop, Tablet] + [Mobile] == [Desktop, Tablet, Mobile];
  }

  /**
   * The cascade in closed form: tablet is desktop merged with the tablet
   * override, mobile is that merged with the mobile override; a missing or
   * falsy override leaves the previous layout unchanged.
   */
  lemma CascadeLaw(r: Element.ResponsiveLayout)
    ensures ComputeFinalLayout(r, Desktop) == Element.EncodeLayout(r.desktop)
    ensures ComputeFinalLayout(r, Tablet) == Step(Element.EncodeLayout(r.desktop), r.tablet)
    ensures ComputeFinalLayout(r, Mobile) == Step(Step(Element.EncodeLayout(r.desktop), r.tablet), r.mobile)
  {
    DesktopLayout(r);
    Incremental(r);
  }

  /** With no overrides every device shows the desktop layout, which parses back to itself. */
  lemma NoOverrides(r: Element.ResponsiveLayout, d: Device)
    requires !Truthy(r.tablet) && !Truthy(r.mobile)
    requires Element.ValidLayout(r.desktop)
    ensures ComputeFinalLayout(r, d) == Element.EncodeLayout(r.desktop)
    ensures Element.DecodeLayout(ComputeFinalLayout(r, d)) == Some(r.desktop)
  {
    CascadeLaw(r);
    Element.LayoutRoundTrip(r.desktop);
  }

  /** The tier does not set `path`: it is skipped, or its object runs out of keys on the path. */
  predicate Leaves(tier: Value, path: seq<string>) {
    !Truthy(tier) || Unset(tier, path)
  }

  /** A desktop setting that no narrower override touches reaches every device. */
  lemma DesktopSurvives(r: Element.ResponsiveLayout, d: Device, path: seq<string>, x: Value)
    requires At(Element.EncodeLayout(r.desktop), path) == Some(x)
    requires Leaves(r.tablet, path) && Leaves(r.mobile, path)
    ensures At(ComputeFinalLayout(r, d), path) == Some(x)
  {
    CascadeLaw(r);
    var desktop := Element.EncodeLayout(r.desktop);
    var tablet := Step(desktop, r.tablet);
    if Truthy(r.tablet) {
      BaseSurvives(desktop, r.tablet, path, x);
    }
    assert At(tablet, path) == Some(x);
    if Truthy(r.mobile) {
      BaseSurvives(tablet, r.mobile, path, x);
    }
  }

  /**
   * One truthy tier over a layout that is an object or a list. A value the
   * tier sets below the top (not an object), or a list as the whole tier, is
   * what the result shows. A number or a boolean as the whole tier leaves an
   * object layout as it is, and a string extends it. Over an object the
   * result is again an object or a list.
   */
  lemma StepOverride(acc: Value, tier: Value, path: seq<string>, x: Value)
    requires acc.Obj? || acc.Arr?
    requires Truthy(tier) && At(tier, path) == Some(x) && !x.Obj?
    ensures path != [] || x.Arr? || acc.Arr? ==> At(Step(acc, tier), path) == Some(x)
    ensures path == [] && acc.Obj? && (x.Number? || x.Bool?) ==> Step(acc, tier) == acc
    ensures path == [] && acc.Obj? && x.Str? ==> KeysGrow(acc, Step(acc, tier))
    ensures acc.Obj? ==> Step(acc, tier).Obj? || Step(acc, tier).Arr?
  {
    OverrideWins(acc, tier, path, x);
    if path == [] && acc.Obj? && !x.Arr? {
      ScalarOverride(acc, x);
    }
  }

  /** A step over an object layout gives an object or a list. */
  lemma StepStructured(acc: Value, tier: Value)
    requires acc.Obj?
    ensures Step(acc, tier).Obj? || Step(acc, tier).Arr?
  {
    if Truthy(tier) && !tier.Obj? {
      StepOverride(acc, tier, [], tier);
    }
  }

  /**
   * The desktop layout is an object and the tablet layout an object or a
   * list. (A string mobile tier over a list tablet layout makes the mobile
   * layout that string.)
   */
  lemma FinalIsStructured(r: Element.ResponsiveLayout)
    ensures ComputeFinalLayout(r, Desktop).Obj?
    ensures ComputeFinalLayout(r, Tablet).Obj? || ComputeFinalLayout(r, Tablet).Arr?
  {
    DesktopLayout(r);
    EncodedIsObject(r.desktop);
    Incremental(r);
    StepStructured(ComputeFinalLayout(r, Desktop), r.tablet);
  }

  /**
   * What the mobile override does to the tablet layout: `StepOverride` with
   * the tablet layout as the base.
   */
  lemma MobileOverrideWins(r: Element.ResponsiveLayout, path: seq<string>, x: Value)
    requires Truthy(r.mobile) && At(r.mobile, path) == Some(x) && !x.Obj?
    ensures path != [] || x.Arr? || ComputeFinalLayout(r, Tablet).Arr? ==>
      At(ComputeFinalLayout(r, Mobile), path) == Some(x)
    ensures path == [] && ComputeFinalLayout(r, Tablet).Obj? && (x.Number? || x.Bool?) ==>
      ComputeFinalLayout(r, Mobile) == ComputeFinalLayout(r, Tablet)
    ensures path == [] && ComputeFinalLayout(r, Tablet).Obj? && x.Str? ==>
      KeysGrow(ComputeFinalLayout(r, Tablet), ComputeFinalLayout(r, Mobile))
  {
    FinalIsStructured(r);
    Incremental(r);
    StepOverride(ComputeFinalLayout(r, Tablet), r.mobile, path, x);
  }

  /**
   * What the tablet override does to the desktop layout: `StepOverride` with
   * the desktop object as the base. Mobile shows the same as tablet at any
   * path the mobile override leaves.
   */
  lemma TabletOverrideWins(r: Element.ResponsiveLayout, path: seq<string>, x: Value)
    requires Truthy(r.tablet) && At(r.tablet, path) == Some(x) && !x.Obj?
    ensures path != [] || x.Arr? ==> At(ComputeFinalLayout(r, Tablet), path) == Some(x)
    ensures path == [] && (x.Number? || x.Bool?) ==>
      ComputeFinalLayout(r, Tablet) == ComputeFinalLayout(r, Desktop)
    ensures path == [] && x.Str? ==> KeysGrow(ComputeFinalLayout(r, Desktop), ComputeFinalLayout(r, Tablet))
    ensures Leaves(r.mobile, path) ==>
      At(ComputeFinalLayout(r, Mobile), path) == At(ComputeFinalLayout(r, Tablet), path)
  {
    FinalIsStructured(r);
    Incremental(r);
    var tablet := ComputeFinalLayout(r, Tablet);
    StepOverride(ComputeFinalLayout(r, Desktop), r.tablet, path, x);
    if Truthy(r.mobile) && Unset(r.mobile, path) {
      BaseSurvives(tablet, r.mobile, path, x);
    }
  }
}
