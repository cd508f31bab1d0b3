# Widget builder style pipeline, modelled in Dafny

The widget builder stores each page element as a responsive layout. The
desktop tier is a complete, schema-checked configuration. The tablet and
mobile tiers are optional, untyped partial overrides. This project models
the pure pieces of the pipeline that turns such a layout into a flat map of
CSS properties (how the pieces are composed on unchecked input is listed under
"Left out"):

- the deep merge (`Utils`) and the desktop → tablet → mobile cascade built on it (`Cascade`);
- the zod schemas of the layout configurations. Each becomes a datatype with a
  validity predicate and a decoder/encoder pair over a JSON-like `Json.Value`
  (`ColorConfig`, `StyleConfig`, `SizeConfig`, `PositionConfig`, `LayoutConfig`,
  `FilterConfig`, `TextConfig`, `ImageConfig`, `IconConfig`, `ContainerConfig`, `Element`);
- the default-configuration factories, which merge the caller's object over
  fixed defaults, and the root container `ROOT_NODE_LAYOUT` (`RootLayout`);
- the element style generator: size and min/max (`SizeStyle`), fills, gradients
  and shadows (`FillStyle`), position, flex/grid layout and the box model
  (`BoxStyle`), the filter composer (`FilterConfig`), and the per-type dispatch
  with its spreading order (`ElementStyle`);
- the element tree navigator over an adjacency map (`Tree`);
- the font helpers: weight lookup, Google Fonts axis and URL, and font gathering (`Fonts`);
- the device list (`Devices`).

Generated CSS strings are sequences of pieces (`Css.Piece`): literal text, a
number as a template literal prints it, or a colour as the colour library
prints it. Concatenation, joining and ordering are modelled exactly. How a
number or a colour is printed is left uninterpreted. A style object maps
properties (`CssProps.Prop`, grouped by the generator that writes them) to
`Some(value)`, or to `None` for a key set to `undefined`. Spreading an object
with an undefined key still overwrites the earlier value. A renderer then
drops it (`Css.Rendered`).

## Model

| member | source | states |
|---|---|---|
| Utils.Merge | src/lib/utils.ts:25-27 | The merge below the top level, where the cascade and the factories merge fields. Two objects merge to exactly the union of their keys; an override field that is not an object wins; a base field the override does not mention is kept; any other pair of values gives the override |
| Utils.MergeTop | src/lib/utils.ts:25-27 | The whole call throws exactly when a `null` or `undefined` override meets a base that is not a list. An object or list override, or a list base, merges as below the top level |
| Utils.ScalarOverride | src/lib/utils.ts:25-27 | A number or boolean as the whole override leaves an object base as it is and gives `{}` over any other non-list base. A string adds its index keys `"0"`…`"n-1"`, each holding that character, and keeps every other base key |
| Utils.IndexEntriesLaw | src/lib/utils.ts:25-27 | The own keys a string contributes are exactly the decimal names of its indices, each holding the one-character string at that index |
| Utils.KeyOverrideWins | src/lib/utils.ts:25-27 | Below the top level, a non-object value at any path of the override is the value at that path in the merge |
| Utils.KeyBaseSurvives | src/lib/utils.ts:25-27 | Below the top level, a value at a path the override leaves unset keeps its base value |
| Utils.OverrideWins | src/lib/utils.ts:25-27 | For the whole call: a non-object value that the override sets below the top wins at its path, and so does a list as the whole override. A number or boolean as the whole override keeps an object base; a string keeps every key of an object base. The call throws only for a `null` or `undefined` whole override over a non-list base |
| Utils.BaseSurvives | src/lib/utils.ts:25-27 | A value at a path the override leaves unset keeps its base value, so a partial nested override keeps sibling fields, and the call does not throw |
| Utils.ListReplaces | src/lib/utils.ts:26 | An override list replaces the base wholesale and is never concatenated with a base list |
| Utils.RightIdentity | src/lib/utils.ts:25-27 | Merging `{}` into an object gives that object back (the factories' default-argument path) |
| Utils.LeftIdentity | src/lib/utils.ts:25-27 | Merging an object or list override into `{}` gives the override; a number or boolean gives `{}` |
| Utils.Idempotent | src/lib/utils.ts:25-27 | Merging an object or list with itself gives it back |
| Devices.DeviceIndex | src/lib/devices.tsx:3-5 | Every device has a position in `DEVICES` holding that device |
| Devices.DevicesListedOnce | src/lib/devices.tsx:3-5 | `DEVICES` lists each device exactly once |
| Devices.SizesDecrease | src/lib/devices.tsx:6-13 | The device sizes are 1440, 768 and 480, and a device listed earlier is strictly wider |
| Cascade.DevicesToMerge | src/lib/layout/styles.ts:388-392 | The tiers merged for a device are the prefix of `DEVICES` that ends with that device |
| Cascade.Step | src/lib/layout/styles.ts:394-400 | A missing (falsy) tier leaves the accumulated layout unchanged; a present tier is merged in, and that merge never throws |
| Cascade.StepOverride | src/lib/layout/styles.ts:394-400 | Over an object or list layout, a non-object value a present tier sets below the top, or a list as the whole tier, is what the result shows. A number or boolean as the whole tier leaves an object layout as it is, and a string keeps all its keys. Over an object the result is an object or a list |
| Cascade.StepStructured | src/lib/layout/styles.ts:394-400 | A step over an object layout gives an object or a list |
| Cascade.FoldSnoc | src/lib/layout/styles.ts:394-400 | Folding one more tier is one more merge step applied to the fold so far |
| Cascade.DesktopLayout | src/lib/layout/styles.ts:388-400 | The desktop layout is the desktop tier merged into `{}`, which is the desktop tier itself |
| Cascade.Incremental | src/lib/layout/styles.ts:388-400 | The tablet layout is the desktop layout plus the tablet step; the mobile layout is the tablet layout plus the mobile step |
| Cascade.ComputeFinalLayout | src/lib/layout/styles.ts:388-400 | `computeFinalLayout`, the reduce over the device prefix; its contract is stated by `Cascade.CascadeLaw` and `Cascade.Incremental` |
| Cascade.CascadeLaw | src/lib/layout/styles.ts:388-400 | Closed form of the cascade for each device: desktop, then desktop+tablet, then desktop+tablet+mobile |
| Cascade.NoOverrides | src/lib/layout/styles.ts:388-400 | With no tablet or mobile override, every device gets the desktop layout, and it still parses to the same typed layout |
| Cascade.DesktopSurvives | src/lib/layout/styles.ts:388-400 | A desktop value at a path no present override touches reaches every device's final layout |
| Cascade.FinalIsStructured | src/lib/layout/styles.ts:388-400 | The desktop layout is an object, and the tablet layout an object or a list |
| Cascade.TabletOverrideWins | src/lib/layout/styles.ts:388-400 | A non-object tablet value set below the top, or a list as the whole tier, wins on tablet. A number or boolean as the whole tier gives the desktop layout unchanged, and a string keeps every desktop key. Mobile shows the tablet value at any path the mobile tier leaves |
| Cascade.MobileOverrideWins | src/lib/layout/styles.ts:388-400 | The same for mobile over the tablet layout: a value set below the top or a list tier wins; a number or boolean tier keeps an object tablet layout; a string keeps its keys |
| ColorConfig.DecodePicker | src/lib/layout/color-config.ts:40 | A parsed fill is a valid colour, gradient or image fill |
| ColorConfig.ColorRoundTrip | src/lib/layout/color-config.ts:3-7 | A colour value `{type, color, opacity}` parses back from its JSON form |
| ColorConfig.StopsRoundTrip | src/lib/layout/color-config.ts:9-13 | A list of gradient stops (colour, position, opacity) parses back in order |
| ColorConfig.GradientRoundTrip | src/lib/layout/color-config.ts:15-30 | A gradient is not mistaken for a colour, and it parses back with its angle exactly when it is linear |
| ColorConfig.ImageRoundTrip | src/lib/layout/color-config.ts:32-38 | A valid image fill is neither a colour nor a gradient, and it parses back with its closed size/repeat/position enums |
| ColorConfig.PickerRoundTrip | src/lib/layout/color-config.ts:40 | Every valid fill parses back as exactly the same variant of the union |
| StyleConfig.DecodeStyle | src/lib/layout/style-config.ts:22-40 | A parsed style satisfies the schema's enums (visibility, overflow) and fill validity |
| StyleConfig.ShadowRoundTrip | src/lib/layout/style-config.ts:4-11 | A shadow, whose colour is a plain colour value, parses back |
| StyleConfig.ShadowsRoundTrip | src/lib/layout/style-config.ts:37 | A shadow list parses back in order |
| StyleConfig.BBoxRoundTrip | src/lib/layout/style-config.ts:15-20 | Each of the four nullable-optional sides survives encoding, including absent and null |
| StyleConfig.CornersRoundTrip | src/lib/layout/style-config.ts:30-35 | Each of the four nullable-optional corners survives encoding |
| StyleConfig.StyleRoundTrip | src/lib/layout/style-config.ts:22-40 | A valid style configuration parses back from its JSON form |
| StyleConfig.ZeroDefaults | src/lib/layout/style-config.ts:15-20 | The all-zero box and corner objects used by the defaults parse as all-zero |
| SizeConfig.BoundOf | src/lib/layout/size-config.ts:33-38 | Each min/max kind name names exactly one bound |
| SizeConfig.GenerateInitialSizeConfig | src/lib/layout/size-config.ts:46-55 | The initial size item has the requested type, and every type except auto carries a defined value |
| SizeConfig.InitialSizeValues | src/lib/layout/size-config.ts:49-53 | The defaults are fill 1, relative 100, fixed 400 and viewport 100; auto carries no value |
| SizeConfig.SizeItemRoundTrip | src/lib/layout/size-config.ts:4-29 | Each size item, with its nullable-optional value, parses back |
| SizeConfig.MinMaxItemRoundTrip | src/lib/layout/size-config.ts:33-38 | A (kind, size) pair parses back |
| SizeConfig.MinMaxRoundTrip | src/lib/layout/size-config.ts:33-38 | The ordered min/max list parses back in order |
| SizeConfig.SizeRoundTrip | src/lib/layout/size-config.ts:40-44 | A size configuration with width, height and min/max parses back |
| PositionConfig.DecodePosition | src/lib/layout/position-config.ts:3-14 | The parsed position carries the object's `type` tag, and it is `relative` exactly when the tag says so |
| PositionConfig.PositionRoundTrip | src/lib/layout/position-config.ts:3-14 | Every position, with or without offsets, parses back |
| PositionConfig.OffsetsOptional | src/lib/layout/position-config.ts:7-13 | An absolute, fixed or sticky position with none of its four offsets still parses |
| LayoutConfig.FlexRoundTrip | src/lib/layout/layout-config.ts:3-19 | A valid flex layout parses back |
| LayoutConfig.GridRoundTrip | src/lib/layout/layout-config.ts:21-27 | A valid grid layout parses back |
| LayoutConfig.LayoutRoundTrip | src/lib/layout/layout-config.ts:29 | Every valid layout parses back as the same variant |
| LayoutConfig.GapRequiredOnlyForFlex | src/lib/layout/layout-config.ts:18-25 | An object without `gap` can parse only as a grid, whose gap is then absent |
| FilterConfig.FilterField | src/lib/layout/filter-config.tsx:3-33 | A present filter parses only when every bound holds; an absent one parses as none |
| FilterConfig.EmptyFilterValid | src/lib/layout/filter-config.tsx:3-33 | Every key is optional: `{}` is a valid filter |
| FilterConfig.ValidIsWellTyped | src/lib/layout/filter-config.tsx:3-33 | A valid filter has numbers at every numeric key and a string at `blending` |
| FilterConfig.Step | src/lib/layout/filter-config.tsx:48-74 | A chain function contributes text exactly when its key is present, whatever the value, including 0 |
| FilterConfig.ChainEmpty | src/lib/layout/filter-config.tsx:48-74 | The chain is empty exactly when none of its functions' keys is present |
| FilterConfig.ChainBlank | src/lib/layout/filter-config.tsx:48-78 | The chain prints as the empty string exactly when it is empty, so the truthiness test equals the presence test |
| FilterConfig.FilterString | src/lib/layout/filter-config.tsx:48-74 | The eight conditional appends as written; its contract is stated by `FilterConfig.FilterStringIsChain` |
| FilterConfig.FilterStringIsChain | src/lib/layout/filter-config.tsx:48-74 | The filter string is the chain in the fixed order blur, contrast, brightness, grayscale, saturate, invert, sepia, hue-rotate |
| FilterConfig.FilterOrderIndex | src/lib/layout/filter-config.tsx:48-74 | Every filter function appears in the fixed order |
| FilterConfig.GenerateFilterStyle | src/lib/layout/filter-config.tsx:37-81 | Every output key is one of mixBlendMode, backdropFilter or filter |
| FilterConfig.FilterStyleLaw | src/lib/layout/filter-config.tsx:37-81 | `mixBlendMode` appears iff `blending` is present and `backdropFilter: blur(<n>px)` iff `bgBlur` is present; `filter` holds the chain |
| FilterConfig.FilterEmittedIffAnyKey | src/lib/layout/filter-config.tsx:48-78 | The `filter` key is emitted iff at least one chain function's key is present |
| FilterConfig.EmptyFilter | src/lib/layout/filter-config.tsx:37-81 | An empty filter configuration yields `{}` |
| TextConfig.WeightOf | src/lib/layout/text-config.ts:15-34 | A name is a font weight exactly when it is one of the 18 enum values, and the weight's name is that name |
| TextConfig.WeightNameRoundTrip | src/lib/layout/text-config.ts:15-34 | Every weight's name reads back as that weight |
| TextConfig.FontWeightsAreHundreds | src/lib/layout/text-config.ts:47-138 | The weight table is total and every `fontWeight` is one of 100, 200, …, 900 |
| TextConfig.ItalicIffNameSaysSo | src/lib/layout/text-config.ts:47-138 | `italic` is true exactly for the variants whose name ends in `italic`, bare `italic` included |
| TextConfig.ItalicOfName | src/lib/layout/text-config.ts:78-87 | The italic partner of `X` is `X-italic`, and that of `regular` is `italic` |
| TextConfig.PairsShareWeight | src/lib/layout/text-config.ts:47-138 | Each upright variant and its italic partner share a `fontWeight` |
| TextConfig.DecodeText | src/lib/layout/text-config.ts:10-39 | A parsed text configuration satisfies the align, transform and decoration enums |
| TextConfig.TextRoundTrip | src/lib/layout/text-config.ts:10-39 | A valid text configuration parses back |
| TextConfig.TextStyleRoundTrip | src/lib/layout/text-config.ts:140-147 | A valid text element configuration parses back |
| TextConfig.GenerateInitialTextStyleConfig | src/lib/layout/text-config.ts:151-214 | The factory's result has every default key and every key of the argument; a field the argument gives as anything but an object replaces the default, and a default the argument does not mention is kept |
| TextConfig.InitialTextConfig | src/lib/layout/text-config.ts:151-214 | The factory with `{}` parses as a text element: relative position, width relative 100, height auto, no min/max, visible, no shadows, empty filter |
| ImageConfig.DecodeImage | src/lib/layout/image-config.ts:9-22 | A parsed image configuration has `objectFit` and `objectPosition` in their closed enums |
| ImageConfig.ImageRoundTrip | src/lib/layout/image-config.ts:9-22 | A valid image configuration parses back |
| ImageConfig.RestRoundTrip | src/lib/layout/image-config.ts:24-33 | The image style subset parses back |
| ImageConfig.RestReadsOnlyPicked | src/lib/layout/image-config.ts:24-33 | Parsing the image style reads only opacity, borderColor, borderRadius, borderWidth, shadows, visible, zIndex and rotation; padding, margin, background and overflow have no effect |
| ImageConfig.ImageStyleRoundTrip | src/lib/layout/image-config.ts:35-42 | A valid image element configuration parses back |
| ImageConfig.GenerateInitialImageStyleConfig | src/lib/layout/image-config.ts:46-84 | The factory's result has every default key and every key of the argument; a field the argument gives as anything but an object replaces the default, and a default the argument does not mention is kept |
| ImageConfig.InitialImageConfig | src/lib/layout/image-config.ts:46-84 | The factory with `{}` parses as an image element: cover, centre, zero borders, no shadows, visible, empty filter |
| IconConfig.IconTextRoundTrip | src/lib/layout/icon-config.ts:10-12 | The icon text configuration (a colour) parses back |
| IconConfig.IconTextReadsOnlyColor | src/lib/layout/icon-config.ts:10-12 | Parsing icon text reads only `color` |
| IconConfig.RestRoundTrip | src/lib/layout/icon-config.ts:14-20 | The icon style subset (opacity, visible, shadows, zIndex, rotation) parses back |
| IconConfig.IconStyleRoundTrip | src/lib/layout/icon-config.ts:22-29 | A valid icon element configuration parses back |
| IconConfig.GenerateInitialIconStyleConfig | src/lib/layout/icon-config.ts:33-61 | The factory's result has every default key and every key of the argument; a field the argument gives as anything but an object replaces the default, and a default the argument does not mention is kept |
| IconConfig.IconDefaultsNoFilter | src/lib/layout/icon-config.ts:57 | The icon defaults set `filterConfig`, not `filter`, so the initial icon has no filter |
| IconConfig.InitialIconConfig | src/lib/layout/icon-config.ts:33-61 | The factory with `{}` parses as an icon element: fixed 20 × 20, black at opacity 100, visible, no shadows, no filter |
| ContainerConfig.DecodeContainerStyle | src/lib/layout/container-config.ts:9-16 | A parsed container configuration is valid and is tagged `container` |
| ContainerConfig.ContainerStyleRoundTrip | src/lib/layout/container-config.ts:9-16 | A valid container configuration parses back |
| ContainerConfig.GenerateInitialContainerStyleConfig | src/lib/layout/container-config.ts:19-79 | The factory's result has every default key and every key of the argument; a field the argument gives as anything but an object replaces the default, and a default the argument does not mention is kept |
| ContainerConfig.InitialContainerConfig | src/lib/layout/container-config.ts:19-79 | The factory with `{}` parses as a container: width relative 100, height fixed 400, flex column, light-blue background at 50, visible, no shadows, empty filter |
| RootLayout.MergeOneKey | src/lib/layout/container-config.ts:19-20 | A one-key override changes the merged object only at that key |
| RootLayout.MergeTwoKeys | src/lib/layout/container-config.ts:19-20 | A two-key override changes the merged object only at those keys |
| RootLayout.MergeFlat | src/lib/utils.ts:25-27 | An override that sets every key of the base to a primitive replaces it |
| RootLayout.MergedRoot | src/lib/tree.ts:6-20 | `ROOT_NODE_LAYOUT` is the container defaults with only the size height and the style background replaced |
| RootLayout.RootNodeLayoutConfig | src/lib/tree.ts:6-20 | `ROOT_NODE_LAYOUT` parses as the default container with height relative 100 and an opaque white background; width stays relative 100 |
| Element.TypeOf | src/lib/element.tsx:10-11 | A name is an element type exactly when it is one of the four names |
| Element.TypeNameRoundTrip | src/lib/element.tsx:10-11 | Every element type's name reads back as that type |
| Element.TagOf | src/lib/element.tsx:13-18 | The union's discriminant is the object's `type` field |
| Element.DecodeAs | src/lib/element.tsx:13-18 | Parsing as a given type yields a valid layout of that type |
| Element.DecodeLayout | src/lib/element.tsx:13-18 | A parsed layout is valid, and its kind is the one the `type` tag names |
| Element.EncodedTag | src/lib/element.tsx:13-18 | An encoded layout carries its own type tag |
| Element.LayoutRoundTrip | src/lib/element.tsx:13-18 | Every valid element layout parses back as the same variant |
| Element.DecodeResponsive | src/lib/element.tsx:28-34 | A parsed responsive layout has a valid desktop tier, and the tablet and mobile tiers are carried unparsed |
| Element.ResponsiveRoundTrip | src/lib/element.tsx:28-34 | A responsive layout with a valid desktop tier parses back |
| Element.DesktopRequired | src/lib/element.tsx:28-34 | A missing or invalid desktop tier rejects the responsive layout |
| Element.ElementConfigConsistent | src/lib/element.tsx:50-86 | `ELEMENT_CONFIG[t].type == t`, and exactly the non-container types provide initial data |
| Element.ElementItemsComplete | src/lib/element.tsx:48 | `ELEMENT_ITEMS` lists each element type exactly once |
| Element.GenerateInitialStyleConfig | src/lib/element.tsx:50-86 | Each type's factory keeps every key of its argument |
| Element.InitialTag | src/lib/element.tsx:50-86 | Each type's factory with `{}` produces a layout tagged with that type |
| Element.InitialStyleConfigParses | src/lib/element.tsx:50-86 | Each type's factory with `{}` parses as that type's initial layout |
| Element.GenerateInitialData | src/lib/element.tsx:50-86 | Text, image and icon provide initial data of their own kind; container provides none |
| SizeStyle.GenerateSizeStyle | src/lib/layout/styles.ts:41-85 | A size writes only its own dimension or `flex`, and `flex` only for a fill size |
| SizeStyle.CalculateFillLayout | src/lib/layout/styles.ts:46-73 | `calculateFillLayout`; its contract is stated by `SizeStyle.FillRule` |
| SizeStyle.FillRule | src/lib/layout/styles.ts:46-73 | Fill gives nothing without a flex parent; on the flex main axis `flex: "<v??0> 0 0px"`; on the cross axis `<dim>: "<(v??0)*100>%"` |
| SizeStyle.SizeAndBoundAgree | src/lib/layout/styles.ts:77-96 | Relative, fixed and viewport sizes render the same as in min/max folding, using vw for width and vh for height |
| SizeStyle.AutoDiffers | src/lib/layout/styles.ts:77-96 | An auto size emits the explicit `auto`, while an auto min/max bound contributes no value |
| SizeStyle.GenerateSizeValue | src/lib/layout/styles.ts:87-96 | Auto and fill bounds contribute no value |
| SizeStyle.GenerateMinMaxStyle | src/lib/layout/styles.ts:86-111 | Min/max folding writes only the four min/max keys |
| SizeStyle.LastOf | src/lib/layout/styles.ts:98-110 | The last entry of a kind exists exactly when some entry has that kind |
| SizeStyle.MinMaxLastWins | src/lib/layout/styles.ts:98-110 | A min/max key is written iff its kind occurs, and the later list entry of a kind overrides earlier ones |
| SizeStyle.AutoOrFillUnsets | src/lib/layout/styles.ts:87-110 | When the last entry of a kind is auto or fill, nothing is rendered for that key |
| FillStyle.Insert | src/lib/layout/styles.ts:168 | Inserting a stop adds exactly that stop |
| FillStyle.InsertSorted | src/lib/layout/styles.ts:168 | Inserting into an ascending list keeps it ascending |
| FillStyle.SortStops | src/lib/layout/styles.ts:168 | Sorting the stops gives a permutation ascending by position |
| FillStyle.SortedUnique | src/lib/layout/styles.ts:168 | Two ascending permutations of the same stops with distinct positions are equal |
| FillStyle.GradientIgnoresStopOrder | src/lib/layout/styles.ts:164-192 | Any permutation of stops with distinct positions renders the same gradient |
| FillStyle.GenerateColorValue | src/lib/layout/styles.ts:193-213 | A fill renders exactly when one is configured |
| FillStyle.FillKindRecovered | src/lib/layout/styles.ts:193-213 | The rendered fill is a plain colour, a gradient or an image URL, matching the configured variant |
| FillStyle.ShadowText | src/lib/layout/styles.ts:214-222 | A shadow gets the `inset ` prefix exactly when it is inner |
| FillStyle.GenerateShadowStyles | src/lib/layout/styles.ts:214-222 | No shadows render as `""`; one shadow renders as itself |
| FillStyle.ShadowsKeepOrder | src/lib/layout/styles.ts:214-222 | Shadows keep input order, joined with `", "` |
| BoxStyle.GeneratePositionStyle | src/lib/layout/styles.ts:112-138 | Position writes only position and the four offsets |
| BoxStyle.PositionLaw | src/lib/layout/styles.ts:112-138 | `position` is the type; a relative position writes no offsets; a placed one renders an offset exactly when it is defined |
| BoxStyle.FlexDirectionRoundTrip | src/lib/layout/styles.ts:28-40 | The flex-direction string determines the direction and whether it is reversed |
| BoxStyle.GenerateLayoutStyle | src/lib/layout/styles.ts:139-162 | Layout writes `display` and only layout keys |
| BoxStyle.LayoutLaw | src/lib/layout/styles.ts:139-162 | `display` is flex or grid by variant; a zero flex gap or a falsy grid gap renders nothing; alignItems and the flex direction are passed on |
| BoxStyle.GeneratePaddingStyle | src/lib/layout/styles.ts:236-243 | Padding writes exactly the four padding keys |
| BoxStyle.GenerateMarginStyle | src/lib/layout/styles.ts:228-235 | Margin writes exactly the four margin keys |
| BoxStyle.BorderWidthStyle | src/lib/layout/styles.ts:245-267 | Border widths write exactly the four border-width keys |
| BoxStyle.BorderRadiusStyle | src/lib/layout/styles.ts:245-267 | Border radii write exactly the four corner keys |
| BoxStyle.SpacingKeepsZero | src/lib/layout/styles.ts:228-243 | Padding and margin render a side iff it is defined, and keep a 0 |
| BoxStyle.BordersDropZero | src/lib/layout/styles.ts:245-267 | A border width or radius renders iff it is defined and non-zero |
| BoxStyle.ZeroBordersVanish | src/lib/layout/styles.ts:245-267 | All-zero borders and corners render nothing |
| BoxStyle.Opacity | src/lib/layout/styles.ts:245-267 | A missing opacity counts as 100, and the output is opacity/100 |
| BoxStyle.GenerateTransformStyles | src/lib/layout/styles.ts:223-227 | A rotation produces a transform exactly when it is truthy (0 is dropped) |
| ElementStyle.GenerateRestStyles | src/lib/layout/styles.ts:245-267 | A container's style writes exactly the padding, margin, overflow, background, border and common keys |
| ElementStyle.GenerateImageRestStyles | src/lib/layout/styles.ts:269-287 | An image's style writes exactly the border and common keys: no padding, margin, background or overflow |
| ElementStyle.GenerateIconRestStyles | src/lib/layout/styles.ts:317-326 | An icon's style writes exactly opacity, zIndex, boxShadow and transform |
| ElementStyle.GenerateTextStyles | src/lib/layout/styles.ts:289-302 | Text writes exactly the typography keys |
| ElementStyle.TextWeightLaw | src/lib/layout/styles.ts:289-302 | The font weight is the table's number, and a font style is rendered exactly for italic variants |
| ElementStyle.GenerateImageStyles | src/lib/layout/styles.ts:304-309 | Images write objectFit and objectPosition only |
| ElementStyle.GenerateIconStyles | src/lib/layout/styles.ts:311-315 | Icons write the colour only |
| ElementStyle.ValidIsFilterTyped | src/lib/layout/filter-config.tsx:3-33 | Every valid layout's filter is well typed for the composer |
| ElementStyle.BaseStyle | src/lib/layout/styles.ts:328-333 | The base spread writes only size and position keys |
| ElementStyle.TypeStyle | src/lib/layout/styles.ts:335-368 | Every type writes `display` and only keys of its own generators |
| ElementStyle.FilterStyle | src/lib/layout/styles.ts:371-376 | Filter output has only filter keys, and none without a filter |
| ElementStyle.Spread | src/lib/layout/styles.ts:328-376 | Object spread: the keys are the union, and later objects win |
| ElementStyle.GenerateElementStyle | src/lib/layout/styles.ts:18-379 | Every element's style sets `display` |
| ElementStyle.HiddenLaw | src/lib/layout/styles.ts:22-26 | A hidden element's style is exactly `{display: 'none'}`, whatever else is configured |
| ElementStyle.TypeStyleDisplay | src/lib/layout/styles.ts:335-368 | Containers take `display` from their layout; the other types have `block` |
| ElementStyle.VisibleSpread | src/lib/layout/styles.ts:328-376 | A visible element's style is the base, then the type's styles, then the filter, spread in that order |
| ElementStyle.DisplayBlock | src/lib/layout/styles.ts:343-368 | A visible text, image or icon has `display: block`, because the block is spread after its type styles |
| ElementStyle.DisplayFromLayout | src/lib/layout/styles.ts:335-341 | A visible container has `display` flex or grid, by its layout |
| ElementStyle.SpreadDisplay | src/lib/layout/styles.ts:335-368 | The spread takes `display` from the type styles, since neither the base nor the filter sets it |
| ElementStyle.SpreadFilterLast | src/lib/layout/styles.ts:371-376 | Filter output overrides everything, and no effect key appears without it |
| ElementStyle.SpreadKeepsMinMax | src/lib/layout/styles.ts:328-333 | Min/max keys spread after the sizes survive the later spreads |
| ElementStyle.FilterLastLaw | src/lib/layout/styles.ts:371-376 | In a visible element's style every filter key is present with the filter's value |
| ElementStyle.NoFilterNoEffect | src/lib/layout/styles.ts:371-376 | An element without a filter gets no filter property, visible or hidden |
| ElementStyle.MinMaxSurvives | src/lib/layout/styles.ts:328-333 | A visible element's style keeps every min/max declaration |
| ElementStyle.InitialIconHasNoFilterStyle | src/lib/layout/icon-config.ts:57 | The initial icon's style has no filter keys |
| Tree.Kids | src/lib/tree.ts:22-35 | Only an id with an entry has children |
| Tree.ChildIsLower | src/lib/tree.ts:22-35 | In an acyclic tree a child's height is below its parent's |
| Tree.GatherAllChildren | src/lib/tree.ts:22-35 | A non-container gives `[]`; a container without an entry fails (the TypeError); otherwise its direct children are included |
| Tree.GatherEachParts | src/lib/tree.ts:30-34 | The concatenated descendants are exactly the union of each child's descendants |
| Tree.DescendantsClosed | src/lib/tree.ts:22-35 | The descendants are closed under taking the children of containers |
| Tree.DescendantsHang | src/lib/tree.ts:22-35 | Every descendant is a child of the id or of another descendant |
| Tree.DescendantsBelow | src/lib/tree.ts:22-35 | Every descendant is strictly lower than the id |
| Tree.Scan | src/lib/tree.ts:38-49 | The scan finds a node of the level that lists the id exactly when one exists, and then it is the first such node of the level |
| Tree.NextLevel | src/lib/tree.ts:38-49 | The next breadth-first level is exactly the children of the current level |
| Tree.ParentFromSound | src/lib/tree.ts:38-49 | A parent found by the search was visited and lists the id |
| Tree.ParentFromComplete | src/lib/tree.ts:38-49 | If some visited node lists the id, the search finds a parent |
| Tree.ParentFrom | src/lib/tree.ts:41-49 | The queue loop, level by level; its contract is stated by `Tree.ParentFromFirst`, `Tree.ParentFromSound` and `Tree.ParentFromComplete` |
| Tree.OrderVisits | src/lib/tree.ts:41-49 | The queue's visiting order (each level, then the concatenated children of that level) lists exactly the visited nodes |
| Tree.ParentFromFirst | src/lib/tree.ts:41-49 | The search returns the first node in visiting order whose children include the id, and returns nothing exactly when no visited node lists it |
| Tree.GetParentNode | src/lib/tree.ts:37-51 | `getParentNode`; its contract is stated by `Tree.ParentFirst` and `Tree.ParentLaw` |
| Tree.ParentFirst | src/lib/tree.ts:37-51 | The result is the first node, in breadth-first visiting order from the root, whose children include the id; there is none exactly for the root and for an id that no visited node lists |
| Tree.ParentLaw | src/lib/tree.ts:37-51 | There is a parent iff the id is not the root and some node reachable from the root lists it; the parent is reachable and lists it |
| Tree.ReachableHangs | src/lib/tree.ts:37-51 | Every reachable node except the root is listed by a reachable node |
| Tree.ParentShrinksAbove | src/lib/tree.ts:53-61 | Moving to the parent strictly shrinks the set of nodes above, so the climb ends |
| Tree.ChainExtends | src/lib/tree.ts:53-61 | Appending the parent of the current node keeps a valid ancestor chain |
| Tree.GatherAllParent | src/lib/tree.ts:53-61 | The result is an ancestor chain, nearest first, and the climb stops where no parent exists |
| Tree.ParentsEndAtRoot | src/lib/tree.ts:53-61 | A non-empty ancestor list ends with the root |
| Tree.BuildElementTree | src/lib/tree.ts:63-80 | The built map always has the root key |
| Tree.ChildrenOf | src/lib/tree.ts:63-80 | The children of a parent are the nodes naming it as parent |
| Tree.AddNode | src/lib/tree.ts:71-77 | One iteration of the `buildElementTree` loop; its contract is stated by `Tree.AddNodeLaw` |
| Tree.AddNodeLaw | src/lib/tree.ts:67-79 | Adding a node appends it to its parent's list and gives a container node an entry, keeping children already recorded |
| Tree.BuildLaw | src/lib/tree.ts:63-80 | A key is in the built map iff it is the root, a named parent or a container with a parent, and its list is its children in input order |
| Tree.BuildKeys | src/lib/tree.ts:63-80 | The built map has an entry for exactly the root, every named parent and every container that has a parent |
| Tree.BuildLists | src/lib/tree.ts:63-80 | Every entry of the built map lists the ids of the nodes naming it as parent, in input order |
| Tree.RoundTrip | src/lib/tree.ts:37-80 | With distinct ids and reachable parents, the parent lookup on the built map returns each node's `parent` |
| Fonts.GetFontWeightAndStyleAsWritten | src/lib/fonts/index.ts:7-12 | The `in` guard also accepts names inherited from `Object.prototype`, which then yield that inherited member |
| Fonts.InheritedNamePassesGuard | src/lib/fonts/index.ts:8 | `"toString"` is not a weight, but it passes the guard |
| Fonts.GetFontWeightAndStyle | src/lib/fonts/index.ts:7-12 | The lookup succeeds exactly for the 18 weight names, and then returns that table entry |
| Fonts.LookupAgrees | src/lib/fonts/index.ts:7-12 | The corrected lookup succeeds exactly where the guard as written returns a table entry, and then returns the same entry |
| Json.NatString | src/lib/fonts/index.ts:14-19 | A number prints as at least one decimal digit |
| Json.NatStringInjective | src/lib/fonts/index.ts:14-19 | Distinct numbers print as distinct digit strings, so a printed number (a weight, or a string index used as a key) names one number |
| Fonts.HundredsString | src/lib/fonts/index.ts:14-19 | A multiple of 100 below 1000 prints as its digit followed by `00` |
| Fonts.Axis | src/lib/fonts/index.ts:14-19 | The axis is `ital,wght@1,<w>` for italic variants and `wght@<w>` otherwise |
| Fonts.AxisForm | src/lib/fonts/index.ts:14-19 | The weight part is three digits (the hundreds digit, then `00`), and an italic variant shares it with its upright partner |
| Fonts.PlusForSpace | src/lib/fonts/index.ts:55 | Every space in a family name becomes `+`, and nothing else changes |
| Fonts.Params | src/lib/fonts/index.ts:51-57 | One `family=<name>:<axis>` parameter per entry, in input order |
| Fonts.SplitJoin | src/lib/fonts/index.ts:51-58 | Splitting the `&`-joined parameters gives them back when none contains `&` |
| Fonts.GenerateGoogleFontsUrl | src/lib/fonts/index.ts:45-59 | The URL is `''` exactly for an empty list |
| Fonts.UrlLaw | src/lib/fonts/index.ts:45-59 | For a non-empty list the URL is the base, `?`, then the parameters in order joined with `&` |
| Fonts.FontOf | src/lib/fonts/index.ts:32-40 | A layout contributes a font iff its `text` part is an object with a `fontFamily` key; the pair carries that family and a weight that is never missing (`regular` by default) |
| Fonts.KeepTruthy | src/lib/fonts/index.ts:27-30 | Absent tiers are skipped |
| Fonts.KeepTruthyAppend | src/lib/fonts/index.ts:30 | Filtering a concatenation filters each part and keeps the parts in order |
| Fonts.Layouts | src/lib/fonts/index.ts:27-30 | A value is gathered iff it is a truthy tier of some element: every present tier is kept and nothing else |
| Fonts.AllTiers | src/lib/fonts/index.ts:27-29 | The flatMap yields three tiers per element |
| Fonts.LayoutsFilterFlatMap | src/lib/fonts/index.ts:27-30 | The gathered layouts are exactly the flatMap of all tiers, element after element and desktop, tablet, mobile within one, filtered once, in that order |
| Fonts.Pairs | src/lib/fonts/index.ts:31-41 | Gathering fails iff some layout fails |
| Fonts.Dedup | src/lib/fonts/index.ts:31-42 | The result is distinct, has the same elements as the input and keeps first-occurrence order |
| Fonts.GatherAllFonts | src/lib/fonts/index.ts:26-43 | Distinct font pairs in first-occurrence order, or a failure exactly when some layout fails |
| Fonts.DesktopFont | src/lib/fonts/index.ts:32-40 | A text layout contributes its family and weight name; container, image and icon layouts contribute nothing |

## Left out

- `Utils.Merge`, `Utils.MergeTop`: keys named after members inherited from `Object.prototype` (such as `constructor`), which deepmerge skips unless the base owns them, are merged like any other key. Keys explicitly set to `undefined` are copied like any other value. Cloning is not modelled, because the model has no shared mutable objects.
- `Cascade.Step`: a tier key naming an inherited `Object.prototype` member is merged into the layout, where deepmerge leaves it out; the layout schemas have no such keys.
- Numbers are reals. There is no NaN, no infinity and no floating-point rounding, so `opacity/100` and `(v ?? 0) * 100` are exact.
- How a number is printed in a template literal, and how the colour library prints `rgba(…)`, are uninterpreted pieces (`Css.Num`, `Css.Rgba`).
- `Tree` functions take a ghost rank map as a precondition that the adjacency map is acyclic. Cyclic maps, on which the source loops or overflows the stack, are not modelled.
- `Tree.GatherAllChildren`: the TypeError that the source throws for a container without an entry is modelled as `None`.
- `Tree.ParentsEndAtRoot` additionally requires that no child id is the empty string, because the source's truthiness test stops the climb at an empty id.
- `Tree.BuildElementTree`: nodes without a parent are skipped, as the code does. They are not attached under the root.
- `Tree.GetParentNode`, `Tree.BuildElementTree`, `Tree.Kids`: an id that names a member inherited from `Object.prototype` (such as `constructor`, `toString` or `__proto__`) and has no own entry reads as no children here. In the source, `elementTree[id] ?? []` yields the inherited member instead. `getParentNode` then throws at `children.includes` (src/lib/tree.ts:44-45). `buildElementTree` stores the inherited function as the entry of such a container and throws at `.push` for such a parent (src/lib/tree.ts:73-76), and writing `__proto__` replaces the prototype instead of adding an entry. The model gives the result that a map of own keys gives.
- `ElementStyle.GenerateElementStyle` and `Fonts.GenerateGoogleFontsUrl` are modelled on schema-valid input only: a decoded `Element.ElementLayout`, and pairs whose weight is one of the 18 variants. In src/app/(website-renderer)/page.tsx:28-45 the merged layout from `computeFinalLayout` is passed to `generateElementStyle` under a type cast, and it is never parsed again. A tablet or mobile tier that breaks the schema (say `{size: {width: {type: "bogus"}}}`) then reaches the exhaustive `match` at src/lib/layout/styles.ts:84 and throws. Likewise page.tsx:96 passes the untyped pairs of `gatherAllFonts` to `generateGoogleFontsUrl`, and there a weight outside the table makes `TEXT_WEIGHTS_CONFIG[fontWeight]` undefined, so reading its `italic` throws (src/lib/fonts/index.ts:53-54). The model composes the cascade with the generator only through `Element.DecodeLayout`, as `Cascade.NoOverrides` does. It leaves out what the generators do with a merged value that the schemas reject, because that behaviour is a crash on a value of the wrong type, not a defined result.
- `Tree.GetParentNode`'s queue is modelled level by level. This visits the same nodes in the same order as the breadth-first queue.
- Node ids are strings. Numeric ids and the JavaScript coercion of keys are not modelled.
- The zod parsers keep the filter object as a raw map, so unknown filter keys are not stripped. Other objects are parsed field by field, and the factories' extra keys are ignored when read back.
- `Fonts.GatherAllFonts` dedups font pairs by structural equality and returns them unchanged. The source compares `JSON.stringify` texts and returns their `JSON.parse`. These agree when family and weight are strings or numbers. They differ for objects with the same keys in another order (distinct texts, one structural value), for `undefined` inside arrays or objects (printed as `null` or dropped), and for an `undefined` family, which the round trip drops from the returned record.
- `Object.entries` is modelled as a sequence of entries in their enumeration order. `Object.values` of a responsive layout is taken as desktop, tablet, mobile.
- `Json.NatString` models how a number prints only for natural numbers: font weights and string indices.
- The icon defaults set a `filterConfig` key, not `filter`. The model follows the code, so the initial icon has no filter and no filter styles.
- src/lib/css.ts (media-query hooks), src/app/layout.tsx, src/components/svg-renderer/svg-renderer.tsx, the `fonts.json` data, the React icon fields of `ELEMENT_CONFIG` and `DEVICE_CONFIG`, and `cn`, `getBaseUrl` and `getUrl` in src/lib/utils.ts are UI, I/O or wrappers around libraries, and are not part of this model.
- zod and ts-pattern are replaced by datatypes, `match` and validity predicates.

## Findings

| source | as written | input that shows it | evidently intended | confidence | as-written member | corrected member |
|---|---|---|---|---|---|---|
| src/lib/fonts/index.ts:8 | `variant in TEXT_WEIGHTS_CONFIG` also accepts keys inherited from `Object.prototype` | `getFontWeightAndStyle("toString")` passes the guard and returns the inherited `toString` function instead of throwing | throw for every name that is not one of the 18 weight variants (an own-key test such as `Object.hasOwn`) | not executed | Fonts.InheritedNamePassesGuard | Fonts.GetFontWeightAndStyle |
