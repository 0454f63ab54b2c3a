# vue-my-dropdown, modelled in Dafny

A model of the dropdown widget `vue-my-dropdown`: a toggle link (the anchor)
and a floating panel. The panel is placed by four alignment values. The
anchor's horizontal and vertical values name the anchor point the panel is
attached to. The panel's two values name the panel point that is attached
there. The owner of the widget keeps an open/closed flag `visible`. A click on
the link flips it. A click in the document outside the open widget makes the
widget emit `clickout`, and the owner then sets `visible` to false. The panel
carries `display: none` while closed. The `animation` property names the
transition class and defaults to `ani-slide`.

The component file itself is not part of this model. What the model states is
what the unit tests in `test/unit/specs/vue-my-dropdown-test.spec.js` require
of it, together with the tests' own reference calculation `calculatePosition`.

- `wrappers.dfy` — `Option` and `Result`.
- `alignment.dfy` — module `Alignment`: the alignment values and their spellings.
  It also holds the validation of the four-value `position` property, the
  default position `[right, top, left, top]`, and the 81 combinations in the
  order the tests' nested loops visit them.
- `placement.dfy` — module `Placement`: the panel's computed style `ddStyle`
  for any measured anchor and panel size. It also holds the tests' reference
  calculation for 100×100 boxes, the lemmas that relate the two, and the
  reading of a transform origin back into its alignment pair.
- `dropdown.dfy` — module `Dropdown`: the class `Widget`. It holds the owner's
  `visible` flag, the link click, the click-out, the `display` style and the
  property defaults. Client scenarios follow the tests.

Pixel offsets are `real` numbers, so halving a size is exact.

## Model

| member | source | states |
|---|---|---|
| `Alignment.ParseHorizontal` | test/unit/specs/vue-my-dropdown-test.spec.js:66 | a horizontal value is accepted exactly when it is `left`, `center` or `right`, and it reads as the alignment with that name |
| `Alignment.ParseVertical` | test/unit/specs/vue-my-dropdown-test.spec.js:67 | a vertical value is accepted exactly when it is `top`, `center` or `bottom`, and it reads as the alignment with that name |
| `Alignment.NameRoundTrip` | test/unit/specs/vue-my-dropdown-test.spec.js:66-67 | every alignment value has one of the accepted spellings and reads back as itself |
| `Alignment.ParsePosition` | test/unit/specs/vue-my-dropdown-test.spec.js:87 | the `position` array is accepted exactly when it has four values, each an alignment of its axis; the result spells the array back; otherwise the error names the wrong length, or the first value that is not an alignment of its axis together with its index (every earlier value being valid) |
| `Alignment.PositionRoundTrip` | test/unit/specs/vue-my-dropdown-test.spec.js:87 | writing any position out as the four-value array and validating it gives the same position |
| `Alignment.ResolvePosition` | test/unit/specs/vue-my-dropdown-test.spec.js:101-103 | an absent `position` gives the default; a given one is accepted exactly when well formed and spells the given array |
| `Alignment.DefaultPositionNames` | test/unit/specs/vue-my-dropdown-test.spec.js:103 | the default position is the array `[right, top, left, top]` |
| `Alignment.HorizontalIndex` | test/unit/specs/vue-my-dropdown-test.spec.js:66 | each horizontal value sits at its index in the list the tests iterate over |
| `Alignment.VerticalIndex` | test/unit/specs/vue-my-dropdown-test.spec.js:67 | each vertical value sits at its index in the list the tests iterate over |
| `Alignment.AllPositions` | test/unit/specs/vue-my-dropdown-test.spec.js:83-86 | the nested loops visit 81 combinations |
| `Alignment.AllPositionsComplete` | test/unit/specs/vue-my-dropdown-test.spec.js:83-86 | every one of the possible positions is visited by the nested loops |
| `Alignment.AllPositionsDistinct` | test/unit/specs/vue-my-dropdown-test.spec.js:83-86 | no position is visited twice |
| `Alignment.AllPositionsAt` | test/unit/specs/vue-my-dropdown-test.spec.js:83-86 | the position visited at step i is the one whose loop index is i |
| `Placement.HorizontalFraction` | test/unit/specs/vue-my-dropdown-test.spec.js:74 | the named horizontal point lies within the box, from 0 (left) to 1 (right) of its width |
| `Placement.VerticalFraction` | test/unit/specs/vue-my-dropdown-test.spec.js:75 | the named vertical point lies within the box, from 0 (top) to 1 (bottom) of its height |
| `Placement.HorizontalOffset` | test/unit/specs/vue-my-dropdown-test.spec.js:74-76 | the left offset puts the panel's aligned point on the anchor's aligned point; with non-negative sizes it lies between minus the panel width and the anchor width; it is 0 for equal widths and equal alignment |
| `Placement.VerticalOffset` | test/unit/specs/vue-my-dropdown-test.spec.js:75-77 | the top offset puts the panel's aligned point on the anchor's aligned point; with non-negative sizes it lies between minus the panel height and the anchor height; it is 0 for equal heights and equal alignment |
| `Placement.DdStyle` | test/unit/specs/vue-my-dropdown-test.spec.js:91-94 | the style is `absolute`; its transform origin is the panel's two values joined by a space; its offsets put the panel's aligned point on the anchor's aligned point on both axes |
| `Placement.CalculatePosition` | test/unit/specs/vue-my-dropdown-test.spec.js:69-80 | the reference offsets for 100×100 boxes are each one of -100, -50, 0, 50 or 100 |
| `Placement.DdStyleMatchesReference` | test/unit/specs/vue-my-dropdown-test.spec.js:82-99 | for each of the 81 positions the loops visit, the style is absolute, equals the reference offsets, and has the transform origin p3 + ' ' + p4 |
| `Placement.OffsetsAgree` | test/unit/specs/vue-my-dropdown-test.spec.js:69-80 | on 100×100 boxes the widget's offsets equal the reference calculation's for every position |
| `Placement.AxesIndependent` | test/unit/specs/vue-my-dropdown-test.spec.js:74-77 | the left offset depends only on the horizontal values and widths; the top offset depends only on the vertical values and heights |
| `Placement.OffsetBounds` | test/unit/specs/vue-my-dropdown-test.spec.js:74-77 | with non-negative sizes, `-panelWidth <= left <= anchorWidth` and `-panelHeight <= top <= anchorHeight` |
| `Placement.SameAlignmentNoOffset` | test/unit/specs/vue-my-dropdown-test.spec.js:74-77 | equal boxes with the same alignment on an axis get offset 0 on that axis |
| `Placement.CornerAndCenterExamples` | test/unit/specs/vue-my-dropdown-test.spec.js:74-77 | `[left, top, left, top]` and `[center, center, center, center]` on 100×100 boxes give (0, 0) |
| `Placement.DefaultPositionStyle` | test/unit/specs/vue-my-dropdown-test.spec.js:101-108 | the default position on 100×100 boxes gives left 100, top 0 and transform origin `left top`, as the reference does |
| `Placement.IndexOfSpace` | test/unit/specs/vue-my-dropdown-test.spec.js:94 | helper, not behaviour of the widget: finds the first space of a string, or its length when there is none, so that the transform origin joined on line 94 can be read back |
| `Placement.OriginRoundTrip` | test/unit/specs/vue-my-dropdown-test.spec.js:94 | the transform origin reads back as the panel's alignment pair |
| `Placement.ParseOriginSound` | test/unit/specs/vue-my-dropdown-test.spec.js:94 | a string that reads as an alignment pair is exactly that pair's transform origin |
| `Placement.TransformOriginInjective` | test/unit/specs/vue-my-dropdown-test.spec.js:94 | two positions with the same transform origin have the same panel alignment |
| `Dropdown.AnimationOrDefault` | test/unit/specs/vue-my-dropdown-test.spec.js:131-141 | `animation` is `ani-slide` when absent and exactly the supplied value otherwise |
| `Dropdown.Display` | test/unit/specs/vue-my-dropdown-test.spec.js:54-61 | `display` is `none` exactly when closed, and `''` when open |
| `Dropdown.Mount` | test/unit/specs/vue-my-dropdown-test.spec.js:5-15 | creating the widget from its properties succeeds exactly when the `position` property resolves; the new widget then has the given `visible` flag, the resolved (given or default) position and the given or default animation; otherwise the position error is returned |
| `Dropdown.Widget.constructor` | test/unit/specs/vue-my-dropdown-test.spec.js:5-15 | a new widget has the given `visible` flag, the already resolved position, and the given or default animation |
| `Dropdown.Widget.DisplayStyle` | test/unit/specs/vue-my-dropdown-test.spec.js:54-61 | the panel is hidden exactly when `visible` is false |
| `Dropdown.Widget.PanelStyle` | test/unit/specs/vue-my-dropdown-test.spec.js:88-94 | the widget's `ddStyle` has the properties of `DdStyle` for its own position |
| `Dropdown.Widget.ToggleLink` | test/unit/specs/vue-my-dropdown-test.spec.js:10 | a link click flips `visible` |
| `Dropdown.Widget.DocumentClick` | test/unit/specs/vue-my-dropdown-test.spec.js:9 | `clickout` fires exactly for a click outside an open widget; then `visible` becomes false; otherwise nothing changes |
| `Dropdown.VisibleScenario` | test/unit/specs/vue-my-dropdown-test.spec.js:50-62 | a closed widget shows `display: none`; an open one shows `''` |
| `Dropdown.ClickOutScenario` | test/unit/specs/vue-my-dropdown-test.spec.js:143-156 | an open widget clicked outside fires `clickout`, ends closed and hides its panel |
| `Dropdown.LinkScenario` | test/unit/specs/vue-my-dropdown-test.spec.js:9-10 | a link click opens the widget; a click inside keeps it open without `clickout`; a second link click closes it |
| `Dropdown.DefaultsScenario` | test/unit/specs/vue-my-dropdown-test.spec.js:101-108 | a widget created without properties puts the panel at left 100, top 0 on 100×100 boxes and uses `ani-slide` |
| `Dropdown.CustomAnimationScenario` | test/unit/specs/vue-my-dropdown-test.spec.js:137-140 | a supplied `ani-custom` is kept |

## Left out

- The component file `src/vue-my-dropdown.vue` is not part of this model. The widget's behaviour is modelled from what the unit tests require of it.
- The tests never pass an invalid `position` value, and how the component reacts to one cannot be seen. The model rejects one with an error result (`Alignment.ParsePosition`, `Dropdown.Mount`).
- Vue instantiation, templates, slots, `$refs` and mounting are framework plumbing and are not modelled.
- DOM access is not modelled: `document.body`, `createElement`, `querySelector` and inline style objects. The measured sizes of link and panel become parameters (`Placement.Size`).
- Event dispatch, `setTimeout` and `nextTick` are not modelled. A document click is one atomic call, `Dropdown.Widget.DocumentClick`, and whether its target lies inside the widget is a parameter.
- Registering and removing the document click listener is not modelled. Neither is the deferral that stops the opening click from closing the panel. Both are event-loop details of the component, whose source is not part of this model.
- Offsets are numbers, not strings: appending `px` and formatting decimals are left out. Floating-point rounding is left out too, because offsets are `real`.
- The browser's rewriting of the transform origin to `left top 0px` is engine behaviour and is not modelled.
