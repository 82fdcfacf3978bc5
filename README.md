# Context wheel: a verified model of the selection controller and spoke renderer

The wheel is a radial menu: a circle cut into `numSections` spokes around the
screen's centre. Moving the cursor hovers a spoke, which is then drawn pulled
out and highlighted. A left click, or a digit key, triggers a spoke and closes
the screen. Closing with a spoke still hovered triggers that spoke.

The two classes of the wheel are modelled as Dafny classes whose methods are
proved against pure functions of their state:

- `Spokes.SpokeRenderer` (the spoke renderer). Its fields are gathered into
  the value `SpokeGeometry.SpokeState`. The spoke's methods are `initConsts`,
  the three setters, `select`/`unselect`, the two curve getters,
  `getOutlinePoints`, the vertex loops of `drawFill` and `drawOutline`, and
  the colour rules. Each one `ensures` that the new state (or the list it
  returns) equals a function in `SpokeGeometry`.
  - The lemmas there describe those functions: the angle formulas, the
    select/unselect algebra, which setters recompute, the shape of a curve,
    the closed outline loop, and the fill-strip index mapping. The index
    mapping is in bounds and skips no point.
- `Wheels.ContextWheelScreen` (the wheel screen). Its state is the list of
  spokes and the hovered index `selectedSection`, where -1 means none. Its
  methods are `initConsts`, `addAllSections`, `updateSelectedSection`,
  `triggerSpoke`, `removed`, `mouseClicked` and `keyPressed`.
  - `Valid()` holds throughout: the list is empty or holds one distinct,
    up-to-date spoke per section, and the hovered index points into it.
  - `SelectionConsistent()` says that exactly the spoke at `selectedSection`
    is marked selected.
- The key mapping and the hit test are pure functions in `WheelInput`.
  - `SectionIndexMatchesSpoke` and `SectionIndexLandsInSpoke` prove that the
    hit test and the drawing agree on where each spoke is.
  - `SectionIndexFromMouseInRange` proves that the hovered index is always -1
    or a valid index.

Java doubles are idealised as reals. Java's `%` on doubles is written out as a
remainder that keeps the sign of the dividend (`JavaMath.Rem`). `Math.sin`,
`Math.cos` and `Math.atan` are function values supplied with the wheel
(`JavaMath.Trig`). The only thing assumed about them is that `atan` stays in
[-π/2, π/2]. The square root in the hit test is replaced by comparing
squared distances; `BelowAgrees` and `AboveAgrees` show that this gives the
same answer for any non-negative root. `RenderUtils.calcArcPoints` and
`RenderUtils.calcStroke` are not part of this model. They are passed in as
functions (`ArcSampler`, `StrokeBuilder`) about which nothing is assumed.
The runtime exception an out-of-range `get` would throw is modelled as
`Options.None`.

The spoke triggers that `triggerSpoke` posts to the chat are recorded in the
field `triggered`. A call to `close()` is recorded in the field
`closeRequested`.

## Model

| member | source | states |
|---|---|---|
| JavaMath.Trunc | common/src/main/java/com/samsthenerd/wnboi/screen/AbstractContextWheelScreen.java:195 | the result is the integer part toward zero: within one below a non-negative argument, within one above a negative one |
| JavaMath.Rem | common/src/main/java/com/samsthenerd/wnboi/screen/AbstractContextWheelScreen.java:195 | Java's `%` on doubles: the result differs from the dividend by a whole number of divisors, and stays in [0, m) for a non-negative dividend and in (-m, 0] for a negative one |
| JavaMath.BelowAgrees | common/src/main/java/com/samsthenerd/wnboi/screen/AbstractContextWheelScreen.java:170-171 | for any non-negative root `dist` of the squared distance, `dist < lowerBoundRadius` holds exactly when BelowRadius does |
| JavaMath.AboveAgrees | common/src/main/java/com/samsthenerd/wnboi/screen/AbstractContextWheelScreen.java:170-171 | for any non-negative root `dist` of the squared distance, `dist > upperBoundRadius` holds exactly when AboveRadius does |
| SpokeGeometry.SweepWidth | common/src/main/java/com/samsthenerd/wnboi/screen/SpokeRenderer.java:71-73 | every spoke sweeps 2π/sections, and midAngle is halfway between startAngle and endAngle |
| SpokeGeometry.AdjacentSpokesMeet | common/src/main/java/com/samsthenerd/wnboi/screen/SpokeRenderer.java:71-72 | spoke i's endAngle is spoke i+1's startAngle |
| SpokeGeometry.SpokesSpanOneTurn | common/src/main/java/com/samsthenerd/wnboi/screen/SpokeRenderer.java:71-72 | the last spoke ends one full turn after the first starts |
| SpokeGeometry.RecomputedEffect | common/src/main/java/com/samsthenerd/wnboi/screen/SpokeRenderer.java:70-79 | initConsts leaves every configuration field and the selection as they were, and makes the derived fields consistent |
| SpokeGeometry.InitialEffect | common/src/main/java/com/samsthenerd/wnboi/screen/SpokeRenderer.java:28-67 | a new spoke has the field defaults (inner radius 0, gap 10, offset π/2, five divisions, unselected), the given origin, radius, count and index, and consistent derived fields |
| SpokeGeometry.SelectEffect | common/src/main/java/com/samsthenerd/wnboi/screen/SpokeRenderer.java:98-105 | select sets isSelected, innerOutlineWeight 0.75, pullOutDistance 10 and innerRadius 0.2·outerRadius, keeps gap, offset, sections, index, radius and origin, and recomputes |
| SpokeGeometry.UnselectEffect | common/src/main/java/com/samsthenerd/wnboi/screen/SpokeRenderer.java:107-114 | unselect clears isSelected and sets innerOutlineWeight, pullOutDistance and innerRadius to 0, keeping the configuration, and recomputes |
| SpokeGeometry.SelectIdempotent | common/src/main/java/com/samsthenerd/wnboi/screen/SpokeRenderer.java:98-105 | selecting twice gives the state of selecting once |
| SpokeGeometry.UnselectIdempotent | common/src/main/java/com/samsthenerd/wnboi/screen/SpokeRenderer.java:107-114 | unselecting twice gives the state of unselecting once |
| SpokeGeometry.UnselectAfterSelect | common/src/main/java/com/samsthenerd/wnboi/screen/SpokeRenderer.java:98-114 | select then unselect gives the state of unselect alone |
| SpokeGeometry.SelectAfterUnselect | common/src/main/java/com/samsthenerd/wnboi/screen/SpokeRenderer.java:98-114 | unselect then select gives the state of select alone |
| SpokeGeometry.SetGapEffect | common/src/main/java/com/samsthenerd/wnboi/screen/SpokeRenderer.java:81-85 | setGap stores the gap, keeps offset, radii and selection, and the gap inset becomes (gap/2)·sin(π/sections) |
| SpokeGeometry.SetAngleOffsetEffect | common/src/main/java/com/samsthenerd/wnboi/screen/SpokeRenderer.java:92-96 | setAngleOffset stores the offset and the start and end angles move to it; gap, radii and selection are kept |
| SpokeGeometry.SetInnerRadiusEffect | common/src/main/java/com/samsthenerd/wnboi/screen/SpokeRenderer.java:87-90 | setInnerRadius changes innerRadius and no other field, and the state stays consistent without a recompute |
| SpokeGeometry.Translated | common/src/main/java/com/samsthenerd/wnboi/screen/SpokeRenderer.java:124-127 | the same number of points, each the raw point plus the anchor |
| SpokeGeometry.CurveShape | common/src/main/java/com/samsthenerd/wnboi/screen/SpokeRenderer.java:116-144 | a curve with a non-positive radius is exactly the anchor point; otherwise it has the raw arc's length and each point is the raw point moved to the anchor |
| SpokeGeometry.Reversed | common/src/main/java/com/samsthenerd/wnboi/screen/SpokeRenderer.java:182 | the same length, point k being point |s|-1-k of the input |
| SpokeGeometry.OutlineShape | common/src/main/java/com/samsthenerd/wnboi/screen/SpokeRenderer.java:179-188 | the outline exists exactly when the inner curve is not empty; it has |inner|+|outer|+1 points: the inner curve in order, the outer curve reversed, and the first inner point again, so it is closed |
| SpokeGeometry.FillIndex | common/src/main/java/com/samsthenerd/wnboi/screen/SpokeRenderer.java:159-164 | the curve index of a fill step is never negative and is below the curve's size |
| SpokeGeometry.FillIndexEnds | common/src/main/java/com/samsthenerd/wnboi/screen/SpokeRenderer.java:162-168 | the first step uses a curve's first point and the last step its last point |
| SpokeGeometry.FillIndexCovers | common/src/main/java/com/samsthenerd/wnboi/screen/SpokeRenderer.java:162-168 | every point of a curve is used by some fill step (no point is skipped) |
| SpokeGeometry.FillColorOf | common/src/main/java/com/samsthenerd/wnboi/screen/SpokeRenderer.java:222-228 | the highlight colour exactly on the outer side of a selected spoke, the base colour exactly otherwise |
| SpokeGeometry.FillStripShape | common/src/main/java/com/samsthenerd/wnboi/screen/SpokeRenderer.java:157-169 | the strip fails exactly when one curve is empty and the other is not; otherwise it has 2·max(|inner|,|outer|) vertices, inner then outer at each step, taken at FillIndex and coloured by the fill rule |
| SpokeGeometry.OutlineVertices | common/src/main/java/com/samsthenerd/wnboi/screen/SpokeRenderer.java:200-204 | one vertex per stroke point, at that point with z 0, in the outline colour |
| Spokes.TranslateAll | common/src/main/java/com/samsthenerd/wnboi/screen/SpokeRenderer.java:124-127 | the loop builds exactly Translated |
| Spokes.SpokeRenderer.constructor | common/src/main/java/com/samsthenerd/wnboi/screen/SpokeRenderer.java:58-67 | the fields are the initial state for the given origin, radius, count and index, and consistent |
| Spokes.SpokeRenderer.InitConsts | common/src/main/java/com/samsthenerd/wnboi/screen/SpokeRenderer.java:70-79 | the new state is the old one with the derived fields recomputed |
| Spokes.SpokeRenderer.SetGap | common/src/main/java/com/samsthenerd/wnboi/screen/SpokeRenderer.java:81-85 | returns this; the new state is WithGap of the old |
| Spokes.SpokeRenderer.SetInnerRadius | common/src/main/java/com/samsthenerd/wnboi/screen/SpokeRenderer.java:87-90 | returns this; only innerRadius changes |
| Spokes.SpokeRenderer.SetAngleOffset | common/src/main/java/com/samsthenerd/wnboi/screen/SpokeRenderer.java:92-96 | returns this; the new state is WithAngleOffset of the old |
| Spokes.SpokeRenderer.Select | common/src/main/java/com/samsthenerd/wnboi/screen/SpokeRenderer.java:98-105 | the new state is Selected of the old, and consistent |
| Spokes.SpokeRenderer.Unselect | common/src/main/java/com/samsthenerd/wnboi/screen/SpokeRenderer.java:107-114 | the new state is Unselected of the old, and consistent |
| Spokes.SpokeRenderer.GetOuterCurvePoints | common/src/main/java/com/samsthenerd/wnboi/screen/SpokeRenderer.java:116-129 | the result is OuterCurve of the state: the anchor alone for a non-positive radius, else as long as the sampled arc |
| Spokes.SpokeRenderer.GetInnerCurvePoints | common/src/main/java/com/samsthenerd/wnboi/screen/SpokeRenderer.java:131-144 | the result is InnerCurve of the state, with the same two cases |
| Spokes.SpokeRenderer.GetOutlinePoints | common/src/main/java/com/samsthenerd/wnboi/screen/SpokeRenderer.java:179-188 | the result is Outline of the two curves |
| Spokes.SpokeRenderer.GetColorFill | common/src/main/java/com/samsthenerd/wnboi/screen/SpokeRenderer.java:222-228 | the highlight colour exactly when selected and not inner, the base colour exactly when inner or not selected |
| Spokes.SpokeRenderer.GetColorOutline | common/src/main/java/com/samsthenerd/wnboi/screen/SpokeRenderer.java:231-234 | every outline vertex gets the colour (128, 255, 255, 255), whatever its index |
| Spokes.SpokeRenderer.DrawFill | common/src/main/java/com/samsthenerd/wnboi/screen/SpokeRenderer.java:147-169 | the vertices emitted are FillStrip of the two curves and the selection |
| Spokes.SpokeRenderer.DrawOutline | common/src/main/java/com/samsthenerd/wnboi/screen/SpokeRenderer.java:191-204 | the vertices emitted are OutlineVertices of the stroke built around the outline with the two outline weights |
| Spokes.SpokeRenderer.Render | common/src/main/java/com/samsthenerd/wnboi/screen/SpokeRenderer.java:213-219 | the fill strip, then the outline strip; when the fill strip fails (drawFill throws) no outline is drawn |
| WheelInput.DigitIndex | common/src/main/java/com/samsthenerd/wnboi/screen/AbstractContextWheelScreen.java:89-91 | a spoke index exactly for the digit keys; '1'..'9' give 0..8 and '0' gives 9 |
| WheelInput.KeyForIndexRoundTrip | common/src/main/java/com/samsthenerd/wnboi/screen/AbstractContextWheelScreen.java:89-91 | each index 0..9 has a digit key that maps back to it |
| WheelInput.DigitIndexRoundTrip | common/src/main/java/com/samsthenerd/wnboi/screen/AbstractContextWheelScreen.java:89-91 | every digit key is the key of the index it maps to |
| WheelInput.KeyTarget | common/src/main/java/com/samsthenerd/wnboi/screen/AbstractContextWheelScreen.java:89-100 | a key triggers a spoke exactly when its digit index is below numSections, and then that index |
| WheelInput.ZeroKeyNeedsTenSpokes | common/src/main/java/com/samsthenerd/wnboi/screen/AbstractContextWheelScreen.java:91-92 | '0' triggers spoke 9 with ten spokes and nothing with nine |
| WheelInput.SectionIndexFromAngle | common/src/main/java/com/samsthenerd/wnboi/screen/AbstractContextWheelScreen.java:192-197 | getSectionIndexFromAngle: with a non-negative operand to `%` and at least one section, the index is in [0, numSections) |
| WheelInput.ScaledBin | common/src/main/java/com/samsthenerd/wnboi/screen/AbstractContextWheelScreen.java:196 | the scaled angle's floor is i exactly when the angle lies in [2πi/n, 2π(i+1)/n) |
| WheelInput.SectionIndexMatchesSpoke | common/src/main/java/com/samsthenerd/wnboi/screen/AbstractContextWheelScreen.java:192-197 | an angle inside spoke i's sweep (as the spoke computes it) maps to index i |
| WheelInput.SectionIndexLandsInSpoke | common/src/main/java/com/samsthenerd/wnboi/screen/AbstractContextWheelScreen.java:192-197 | conversely, the angle less the whole turns Java's `%` removed lies in the sweep of the spoke it maps to |
| WheelInput.ThreeOClockOnEightSpokes | common/src/main/java/com/samsthenerd/wnboi/screen/AbstractContextWheelScreen.java:192-197 | with eight spokes and the default offset, angle 0 maps to spoke 2 |
| WheelInput.MouseAngle | common/src/main/java/com/samsthenerd/wnboi/screen/AbstractContextWheelScreen.java:176-188 | the cursor's angle is π/2 straight below the centre and 3π/2 straight above it or at it; otherwise it lies in the cursor's half-plane ([-π/2, π/2] to the right, [π/2, 3π/2] to the left) when atan keeps its range, so always in [-π/2, 3π/2] |
| WheelInput.SectionIndexFromMouse | common/src/main/java/com/samsthenerd/wnboi/screen/AbstractContextWheelScreen.java:163-190 | -1 at the exact centre, -1 inside the lower bound or beyond the upper bound; a cursor off the centre and inside the band gets exactly the section of its angle |
| WheelInput.SectionIndexFromMouseInRange | common/src/main/java/com/samsthenerd/wnboi/screen/AbstractContextWheelScreen.java:163-197 | the hovered index is -1 or a valid spoke index, so the `get` calls of updateSelectedSection are in bounds |
| WheelInput.RimIsSelectable | common/src/main/java/com/samsthenerd/wnboi/screen/AbstractContextWheelScreen.java:110-117 | with the bounds initConsts derives, a cursor at exactly the wheel's radius is over a spoke |
| Wheels.UpperBound | common/src/main/java/com/samsthenerd/wnboi/screen/AbstractContextWheelScreen.java:115 | the upper bound exceeds a positive radius by a tenth of it |
| Wheels.LowerBound | common/src/main/java/com/samsthenerd/wnboi/screen/AbstractContextWheelScreen.java:116 | the lower bound is the larger of a tenth of the radius and the inner radius |
| Wheels.BoundsOrdered | common/src/main/java/com/samsthenerd/wnboi/screen/AbstractContextWheelScreen.java:114-116 | for a positive radius and a smaller inner radius, lower bound < radius < upper bound |
| Wheels.GeneratedEffect | common/src/main/java/com/samsthenerd/wnboi/screen/AbstractContextWheelScreen.java:140-142 | a generated spoke is consistent and unselected, has the screen's gap, inner radius and offset, its position's count and index, and that position's sweep |
| Wheels.GeneratedSpokeIsHitTested | common/src/main/java/com/samsthenerd/wnboi/screen/AbstractContextWheelScreen.java:192-197 | every angle inside the sweep of the spoke built for position i is hit-tested to i |
| Wheels.ContextWheelScreen.constructor | common/src/main/java/com/samsthenerd/wnboi/screen/AbstractContextWheelScreen.java:44-48 | no selection, no spokes, nothing triggered |
| Wheels.ContextWheelScreen.InitConsts | common/src/main/java/com/samsthenerd/wnboi/screen/AbstractContextWheelScreen.java:110-117 | the centre is half the size, the radius a quarter of the height, and the bounds UpperBound and LowerBound of it |
| Wheels.ContextWheelScreen.GenSpokeRenderer | common/src/main/java/com/samsthenerd/wnboi/screen/AbstractContextWheelScreen.java:140-142 | a fresh, consistent spoke in the Generated state |
| Wheels.ContextWheelScreen.RebuildSpokes | common/src/main/java/com/samsthenerd/wnboi/screen/AbstractContextWheelScreen.java:121-124 | exactly numSections distinct fresh spokes, the one at position i generated for section i |
| Wheels.ContextWheelScreen.AddAllSectionsAsWritten | common/src/main/java/com/samsthenerd/wnboi/screen/AbstractContextWheelScreen.java:119-125 | the same centre, bounds and generated spokes as the corrected rebuild, all unselected, but selectedSection is kept, so a previous selection is no longer consistent |
| Wheels.ContextWheelScreen.AddAllSections | common/src/main/java/com/samsthenerd/wnboi/screen/AbstractContextWheelScreen.java:119-125 | the corrected rebuild: as above, with the selection discarded, so the selection invariant holds |
| Wheels.ContextWheelScreen.Init | common/src/main/java/com/samsthenerd/wnboi/screen/AbstractContextWheelScreen.java:58-62 | the screen's size is stored and the wheel is built for it |
| Wheels.ContextWheelScreen.UpdateSelectedSection | common/src/main/java/com/samsthenerd/wnboi/screen/AbstractContextWheelScreen.java:149-161 | the new index is the hovered one; an unchanged index changes no spoke; otherwise only the old spoke is unselected and the new one selected; the selection invariant is preserved |
| Wheels.ContextWheelScreen.TriggerSpoke | common/src/main/java/com/samsthenerd/wnboi/screen/AbstractContextWheelScreen.java:104-108 | the selection is cleared and the index is posted once |
| Wheels.ContextWheelScreen.Removed | common/src/main/java/com/samsthenerd/wnboi/screen/AbstractContextWheelScreen.java:65-70 | the hovered spoke, and only one, is triggered if there is one; the selection ends cleared |
| Wheels.ContextWheelScreen.MouseClicked | common/src/main/java/com/samsthenerd/wnboi/screen/AbstractContextWheelScreen.java:73-84 | consumed exactly for a left click with a spoke hovered, which is triggered once and the screen closed; anything else changes nothing |
| Wheels.ContextWheelScreen.KeyPressed | common/src/main/java/com/samsthenerd/wnboi/screen/AbstractContextWheelScreen.java:86-101 | consumed exactly when the key names an existing spoke, which is triggered once and the screen closed; anything else changes nothing |
| Wheels.ClickThenClose | common/src/main/java/com/samsthenerd/wnboi/screen/AbstractContextWheelScreen.java:65-84 | a triggering click followed by the removal its close leads to triggers exactly once |
| Wheels.KeyThenClose | common/src/main/java/com/samsthenerd/wnboi/screen/AbstractContextWheelScreen.java:86-101 | a triggering key followed by the removal triggers exactly once, for the key's spoke |
| Wheels.StaleSelectionOnResize | common/src/main/java/com/samsthenerd/wnboi/screen/AbstractContextWheelScreen.java:119-125 | on an eight-spoke 400×400 wheel with the cursor on the rim, the re-init leaves a stale index in [0, 8) |

## Left out

- Drawing: the tessellator, buffer builder, shader, blend and cull calls are not modelled. Only the vertex lists that `drawFill` and `drawOutline` feed them are.
- `render` of the screen, `shouldPause`, `modifySpokeRenderer`, the logger and the base `Screen` handlers (`super.mouseClicked`, `super.keyPressed`, `super.removed`) are framework calls. A handler that passes an event on returns `PassedToBase` and changes nothing.
- The chat message and `close()` are recorded as the fields `triggered` and `closeRequested`.
- `RenderUtils.calcArcPoints` and `RenderUtils.calcStroke`: their code is not part of this model. They are function parameters with no assumed behaviour.
- Floating-point rounding is not modelled; doubles are reals.
- SpokeGeometry.FillIndex: computed on integers as `i*size/n`. The source computes `floor(i * (size/(double)n))` in doubles, which could round differently at exact multiples.
- Trigonometry and square root: `sin`, `cos` and `atan` are uninterpreted, apart from the range of `atan`. `sqrt` is replaced by comparing squared distances.
- GLFW key codes: only `GLFW_KEY_0` (48) is used, with the digits at `KEY_0 + d`. `scanCode` and `modifiers` are ignored, as in the source.
- Wheels.ContextWheelScreen.constructor: requires `numSecs >= 1`. With no spokes, the source's hit test returns 0 and `spokeRenderers.get(0)` would throw. The default constructors' eight spokes and the title are not modelled.
- Wheels.ContextWheelScreen.UpdateSelectedSection: requires `Initialized()`. The host runs `init()` before the first `render`, which is the only caller.
- `innerRadius`, `gap` and `angleOffset` of the screen are constants at their source defaults. A subclass could change them; subclassing is not modelled.
- Division by a zero section count in the spoke's angle formulas is excluded by `sections != 0`.
- Argb packing (`ColorHelper.Argb.getArgb`) is not modelled; a colour is its four components.
- The `(int)` casts of `Math.floor` results are taken as exact. Java saturates them beyond the int range, which the bounded indices here never reach.
- Wheels.ContextWheelScreen.Init: builds the wheel through the corrected `AddAllSections`, so a re-init leaves `selectedSection` at -1. The source's `init()` keeps the old value (see Findings); `AddAllSectionsAsWritten` models that behaviour.
- Wheels.ContextWheelScreen.TriggerSpoke: leaves the triggered spoke renderer marked selected while clearing `selectedSection`, as the source does. `SelectionConsistent` therefore does not survive a trigger. The source closes the screen right after every trigger.

## Findings

| source | as written | input that shows it | evidently intended | confidence | as-written member | corrected member |
|---|---|---|---|---|---|---|
| common/src/main/java/com/samsthenerd/wnboi/screen/AbstractContextWheelScreen.java:119-125 | `addAllSections` rebuilds every spoke unselected but keeps `selectedSection`. The host re-runs `init()` on a resize, so a spoke hovered before the resize is still the selected index but is no longer drawn as selected; it stays so while the cursor remains over it. | eight spokes on a 400×400 screen, cursor at (300, 200) on the rim, then a re-init | the rebuild discards the selection along with the old spokes, so the next cursor move selects afresh | medium; not executed | Wheels.ContextWheelScreen.AddAllSectionsAsWritten | Wheels.ContextWheelScreen.AddAllSections |

`Wheels.StaleSelectionOnResize` runs the input above against the as-written rebuild.
`Init` uses the corrected `AddAllSections`.
