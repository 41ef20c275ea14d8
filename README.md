# Scroll-driven product presentation, modelled in Dafny

This project models the core of a scroll-synchronised product page
(`script.js`). While the user scrolls through a pinned section, one progress
value `p` is fanned out into several visual channels, and the same value
drives the yaw of a 3D model. The model is a placeholder at first and is
replaced by a loaded asset if the load succeeds.

- `Channels` (channels.dfy): the arithmetic of the pinned section's
  `onUpdate`. Each channel is a pure function of `p`: header offset, mask
  radius, secondary-header offset, divider scale, and the two tooltip `y`
  targets. Each ramp channel is proved equal to a clamped-ramp reference
  (`Ramp`). Lemmas give ranges, endpoints, monotonicity (strict inside the
  ramp), the tooltip ordering and the values at `p = 0` and `p = 1`.
- `Rotation` (rotation.dfy): the accumulator `currentRotation`. `Update` is
  one step as a pure function. `Replay` and `AppliedSum` run a whole
  progress path. `RotationAccumulator` is the mutable closure variable, with
  a ghost total of the yaw handed to `rotateOnAxis`.
- `Framing` (framing.dfy): the pose `setupModel` computes, as a pure
  function of bounding size, bounding centre and window width. Also the
  `getContainerSize` fallback.
- `Lifecycle` (lifecycle.dfy): `ModelStage` holds the scene (a set of
  object ids), `model`, `modelSize` and the transforms `setupModel` writes.
  It covers the placeholder install, the one load request, and the
  success and error callbacks.
- `Presentation` (presentation.dfy): `ProductViewer` owns the stage and the
  accumulator and runs the three callbacks: scroll update, resize, load
  settled.
- `Units` and `Wrappers`: `Math.PI`, `degToRad`, and an `Option` type.

Angles are `real` radians. `Pi` is the double `Math.PI` as a named constant.
`ScriptedRunReachesMaxRotation` uses its value, because every delta along
that path must exceed 0.001; the other proofs use only that it is positive. Window and container sizes, the
bounding boxes, and the load outcome are inputs.

In these places the model follows the code as written:

- The header is not a ramp over [0.05, 0.35]. `headerProgress` clamps
  `(p - 0.5) / 0.3`, which is 0 for every `p <= 0.5`. So the offset is 0 up
  to and including 0.35 and -100 above it. `HeaderOffset` states this, and
  `HeaderIsNotARamp` shows where it differs from the ramp.
- Progress is not clamped to [0, 1] by the code. Each channel saturates
  through its own guards. The rotation target keeps growing past `p = 1`.
- A resize does not skip the projection update when the viewport has zero
  area. The camera aspect is not modelled. `ContainerSize` proves the
  height is positive whenever the window's height is.
- A loaded model does not inherit the accumulated rotation. It joins the
  scene with no yaw of its own, while `currentRotation` keeps its value, so
  later deltas leave it behind the target by the value at the swap.
  `ProductViewer` records this as `rotationAtSwap`, and its invariant is
  `modelYaw == currentRotation - rotationAtSwap`.
- The model's x position is `center.x + offset`, not `-center.x + offset`
  as for y and z. It is modelled as written.

## Model

| member | source | states |
|---|---|---|
| Channels.Clamp01 | script.js:252 | `Math.max(0, Math.min(1, x))` lies in [0,1], is `x` inside it, 0 below and 1 above |
| Channels.HeaderProgress | script.js:252 | headerProgress lies in [0,1], is 0 for every p <= 0.5 and 1 from 0.8 |
| Channels.HeaderOffset | script.js:252-257 | header xPercent only takes the values 0 and -100: 0 exactly when p <= 0.35, -100 exactly when p > 0.35 |
| Channels.MaskRadius | script.js:259-260 | mask radius lies in [0,100], is 0 exactly when p <= 0.2 and 100 exactly when p >= 0.3 |
| Channels.SecondaryHeaderOffset | script.js:266-267 | secondary-header xPercent lies in [-200,100], is 100 exactly when p <= 0.15 and -200 exactly when p >= 0.5 |
| Channels.DividerScale | script.js:273 | divider scaleX lies in [0,1], is 0 exactly when p <= 0.45 and 1 exactly when p >= 0.65 |
| Channels.TooltipY | script.js:282 | a tooltip's y target is "0%" iff p >= its trigger, otherwise "125%" |
| Channels.TooltipTargets | script.js:280-285 | one y target per tooltipSelector entry, in order; each revealed iff p reaches that entry's trigger, hidden iff p is below it |
| Channels.RampChannelsAreClampedRamps | script.js:259-273 | mask, secondary header and divider each equal the clamped ramp `Ramp` over their breakpoints, for every p |
| Channels.HeaderIsNotARamp | script.js:252-255 | the header is 0 at p = 0.2 and p = 0.35, where a ramp over [0.05,0.35] to -100 would be -50 and -100 |
| Channels.HeaderMonotone | script.js:252-255 | the header offset never increases as p grows |
| Channels.MaskMonotone | script.js:259-260 | the mask radius never decreases as p grows, and strictly increases inside [0.2,0.3] |
| Channels.SecondaryHeaderMonotone | script.js:266-267 | the secondary-header offset never increases, and strictly decreases inside [0.15,0.5] |
| Channels.DividerMonotone | script.js:273 | the divider scale never decreases, and strictly increases inside [0.45,0.65] |
| Channels.SecondTooltipImpliesFirst | script.js:40-57 | tooltip 2 (0.85) revealed implies tooltip 1 (0.65) revealed |
| Channels.MapProgress | script.js:251-285 | one `onUpdate` yields every channel value: header in [-100,0], mask in [0,100], secondary header in [-200,100], divider in [0,1], and one y target per tooltip, each 0% or 125% |
| Channels.ChannelsAtStart | script.js:251-285 | at p = 0: header 0, mask 0, secondary header 100, divider 0, both tooltips hidden |
| Channels.ChannelsAtEnd | script.js:251-285 | at p = 1: header -100, mask 100, secondary header -200, divider 1, both tooltips revealed |
| Units.DegToRad | script.js:140 | the tilt conversion multiplies by π/180 (radians·180 = degrees·π), so it keeps the sign of its argument, maps 0 to 0 and 180 degrees to Math.PI |
| Rotation.TargetRotation | script.js:288-289 | the target is 0 at p = 0.05 and 12π at p = 1, and lies in [0,12π] for p in [0.05,1] |
| Rotation.TargetMonotone | script.js:288-289 | the target never decreases as p grows |
| Rotation.Abs | script.js:291 | `Math.abs` is non-negative and is either its argument or its negation |
| Rotation.Update | script.js:287-295 | the accumulator moves by exactly the applied delta. Without a model or below 0.05 nothing moves (no reset). Otherwise it ends within 0.001 of the target, lands on it whenever the gap exceeded 0.001, and a gap of at most 0.001 is left alone |
| Rotation.AppliedSumTelescopes | script.js:290-293 | over any progress path, start plus the sum of the deltas handed to rotateOnAxis equals the final currentRotation |
| Rotation.ReplayTracksTarget | script.js:287-295 | after any path ending at p >= 0.05, both currentRotation and the total applied yaw (from 0) are within 0.001 of that p's target |
| Rotation.ScriptedRunReachesMaxRotation | script.js:287-295 | the path 0, 0.05, 0.5, 1 ends at 12π, and the applied deltas sum to exactly 12π |
| Rotation.RotationAccumulator.constructor | script.js:79 | currentRotation starts at 0 with no yaw applied |
| Rotation.RotationAccumulator.Apply | script.js:287-295 | the rotation block performs one `Update` step: rotateOnAxis is called iff the delta is non-zero, and the running total of applied yaw stays equal to currentRotation |
| Framing.MaxExtent | script.js:146 | `Math.max` of the three extents is one of them and at least each |
| Framing.FramePose | script.js:126-149 | y is -center.y + 0.085·size.y and z is -center.z in both branches. Mobile (width < 1000): x = center.x, no tilt, camera x 0, camera z 2.2·max extent. Desktop: x = center.x + 0.45·size.x, tilt 25°, camera x 0.18·size.x, camera z 1.45·max extent. Camera y is 0 |
| Framing.FramingDependsOnlyOnViewportClass | script.js:129-147 | two window widths on the same side of 1000 give the same pose |
| Framing.CameraStandsBack | script.js:142-147 | for a model of positive extent, the camera depth is positive and at least every extent |
| Framing.DesktopToMobile | script.js:129-147 | going from 1200 to 800 pixels removes tilt and side offset, centres the camera, and moves it further back |
| Framing.FallbackDimension | script.js:85-86 | a present, non-zero container dimension is the result; a missing container or a 0 dimension gives the window's; the result is 0 only if the window's is |
| Framing.ContainerSize | script.js:84-87 | a present container's non-zero width and height are used, each 0 dimension falls back to the window's on its own, a missing container gives the window's size, and no measured dimension is 0 when the window's is not |
| Framing.ContainerFallsBackPerDimension | script.js:84-87 | a container with a width but no height is measured as its width by the window's height |
| Lifecycle.ModelStage.constructor | script.js:78-80 | no model, no size, empty scene |
| Lifecycle.ModelStage.SetupModel | script.js:126-149 | with a model and a size, the model and camera take `FramePose`; without either, nothing changes |
| Lifecycle.ModelStage.InstallPlaceholder | script.js:179-185 | the placeholder is the model and the only scene object, its size is set, and it is framed, all before any load starts |
| Lifecycle.ModelStage.StartLoad | script.js:191 | the single load request is outstanding once a model is in place |
| Lifecycle.ModelStage.Settle | script.js:193-226 | success: the old model is removed, so the scene is exactly the loaded object; it becomes the model with its own size, framed, with no accumulated yaw. Error: scene, model, size, pose and yaw are unchanged. Either way the load is no longer pending |
| Lifecycle.ModelStage.RotateModel | script.js:292 | rotateOnAxis adds the angle to the current model's yaw |
| Presentation.ProductViewer.constructor | script.js:179-191 | after start-up, the placeholder is the one framed scene object, currentRotation is 0 and the load is pending |
| Presentation.ProductViewer.OnScroll | script.js:251-296 | every channel is computed from p. The accumulator takes one `Update` step, and the model turns by exactly the applied delta, so the model's yaw stays currentRotation minus the rotation at the last swap |
| Presentation.ProductViewer.OnResize | script.js:236-242 | the viewport is measured by `ContainerSize` and the active model is re-framed for the current window width |
| Presentation.ProductViewer.OnLoadSettled | script.js:191-227 | the load settles once. Success replaces the model and records the rotation the new object missed. Failure keeps the placeholder authoritative |

`Framing.IsMobile` (script.js:129) and `Framing.CameraDistance` (script.js:142)
are stated through the `Framing.FramePose` row, whose contract gives both
branches of each.

## Left out

- Rendering: the renderer, its settings, the lights and the `animate` loop (script.js:98-124, 229-234). These are library calls with no logic to state. The lights are therefore absent from `scene`.
- Loader internals: GLTF transport and parsing, the material traverse, the progress log, and the success and error console messages (script.js:188-192, 201-208, 218, 220-222, 224-225). The load result is an input, `Loaded(id, size, center) | LoadFailed`.
- Bounding boxes: `Box3.setFromObject`, `getCenter` and `getSize` are foreign geometry, so the centre and size are inputs. `setupModel` measures the centre of a model it has already moved. Repeated calls are therefore reproducible only at the level of `FramePose`, and no idempotence of the stateful call is claimed.
- 3D transforms: `rotateOnAxis` quaternion composition and its interaction with `rotation.z` (script.js:140, 292). Only the scalar yaw is modelled.
- Animation and DOM plumbing: Lenis and ticker wiring (script.js:11-14), SplitText rewriting (script.js:16-37), the header entrance trigger (script.js:59-76), the pin setup (script.js:244-250), and every `gsap.to` call with its duration, easing and stagger. The computed values are modelled, not their application.
- Resize projection: the camera aspect, `updateProjectionMatrix` and renderer size (script.js:238-240) are library calls. Only the measurement and the re-framing are modelled.
- Floating point: values are `real`, so JS double rounding and `-0` are not modelled. `Pi` is the double value of `Math.PI` taken as an exact real.
- Rotation.Update: does not model the rounding of `Math.PI * 3 * 4 * rotationProgress`. The 0.001 comparison is exact on reals.
