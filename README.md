# Magic Christmas Tree — interaction and animation engine

This project models the core of a hand-gesture-driven 3D Christmas tree: a webcam
hand tracker turns each video frame into a left-hand and a right-hand observation,
and a per-frame engine uses them. An open left hand explodes the tree into a cloud
of particles and a fist reforms it. The right hand moves a cursor, and a pinch grabs
a photo ornament.

The model covers:

- **Vision** (`vision.dfy`): the gesture classifier `processDetections` and the
  `lastVideoTime` gate of the detection loop.
  - Neutral defaults; a `'Left'`/other role split where the last write wins.
  - The mirrored index-tip pointer.
  - Openness from the mean planar wrist-to-tip distance, strictly above 0.25.
  - Pinching from the planar thumb-to-index distance, strictly below 0.05.
  - A detection that cannot be read makes the call throw. The loop catches the
    error, so no result is delivered that frame.
- **Interpolation** (`interpolation.dfy`): the expansion lerp towards 1 (rate 2.5)
  or 0 (rate 3.5), and the rotation target advancing 0.2 rad/s with the displayed
  rotation chasing it at rate 4.
- **Selection** (`selection.dfy`): the photo catalogue and its first-occurrence
  de-duplication, `findIndex`, and the grab / release / hover state machine of the
  right hand.
- **Tree** (`tree.dfy`): the `useFrame` handler as a class holding the refs
  (`currentExpansion`, `currentRotation`, `targetRotation`, `prevPinch`,
  `holdingPhoto`) and the hovered index, updated in place once per frame.
- **Photos** (`photos.dfy`): `photoData` (placement on the formed and the exploded
  tree) and the per-frame CPU position of an ornament: blend by `expansion * 0.95`,
  float or bob around the 0.05 threshold, rotate with the tree. Also the hover
  highlight.
- **Field** (`field.dfy`): `generateData`, which fills six flat buffers per
  sphere/box from the random stream. Entity `i` occupies slots `3i .. 3i+2` or
  slot `i`, and green spheres consume one extra draw.
- **Garland** (`garland.dfy`): the spiral garland's initial coil and its per-frame
  loop, which rewrites the position buffer in place.
- **Background** (`background.dfy`): the 800 background points.
- **Overlay** (`overlay.dfy`): the cursor conversion to screen percent, the status
  texts, and which parts of the overlay are visible.

Conventions:

- The JavaScript `Math` functions (`sin`, `cos`, `sqrt`, `pow`, `acos`) are fields
  of a `MathLib` value of uninterpreted total functions. Each property states as a
  hypothesis exactly the fact it needs about the arguments it uses, for example
  `cos(a)^2 + sin(a)^2 = 1` for the one angle `a`.
- `Math.random()` is an injected sequence `draws` of reals, consumed in the order
  the source calls it. Properties that need the draws to be in `[0, 1)` say so.
- The wall clock and the frame's `delta` are parameters.
- The three.js ray cast is replaced by its result: nothing hit, or the nearest
  photo mesh with the url it carries (`RayHit`).
- Whether a React ref or a `VisionManager` field is set is a boolean parameter:
  `hasGeometry` for the garland's `geometryRef`, `ready` for the video element
  and the hand landmarker both being present, `hasCallback` for the registered
  callback.
- Arithmetic is exact `real` arithmetic.

Three details of the code the model keeps:

- Openness and pinch use the planar distance: `z` is ignored.
- The ornament blend is the linear `lerpVectors`, with no easing curve.
- A malformed detection throws inside `processDetections`; the loop catches it and
  simply delivers nothing that frame.

## Model

| member | source | states |
|---|---|---|
| Common.LerpGap | components/MagicTree.tsx:591 | `lerp(x, y, t)` covers the fraction `t` of the way from `x` to `y` and leaves the fraction `1 - t` of the gap |
| Common.LerpBetween | components/MagicTree.tsx:591 | with `t` in [0, 1] the lerp lies between its end points, whichever is larger |
| Common.LerpVecIsLerp | components/MagicTree.tsx:340 | `lerpVectors` is the scalar lerp applied to each component |
| Common.RotateYPreserves | components/MagicTree.tsx:350-354 | the rotation about the vertical axis keeps `y` and `x² + z²` when cos² + sin² = 1 |
| Vision.PointerCoordMapping | services/visionService.ts:101-102 | the pointer maps [0, 1] reversed onto [-1, 1], 0 → 1, 0.5 → 0, 1 → -1, and `c = 0.5 - p/2` inverts it |
| Vision.PointerCoordReverses | services/visionService.ts:101-102 | the pointer mapping strictly reverses order (mirrored video) |
| Vision.Openness | services/visionService.ts:106-113 | the `forEach` accumulating `totalDist` yields open exactly when the mean wrist-to-tip distance exceeds 0.25 |
| Vision.OpenIffSum | services/visionService.ts:106-113 | open iff the five planar wrist-to-tip distances (tips 4, 8, 12, 16, 20) sum to more than 1.25; a mean of exactly 0.25 is not open |
| Vision.PinchIffSquared | services/visionService.ts:117-121 | given a true square and square root, pinching iff the squared thumb-to-index distance is below 0.0025; exactly 0.05 is not a pinch |
| Vision.HandOf | services/visionService.ts:93-128 | the reference hand of one detection: detected; open iff the mean planar wrist-to-tip distance over tips 4, 8, 12, 16, 20 exceeds 0.25; pointer `-(c - 0.5) * 2` of landmark 8; pinching iff the planar thumb-to-index distance is below 0.05 (characterised by Vision.OpenIffSum, Vision.PinchIffSquared, Overlay.CursorFollowsIndexTip) |
| Vision.Processed | services/visionService.ts:78-134 | the reference result after the first `n` detections: the neutral pair with each detection in order overwriting the hand of its role, `'Left'` the left and any other label the right (characterised by Vision.LastWriteWins, Vision.AbsentRoleIsNeutral, Vision.DetectedIffLabelled) |
| Vision.Classify | services/visionService.ts:77-136 | the reference classifier: neutral when either list is missing, a failure when some detection lacks a handedness guess or one of 21 landmarks, else `Processed` over all detections (characterised by Vision.ClassifyFailsIffMalformed, Vision.NoDetectionsIsNeutral) |
| Vision.DetectHand | services/visionService.ts:93-128 | one detection's hand data: detected, open by the mean tip distance, pointer at landmark 8, pinching by the thumb-to-index distance |
| Vision.ApplyDetection | services/visionService.ts:86-134 | one iteration: detection `i`'s hand data overwrites the hand of its role, extending the processed prefix by one |
| Vision.ProcessDetections | services/visionService.ts:77-136 | the loop over detections returns the neutral result overwritten role by role in order, or fails (throws) exactly as the reference `Classify` does |
| Vision.AbsentRoleIsNeutral | services/visionService.ts:78-82 | a role no detection is labelled with keeps `{detected: false, isOpen: false, position: (0, 0), isPinching: false}` |
| Vision.LastWriteWins | services/visionService.ts:130-134 | a role's hand is the one computed from the last detection carrying its label (`'Left'` for left, any other label for right) |
| Vision.DetectedIffLabelled | services/visionService.ts:123-134 | a role is reported detected exactly when some detection carries its label |
| Vision.ClassifyFailsIffMalformed | services/visionService.ts:84-95 | the call throws exactly when some detection lacks a handedness guess or one of the 21 landmarks |
| Vision.NoDetectionsIsNeutral | services/visionService.ts:78-84 | with no landmark list, no handedness list or no detections both hands are neutral |
| Vision.VisionManager.constructor | services/visionService.ts:16-21 | `lastVideoTime` starts at -1 and no animation frame is requested |
| Vision.VisionManager.Loop | services/visionService.ts:60-75 | detection runs only when ready and `currentTime != lastVideoTime`, which is then updated; a result is delivered iff the detection neither threw nor failed and a callback is set; the next frame is always requested |
| Vision.RepeatedVideoTime | services/visionService.ts:64-65 | a second run on the same video time delivers nothing |
| Interpolation.ExpansionStep | components/MagicTree.tsx:589-591 | one frame's `currentExpansion = lerp(currentExpansion, target, delta * speed)` with target 1 / speed 2.5 for an open left hand and 0 / 3.5 otherwise (characterised by Interpolation.ExpansionGapShrinks, Interpolation.ExpansionStepBounded, Interpolation.ExpansionRunBounded) |
| Interpolation.ExpansionGapShrinks | components/MagicTree.tsx:589-591 | target 1 and rate 2.5 when open, 0 and 3.5 otherwise; each frame multiplies the gap to the target by `1 - delta * rate`; closing is faster |
| Interpolation.ExpansionStepBounded | components/MagicTree.tsx:589-591 | for `old` in [0, 1] and `delta * rate` in [0, 1] the new expansion stays in [0, 1] and moves towards the target without overshoot |
| Interpolation.ExpansionOvershootsOnLongFrame | components/MagicTree.tsx:591 | the lerp factor is unclamped: a half-second frame with a fist takes 1 to -0.75 |
| Interpolation.ExpansionAfterGap | components/MagicTree.tsx:589-591 | `n` steady frames multiply the gap to the target by `(1 - delta * rate)^n` |
| Interpolation.ExpansionRunBounded | components/MagicTree.tsx:585-591 | over any run of frames, each with its own `delta` and hand state and a lerp factor in [0, 1], the expansion stays in [0, 1]; it never decreases while the hand stays open and never increases while it stays closed |
| Interpolation.ExpansionAfterBounded | components/MagicTree.tsx:589-591 | any number of steady frames keeps the expansion in [0, 1], monotone towards the target |
| Interpolation.SteadyGaps | components/MagicTree.tsx:589-591 | the closed forms of the gap under a steady open hand and under a steady fist |
| Interpolation.OpeningScenario | components/MagicTree.tsx:589-591 | two seconds at 60 fps with an open hand takes a formed tree above 0.95 |
| Interpolation.OpenThenCloseScenario | components/MagicTree.tsx:589-591 | two more seconds with a fist bring it below 0.05 |
| Interpolation.RotationStep | components/MagicTree.tsx:593-594 | one frame's rotation update: the target first advances by `delta * 0.2`, then the displayed rotation lerps towards the new target by `delta * 4` (characterised by Interpolation.RotationStepAdvances, Interpolation.RotationRunChases) |
| Interpolation.RotationStepAdvances | components/MagicTree.tsx:593-594 | the target grows by exactly `delta * 0.2`, and the displayed rotation covers the fraction `delta * 4` of its lag |
| Interpolation.RotationStepChases | components/MagicTree.tsx:593-594 | with `delta * 4` in [0, 1], a lagging rotation never decreases and stays at or below its target |
| Interpolation.RotationRunChases | components/MagicTree.tsx:593-594 | over any run of such frames the target grows by 0.2 times the elapsed time, and the rotation is non-decreasing and still lags |
| Selection.FindIndex | components/MagicTree.tsx:652 | -1 iff absent; otherwise the first index holding the value |
| Selection.DedupCharacterized | components/MagicTree.tsx:488 | `Array.from(new Set(urls))` keeps exactly the input's elements, each once, in order of first occurrence |
| Selection.DedupOfDistinct | components/MagicTree.tsx:488 | a list without repeats is its own de-duplication |
| Selection.PhotoUrlsDistinct | components/MagicTree.tsx:463-484 | the 20 catalogue urls are distinct |
| Selection.PhotoOrderIsCatalogue | components/MagicTree.tsx:463-489 | `photoData` lists exactly the 20 catalogue photos in catalogue order, and `findIndex` of url `k` is `k` |
| Selection.FallbackIndexInRange | components/MagicTree.tsx:627 | `floor(random * photoUrls.length)` is a valid catalogue index |
| Selection.Press | components/MagicTree.tsx:611-631 | the press-edge branch: on a rising pinch edge a hit with a url selects it, a url-less hit does nothing, no hit with expansion above 0.5 selects `photoUrls[floor(draw * 20)]`, otherwise nothing (characterised by Selection.PressEdgeOutcomes) |
| Selection.SelectStep | components/MagicTree.tsx:608-662 | the whole selection block of one frame in source order: press edge, then release, then hover, then `prevPinch` (characterised by Selection.StepInvariant, Selection.ReleaseExactly, Selection.HoverRule, Selection.RunAlternates) |
| Selection.StepInvariant | components/MagicTree.tsx:608-662 | after every frame `prevPinch` equals this frame's pinch (detected and pinching), holding implies `prevPinch`, and at most one select call is made |
| Selection.GrabOnlyOnPressEdge | components/MagicTree.tsx:608-631 | a grab, or a hold starting, happens only when the right hand is detected, pinching, and was not pinching before |
| Selection.PressEdgeOutcomes | components/MagicTree.tsx:619-630 | on a press edge: a hit with a url selects it; a url-less hit selects nothing and has no fallback; no hit with expansion > 0.5 selects the catalogue photo at `floor(draw * 20)`; no hit with expansion <= 0.5 selects nothing |
| Selection.ReleaseExactly | components/MagicTree.tsx:633-636 | `onPhotoSelect(null)` fires and the hold ends exactly when a photo was held and the hand is not pinching; losing the hand releases and never grabs |
| Selection.HoverRule | components/MagicTree.tsx:639-660 | hover is cleared without a right hand or while holding; otherwise `findIndex` of the hit's url (maybe -1), cleared on a miss, unchanged on a url-less hit |
| Selection.StepAlternates | components/MagicTree.tsx:607-662 | one frame's select calls continue the grab/release alternation and leave the hold as the alternation says |
| Selection.RunAlternates | components/MagicTree.tsx:607-662 | over any run of frames, grabs and releases strictly alternate, starting with a release iff a photo was held |
| Selection.PinchScenario | components/MagicTree.tsx:607-662 | pinch sequence false, true, true, true, false on a photo: exactly one grab on frame 2, held on frames 2-4, one release on frame 5 |
| Tree.MagicTreeEngine.constructor | components/MagicTree.tsx:447-454 | all refs start at 0 / false and nothing is hovered |
| Tree.MagicTreeEngine.UpdateTreeState | components/MagicTree.tsx:588-594 | the expansion and rotation refs take one interpolation step; the selection state is untouched |
| Tree.MagicTreeEngine.UpdateSelection | components/MagicTree.tsx:607-662 | the grab/release/hover refs and the select calls are those of one selection step; the expansion and rotation are untouched, and holding implies `prevPinch` |
| Tree.MagicTreeEngine.Frame | components/MagicTree.tsx:585-663 | one `useFrame`: the interpolation step, then the selection step on the new expansion, with the invariant kept |
| Tree.GrabThenLoseHand | components/MagicTree.tsx:607-662 | a fresh tree, a pinch onto a photo, then a lost hand: the photo is selected, then released |
| Photos.PhotoEntryOf | components/MagicTree.tsx:490-507 | one ornament from seven draws in the source's read order: height band, radius, angle, explosion radius, explosion angles and spin offset (characterised by Photos.PhotoPlacement, Photos.ExplosionOnSphere) |
| Photos.PhotoDataFrom | components/MagicTree.tsx:489-508 | one entry per url, entry `i` built from draws `7i .. 7i+6` |
| Photos.PhotoDataOnePerPhoto | components/MagicTree.tsx:486-489 | one ornament per distinct url, in first-occurrence order, and the ornament of a url is at that url's `findIndex` |
| Photos.PhotoPlacement | components/MagicTree.tsx:490-496 | height in [-2.25, 2.25); distance from the axis between 80% and 100% of the margin-widened cone radius in (1.14, 3.06]; spin offset in [0, pi) |
| Photos.ExplosionOnSphere | components/MagicTree.tsx:498-505 | the exploded position is on the sphere of radius `exR` in [8, 13) |
| Photos.Animated | components/MagicTree.tsx:340-348 | the blend by `expansion * 0.95`, then the float offsets above expansion 0.05 or the bob `0.1 sin(time + y0)` otherwise (characterised by Photos.BlendRange, Photos.AnimationOffsets, Photos.FormedOrnamentBobs) |
| Photos.OrnamentPosition | components/MagicTree.tsx:340-356 | the animated position rotated about the vertical axis by the tree's rotation (characterised by Photos.OrnamentRotationRigid) |
| Photos.BlendRange | components/MagicTree.tsx:340 | at expansion 0 the blend is the initial position; for expansion in [0, 1] the factor is in [0, 0.95] and each coordinate lies between initial and exploded |
| Photos.AnimationOffsets | components/MagicTree.tsx:342-348 | at or below 0.05 only `y` moves, by at most 0.1; above, each axis moves by at most 1.5, 1 and 1.5 times the expansion |
| Photos.OrnamentRotationRigid | components/MagicTree.tsx:350-354 | the tree rotation keeps the ornament's height and distance from the axis |
| Photos.FormedOrnamentBobs | components/MagicTree.tsx:340-354 | a formed, unrotated tree moves an ornament only vertically, by `0.1 sin(time + y0)` |
| Photos.Highlight | components/MagicTree.tsx:722 | the hover highlight driven by `isHovered = hoveredPhotoIndex === i` (characterised by Photos.HighlightExclusive) |
| Photos.HighlightExclusive | components/MagicTree.tsx:722 | at most one ornament is highlighted; none for `null` or -1; exactly the hovered index otherwise |
| Field.Offset | components/MagicTree.tsx:529-578 | entity `i`'s draws start between `12i` and `13i` |
| Field.ParticleAt | components/MagicTree.tsx:530-577 | the reference particle read from the stream at an offset: formed position in the cone, exploded position on the sphere, palette category and its colour and scale, speed and axis, in the source's draw order (characterised by Field.ParticleAttributes, Field.TargetInsideCone, Field.RandomPosOnSphere) |
| Field.Entity | components/MagicTree.tsx:529-531 | entity `i` is the particle read at the offset where entity `i - 1`'s draws end (characterised by Field.Offset, Field.BoxOffsets) |
| Field.EntityFromStream | components/MagicTree.tsx:530-577 | one iteration's successive `Math.random()` reads build the reference particle and consume 13 draws for a green sphere, 12 otherwise |
| Field.GenerateEntity | components/MagicTree.tsx:529-578 | one loop iteration extends the written prefix by entity `i`, writes nothing outside entity `i`'s slots, and advances the stream to entity `i + 1`'s offset |
| Field.WriteEntity | components/MagicTree.tsx:537-577 | writing entity `i` keeps the slots of all earlier entities, fills its own, and writes nothing else |
| Field.GenerateData | components/MagicTree.tsx:511-580 | six arrays of lengths `3n` / `n`, slots `3i .. 3i+2` and `i` holding entity `i`'s attributes, for every `i` |
| Field.ShadeIndexInRange | components/MagicTree.tsx:554 | the green shade index is in range and is `floor(u * 3)` for a draw in [0, 1) |
| Field.SphereColourBands | components/MagicTree.tsx:550-566 | sphere colour is green on [0, 0.65), yellow on [0.65, 0.80), red on [0.80, 0.92), white on [0.92, 1); a green shade is one of the three |
| Field.BoxColourBands | components/MagicTree.tsx:567-576 | box colour is yellow on [0, 0.4), red on [0.4, 0.75), white on [0.75, 1); never green |
| Field.ScaleBands | components/MagicTree.tsx:550-576 | scale ranges: green [0.1, 0.25), yellow [0.15, 0.27), red [0.14, 0.26), white [0.09, 0.15), box [0.2, 0.35) |
| Field.ParticleAttributes | components/MagicTree.tsx:529-578 | colour is the category's palette colour; scale in [0.09, 0.35); speed in [0.5, 1.5); tumble axis components in [-0.5, 0.5) |
| Field.TargetInsideCone | components/MagicTree.tsx:531-539 | the formed position has height in [-3.75, 3.75], cone radius `3.2(1 - yNorm)` in [0, 3.2], and lies inside that radius |
| Field.RandomPosOnSphere | components/MagicTree.tsx:541-546 | the exploded position is on the sphere of radius `exR` in [6, 14) |
| Field.BoxOffsets | components/MagicTree.tsx:567-577 | boxes read the stream in blocks of exactly 12 |
| Garland.CoilPoint | components/MagicTree.tsx:236-243 | point `i` of the coil at `t = i / 400`: height `8.5t - 4.2`, radius `4(1 - t) + 0.2`, angle `16πt` (characterised by Garland.CoilRisesAndNarrows, Garland.CoilWinds, Garland.CoilPointOnCircle) |
| Garland.CoilRisesAndNarrows | components/MagicTree.tsx:236-238 | the coil rises from -4.2 to below 4.3 and narrows from 4.2 to above 0.2, strictly monotonically |
| Garland.CoilWinds | components/MagicTree.tsx:239 | fifty points make one wind, eight winds in all |
| Garland.CoilPointOnCircle | components/MagicTree.tsx:236-243 | point `i` lies on the circle of the coil's radius at the coil's height; point 0 is (4.2, -4.2, 0) |
| Garland.InitialData | components/MagicTree.tsx:233-246 | a fresh buffer of 400 packed points, point `i` at `3i .. 3i+2` being coil point `i` |
| Garland.Displace | components/MagicTree.tsx:260-274 | the float-out above expansion 0.05, reading the updated `y` and `x`, or the breathing scale otherwise (characterised by Garland.FormedGarlandBreathes, Garland.ExplodedGarlandDrifts) |
| Garland.FramePoint | components/MagicTree.tsx:255-283 | one point's new position: its rest position displaced, then rotated by the tree's angle (characterised by Garland.FramePointOf, Garland.UpdateGarland) |
| Garland.DisplacePoint | components/MagicTree.tsx:260-274 | the effect block computes the float-out or breathing displacement of one point |
| Garland.RotatePoint | components/MagicTree.tsx:276-279 | the rotation block is the rotation about the vertical axis by the tree's angle |
| Garland.FramePointOf | components/MagicTree.tsx:255-283 | one point's displayed position: the effect, then the rotation |
| Garland.UpdateGarland | components/MagicTree.tsx:248-285 | without a geometry nothing changes; otherwise every point of the buffer becomes the frame image of its rest point, whatever it held before |
| Garland.FormedGarlandBreathes | components/MagicTree.tsx:269-283 | formed: the height is kept and the distance from the axis is scaled by the breath, within 2% of 1 |
| Garland.ExplodedGarlandDrifts | components/MagicTree.tsx:261-283 | exploded: the height moves by at most `e`, `x` and `z` land within `2e` of the rest value pushed out by `1 + 2.5e`, and the rotation is rigid |
| Garland.ExplodedHeight | components/MagicTree.tsx:264 | the lift is at most the expansion |
| Garland.ExplodedSpread | components/MagicTree.tsx:263-268 | the scatter of `x` and `z` is at most twice the expansion |
| Background.MoteOf | components/MagicTree.tsx:190-201 | one background point from seven draws in read order: the position box, a brightness scaled to a blue-white colour, three randoms (characterised by Background.MoteRanges) |
| Background.MoteAt | components/MagicTree.tsx:188-202 | point `i` reads draws `7i .. 7i+6` (characterised by Background.GenerateBackground, Background.AllMotesInRange) |
| Background.GenerateBackground | components/MagicTree.tsx:183-204 | three fresh 2400-slot buffers, point `i`'s position, colour and randoms at `3i .. 3i+2` built from draws `7i .. 7i+6` |
| Background.MoteRanges | components/MagicTree.tsx:189-201 | a point lies in [-30, 30) x [-30, 30) x [-35, 5); brightness in [0.3, 1); colour `(0.8b, 0.9b, b)` with red < green < blue; randoms in [0, 1) |
| Background.AllMotesInRange | components/MagicTree.tsx:187-202 | every point of a stream of random values is in those ranges, and later draws do not change it |
| Overlay.CursorX | components/UI.tsx:23 | `((x + 1) / 2) * 100` percent of the width (characterised by Overlay.CursorXMapping) |
| Overlay.CursorY | components/UI.tsx:24 | `((1 - y) / 2) * 100` percent of the height (characterised by Overlay.CursorYMapping) |
| Overlay.CursorXMapping | components/UI.tsx:23 | `x` in [-1, 1] maps onto [0, 100], -1 → 0, 0 → 50, 1 → 100, increasing |
| Overlay.CursorYMapping | components/UI.tsx:24 | `y` in [-1, 1] maps onto [0, 100] inverted, 1 → 0, -1 → 100, decreasing |
| Overlay.CursorFollowsIndexTip | components/UI.tsx:23-24 | composed with the classifier's pointer, the cursor is at `((1 - tip.x) * 100, tip.y * 100)`, on screen for a tip in the unit square |
| Overlay.LeftStatus | components/UI.tsx:89 | "NO HAND" iff no left hand; "EXPLODE" iff open; "REFORM" iff closed |
| Overlay.RightStatus | components/UI.tsx:93 | "NO HAND" iff no right hand; "HOLDING" iff pinching; "MOVING" otherwise |
| Overlay.Render | components/UI.tsx:26-114 | the start screen before the camera runs, otherwise the cursor only with a right hand, the two status lines and the helper only with no hands (characterised by Overlay.RenderVisibility, Overlay.NoHandsScreen) |
| Overlay.RenderVisibility | components/UI.tsx:26-114 | start screen iff not running; cursor iff right hand detected, at the converted position; helper iff neither hand; never both |
| Overlay.NoHandsScreen | components/UI.tsx:86-114 | with no hands: the helper, two "NO HAND" lines and no cursor |

## Left out

- The GLSL shaders (components/MagicTree.tsx:7-171) are GPU rendering in floating point. Only the constants they share with the CPU path (0.95, 0.05) appear here.
- The three.js ray cast and the scene filter are library code. A frame's `RayHit` is an input, and the same one result feeds both the grab test and the hover test.
- Texture loading, `lookAt` / orientation, the shader uniform updates and the Star geometry are rendering.
- `VisionManager.initialize` and `stop` are MediaPipe, `getUserMedia` and asynchronous I/O. `App.tsx` is React wiring. Neither is part of this model.
- The asynchrony between the inference callback and the render loop, and React `setState` deferral, are not modelled. Each frame is one sequential step, and `setHoveredPhotoIndex` is a direct assignment.
- JSX styling, `toggleFullScreen` and `onStart` in `components/UI.tsx` are presentation.
- Float32 storage and IEEE rounding are not modelled; arithmetic is exact. Colours are sRGB bytes divided by 255, without three.js colour management.
- The values of `sin`, `cos`, `sqrt`, `pow` and `acos` are left uninterpreted; properties assume only the facts they state.
- The background container's slow drift rotation (components/MagicTree.tsx:206-213) sets a scene-graph transform and is not modelled.
- The garland's `noise` value (components/MagicTree.tsx:262) is computed but never used, so it is not modelled. Nor is the `needsUpdate` flag.
- The ornament's early return while its refs are unset (components/MagicTree.tsx:336) is not modelled.
- Interpolation.ExpansionStepBounded: the [0, 1] bound needs `0 <= delta * rate <= 1`, because the source does not clamp the lerp factor. `ExpansionOvershootsOnLongFrame` shows a frame where the bound fails.
- Interpolation.RotationStepChases: the monotone chase needs `0 <= delta * 4 <= 1` for the same reason.
- Field.GenerateData: requires 13 draws per entity, the most one can use. The injected stream stands for an unbounded `Math.random()`.
- Photos.PhotoDataFrom: requires seven draws per url for the same reason. So do `Background.GenerateBackground` (seven per point) and `Photos.PhotoData`.
- Vision.ProcessDetections: a thrown `TypeError` is modelled as the result `None`. The error message and the console warning are left out.
