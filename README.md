# Lipstick try-on overlay: the per-frame geometry pipeline

This project models the core of a browser "virtual lipstick" view. Each
animation frame, a face-landmark detector returns a mesh of 3-D landmarks for
the camera image. The pipeline then does the following:

- fits the camera frame over the display container like CSS `object-fit: cover`;
- projects the landmarks into display space, mirrored for a selfie view;
- smooths the 40 lip landmarks against the previous frame;
- extracts the outer and inner lip rings;
- builds a closed Catmull-Rom-style Bézier curve through each ring;
- fills the outer ring with the inner ring cut out (even-odd rule), then strokes the outer ring.

A small per-frame driver decides whether to skip, draw, or clear the "face
detected" flag and reset the smoothing state.

The repository carries two copies of this pipeline:

- the modular one: `src/components/ArTryOn/arUtils.js` driven by `useArLipstickTryOn.js`;
- the standalone component `src/components/ArTryOn.jsx`.

They differ in four places:

- the smoother's blend factor: a fixed 0.45, or an adaptive 0.1 that becomes 0.4 after a jump of more than 3 px;
- the outline stroke: `rgba(0,0,0,0.30)` at width 0.2, or `rgba(0,0,0,0.40)` at width 1.5;
- how the display size is measured: the hook subtracts the container's CSS padding and clamps at 0 before rounding (`useArLipstickTryOn.js` lines 37-46), while the standalone component rounds the raw box size (`ArTryOn.jsx` lines 747-752);
- whether the canvas is offset by the container padding.

The model keeps one definition of each step and selects the copy with
`Smoothing.Variant` (`Modular` or `Standalone`).

Modelling choices:

- Coordinates and sizes are `real`. `Math.round` is `(x + 0.5).Floor`, which is exact for reals.
- The standalone smoother's `Math.sqrt(dx*dx + dy*dy) > 3` is the equivalent `dx*dx + dy*dy > 9`.
- JavaScript "falsy" sizes (0, `undefined`, `NaN`) are the value 0. An unparsable CSS padding is `None`, read as 0.
- Canvas drawing calls are recorded as a trace of `PathTrace.Op` values in a `PathTrace.Context` object. Pixels are not modelled.
- The detector is an oracle. Its answer for the frame (a list of faces, or an exception) is a parameter of `FrameLoop.TryOn.Detect`.
- The animation-frame request is the flag `framePending`.

Modules:

- `Wrappers`: `Option`.
- `Constants`: lip index tables and smoothing constants.
- `Geometry`: cover-fit transform and projection.
- `Predictions`: converting a detector prediction to landmarks.
- `Smoothing`: the temporal smoother and the smoothing-state holder.
- `Rings`: ring extraction.
- `PathTrace`: closed-curve builder and compositor.
- `FrameLoop`: the per-frame driver.

Where the two sources of truth disagree, the model follows the code:

- A detector exception leaves both the "face detected" flag and the smoothing state unchanged. It does not count as "no face", and the surface stays cleared for that frame.
- The modular smoother does not adapt: its blend factor is always 0.45.

## Model

| member | source | states |
|---|---|---|
| Constants.LipTablesWellFormed | src/components/ArTryOn/constants.js:1-8 | the outer and inner lip tables each hold 20 pairwise-distinct indices and share none |
| Constants.LipIndicesDistinct | src/components/ArTryOn/constants.js:9 | the tracked list is outer followed by inner: 40 indices, no duplicates |
| Constants.OuterPositions | src/components/ArTryOn/constants.js:1-4 | the outer table has 20 entries and entry i sits at position i of the tracked list |
| Constants.InnerPositions | src/components/ArTryOn/constants.js:5-8 | the inner table has 20 entries and entry i sits at position 20 + i of the tracked list |
| Constants.LipIndicesRange | src/components/ArTryOn/constants.js:1-9 | every tracked index is a mesh index in 0..415 |
| Constants.SmoothingAlphaIsConvex | src/components/ArTryOn/constants.js:33 | both base blend factors (0.45 and 0.1) lie in [0, 1], so each blend is a convex combination |
| Constants.DistinctConcat | src/components/ArTryOn/constants.js:9 | a duplicate-free concatenation has duplicate-free, disjoint halves |
| Constants.LipOuterAroundZero | src/components/ArTryOn/constants.js:1-4 | index 0 is at position 15 of the outer table and every other outer index is at least 17 |
| Geometry.ComputeCoverTransform | src/components/ArTryOn/arUtils.js:3-19 | no transform exactly when the video, a container size or a video size is missing or zero; otherwise the scaled frame is centred: 2·offsetX + videoWidth·scale = containerWidth, and the same for y |
| Geometry.CoverFits | src/components/ArTryOn/arUtils.js:9-18 | for positive sizes the scale is positive, the scaled frame covers the container on both axes and is tight on at least one, and both offsets are ≤ 0 |
| Geometry.CoverShowsOnlyVideo | src/components/ArTryOn/arUtils.js:9-18 | every container point maps back into the camera frame, mirrored or not, so the container never shows area outside the video |
| Geometry.InsideFrame | src/components/ArTryOn/arUtils.js:9-18 | on one axis of a covering fit, a container coordinate unprojects to a coordinate inside the video |
| Geometry.MapPointToDisplay | src/components/ArTryOn/arUtils.js:21-26 | projects a landmark (scale, shift, then reflect across the container width when mirrored); for a non-zero scale, undoing the three steps with UnmapFromDisplay recovers the landmark's x and y, for either mirror setting; MapAfterUnmap gives the other direction and MirrorReflects relates the two mirror settings |
| Geometry.MapAfterUnmap | src/components/ArTryOn/arUtils.js:21-26 | every display point is the projection of its unprojection, so the projection is a bijection for a non-zero scale |
| Geometry.MirrorReflects | src/components/ArTryOn/arUtils.js:25 | the mirrored x is containerWidth minus the unmirrored x, y is untouched, and mirroring again gives the unmirrored x back |
| Geometry.Max | src/components/ArTryOn/arUtils.js:9-12 | the larger of two reals: an upper bound of both and equal to one of them |
| Predictions.ToPoints | src/components/ArTryOn/arUtils.js:77-84 | no landmarks exactly when the prediction is missing or has neither a mesh nor keypoints; the mesh wins when present; otherwise the keypoints are converted one for one, in order, with x and y kept and a missing z read as 0 |
| Smoothing.SquaredDistance | src/components/ArTryOn.jsx:1498-1500 | the squared movement between two points is never negative |
| Smoothing.Min | src/components/ArTryOn.jsx:1506 | the smaller of two reals: a lower bound of both and equal to one of them |
| Smoothing.Alpha | src/components/ArTryOn.jsx:1503-1507 | the blend factor is in (0, 1]: always 0.45 for the modular smoother; 0.4 after a move of more than 3 px and 0.1 otherwise for the standalone one |
| Smoothing.SmoothPoint | src/components/ArTryOn/arUtils.js:48-58 | first sight of an index gives the projected point exactly; otherwise each axis lands between the previous and the projected value, and a point at rest does not drift |
| Smoothing.SmoothPointStep | src/components/ArTryOn.jsx:1509-1512 | the step from the previous point is Alpha times the gap to the projected point, on each axis |
| Smoothing.SmoothingShrinksGap | src/components/ArTryOn.jsx:1502-1512 | one step multiplies the squared gap to the projected point by (1 − Alpha)²; after a jump of more than 3 px the standalone smoother covers at least 40% of the distance |
| Smoothing.SmoothedKeys | src/components/ArTryOn/arUtils.js:34-47 | the new map's keys are exactly the tracked indices that have a landmark; previous entries for other indices are dropped |
| Smoothing.SmoothedIndependent | src/components/ArTryOn/arUtils.js:38-59 | an index's smoothed point depends only on its own landmark and its own previous entry |
| Smoothing.SmoothedMapSnoc | src/components/ArTryOn/arUtils.js:38-59 | processing one more index adds exactly that index's entry, when its landmark exists |
| Smoothing.SmoothLandmarks | src/components/ArTryOn/arUtils.js:36-59 | the loop over the tracked indices builds exactly the smoothed map: one entry per tracked index with a landmark, each the smoothed projection of that landmark |
| Smoothing.BuildSmoothedDisplayLandmarks | src/components/ArTryOn/arUtils.js:28-63 | missing landmarks or transform: returns nothing and leaves the state alone; otherwise returns the smoothed map against the previous state (empty if none) and replaces the state with it wholesale |
| Smoothing.LandmarkRef.constructor | src/components/ArTryOn/useArLipstickTryOn.js:18 | the smoothing state starts empty |
| Rings.PointsForAppend | src/components/ArTryOn/arUtils.js:65-75 | extracting along a concatenation of index lists concatenates the rings |
| Rings.PointsForLength | src/components/ArTryOn/arUtils.js:65-75 | the ring is no longer than the index list, and exactly as long iff every index is present |
| Rings.PointsForComplete | src/components/ArTryOn/arUtils.js:65-75 | when every index is present, the ring is the map's entries in index-list order |
| Rings.PointsForMembers | src/components/ArTryOn/arUtils.js:65-75 | a point is in the ring iff some listed index present in the map holds it |
| Rings.GetPointsForIndices | src/components/ArTryOn/arUtils.js:65-75 | no map gives an empty ring; otherwise the loop collects exactly the present entries, in index-list order |
| Rings.PointsForNone | src/components/ArTryOn/arUtils.js:65-75 | a ring over indices none of which is present is empty |
| PathTrace.Context.constructor | src/components/ArTryOn/useArLipstickTryOn.js:239 | a fresh drawing context has recorded no calls |
| PathTrace.Context.Emit | src/components/ArTryOn/arUtils.js:89-105 | a drawing call is appended to the trace and nothing else is recorded |
| PathTrace.SubpathsAppend | src/components/ArTryOn/arUtils.js:108-129 | the number of sub-paths (move-to calls) of a concatenated trace is the sum of the parts' |
| PathTrace.Wrap | src/components/ArTryOn/arUtils.js:115-118 | the source's modular neighbour indices are the previous, next and next-but-one point of the cycle |
| PathTrace.ClosedPathShape | src/components/ArTryOn/arUtils.js:108-129 | for two or more points: one move to the first point, exactly one Bézier segment per point, one close, n + 2 calls in all, forming one sub-path |
| PathTrace.CatmullRom | src/components/ArTryOn/arUtils.js:120-125 | the segment from p1 is a cubic Bézier ending at p2, with control points p1 + (p2 − p0)/6 and p2 − (p3 − p1)/6; CatmullRomOnALine and ClosedPathTangentContinuity state what these control points achieve |
| PathTrace.CatmullRomOnALine | src/components/ArTryOn/arUtils.js:120-123 | on evenly spaced collinear points the segment is the straight chord, its control points one and two thirds of the way from p1 to p2 |
| PathTrace.NoMoves | src/components/ArTryOn/arUtils.js:114-126 | a trace without move-to calls opens no sub-path |
| PathTrace.ClosedPathThroughEveryPoint | src/components/ArTryOn/arUtils.js:114-128 | segment i ends at point (i+1) mod n, so the last ends at the first point and every point ends exactly the segment before it |
| PathTrace.ClosedPathTangentContinuity | src/components/ArTryOn/arUtils.js:120-125 | at every ring point, the incoming and outgoing control points sit symmetrically about the point, so the curve is tangent-continuous |
| PathTrace.DrawSmoothClosedPath | src/components/ArTryOn/arUtils.js:108-129 | the loop appends exactly the closed-path calls to the trace: nothing for fewer than two points, otherwise move-to, the n segments in order, and close |
| PathTrace.SegmentsEmitted | src/components/ArTryOn/arUtils.js:114-126 | a trace holding segment k at each offset k after a prefix is that prefix followed by the n segments |
| PathTrace.ClosedPathOnlyPathOps | src/components/ArTryOn/arUtils.js:108-129 | the closed path issues only move, Bézier and close calls |
| PathTrace.CutoutOnlyPathOps | src/components/ArTryOn/arUtils.js:94-96 | the inner cut-out issues only move, Bézier and close calls |
| PathTrace.CutoutSubpaths | src/components/ArTryOn/arUtils.js:94-96 | the inner ring adds one sub-path when it has more than two points and none otherwise |
| PathTrace.CutoutIsReversed | src/components/ArTryOn/arUtils.js:94-96 | the cut-out starts at the last inner point and then visits the other inner points in reverse order |
| PathTrace.LayersBracketed | src/components/ArTryOn/arUtils.js:89-105 | the lipstick calls open with save and close with restore, with no other save or restore between |
| PathTrace.LayersCounts | src/components/ArTryOn/arUtils.js:89-105 | exactly one even-odd fill, no non-zero fill, exactly one stroke, one save and one restore |
| PathTrace.FillSetupCounts | src/components/ArTryOn/arUtils.js:89-92 | the fill setup (save, opacity, colour, begin-path) holds one save and no fill, stroke or restore |
| PathTrace.StrokeSetupCounts | src/components/ArTryOn/arUtils.js:97-102 | the calls between the layers hold exactly one even-odd fill and no stroke, save or restore |
| PathTrace.StrokeFinishCounts | src/components/ArTryOn/arUtils.js:104-105 | the closing calls hold exactly one stroke and one restore, and no fill or save |
| PathTrace.NoneOf | src/components/ArTryOn/arUtils.js:108-129 | a path-only trace has no fill, stroke, save or restore |
| PathTrace.LayersOrder | src/components/ArTryOn/arUtils.js:89-105 | the layers are, in order: fill setup ending in a begin-path, the outer path and the cut-out, the even-odd fill, the stroke setup ending in a fresh begin-path, the outer path alone, the stroke and the restore; the positions of the fill and the stroke are given exactly |
| PathTrace.LayersSubpaths | src/components/ArTryOn/arUtils.js:92-104 | the fill paints the sub-paths of the outer path plus those of the cut-out; the stroke paints those of the outer path alone |
| PathTrace.LayersShape | src/components/ArTryOn/arUtils.js:89-105 | for any paths there are fill and stroke positions such that the fill follows a begin-path and the outer path plus cut-out, the stroke follows a fresh begin-path and the outer path alone, and each layer paints the sub-paths of exactly those paths |
| PathTrace.LipstickSkipsShortRing | src/components/ArTryOn/arUtils.js:87 | the lipstick issues no calls at all iff the outer ring has fewer than three points |
| PathTrace.LipstickSaveRestoreBalanced | src/components/ArTryOn/arUtils.js:89-105 | with three or more outer points: save first, restore last, once each |
| PathTrace.LipstickCounts | src/components/ArTryOn/arUtils.js:89-105 | with three or more outer points the lipstick calls hold exactly one save, one restore, one even-odd fill, no non-zero fill and one stroke |
| PathTrace.LipstickLayers | src/components/ArTryOn/arUtils.js:92-104 | with three or more outer points, the fill follows a begin-path and the path made of the outer ring's smooth path and the cut-out, two sub-paths when the inner ring has more than two points and one otherwise; the stroke follows a fresh begin-path and the outer ring's smooth path alone, one sub-path |
| PathTrace.DrawLipstick | src/components/ArTryOn/arUtils.js:86-106 | with a context, appends exactly the lipstick calls for the ring pair, colour, opacity and variant stroke style; without a context, changes nothing |
| PathTrace.LipstickTraceSteps | src/components/ArTryOn.jsx:1405-1425 | the calls issued step by step compose to the lipstick call sequence |
| FrameLoop.Round | src/components/ArTryOn/useArLipstickTryOn.js:45-46 | rounding gives the integer within half a unit, halves upward, and is non-negative for non-negative input |
| FrameLoop.AfterDetection | src/components/ArTryOn/useArLipstickTryOn.js:270-309 | failed exactly on a detector error, which keeps the smoothing state and draws nothing; an empty face list or a first face without landmarks gives no face, a cleared state and nothing drawn; a drawn frame has a first face with landmarks, its new state is the smoothed map of those landmarks against the previous state, its outer ring has more than two points and the lipstick is drawn from the rings; any no-face frame clears the state and draws nothing |
| FrameLoop.FaceBranch | src/components/ArTryOn.jsx:976-1000 | once the first face has landmarks, the frame is drawn iff the smoothed outer ring has more than two points |
| FrameLoop.FullRings | src/components/ArTryOn/arUtils.js:65-75 | with every tracked index smoothed, both rings have all 20 points, in table order |
| FrameLoop.FullMeshCoversLips | src/components/ArTryOn/arUtils.js:38-40 | a mesh with more than 415 landmarks has a smoothed entry for every tracked index |
| FrameLoop.FullFaceIsDrawn | src/components/ArTryOn/useArLipstickTryOn.js:275-295 | a full face mesh is always drawn, from complete 20-point rings, and its smoothed map becomes the state |
| FrameLoop.OuterRingOfShortList | src/components/ArTryOn/arUtils.js:65-75 | with no landmark index of 17 or more, the outer ring has at most one point |
| FrameLoop.ShortLandmarkListIsNoFace | src/components/ArTryOn/useArLipstickTryOn.js:284-299 | a landmark list of at most 17 points counts as no face: the flag is cleared, the state reset and nothing drawn |
| FrameLoop.Canvas.constructor | src/components/ArTryOn/useArLipstickTryOn.js:239 | the canvas carries the drawing context it was created with |
| FrameLoop.TryOn.constructor | src/components/ArTryOn/useArLipstickTryOn.js:18-25 | a new view is mounted (the flag set at src/components/ArTryOn/useArLipstickTryOn.js:74), has no frame pending, measures 640 × 300 at offset 0, has canvas size 0 × 0, no face detected and empty smoothing state |
| FrameLoop.TryOn.UpdateDisplaySize | src/components/ArTryOn/useArLipstickTryOn.js:32-52 | no wrapper changes nothing; the modular view rounds the padding-reduced size clamped at 0, so it is never negative, and records the left/top padding as the offset; the standalone view rounds the box size (src/components/ArTryOn.jsx:746-754) |
| FrameLoop.TryOn.Detect | src/components/ArTryOn/useArLipstickTryOn.js:203-243 | after unmount it changes nothing and schedules nothing; otherwise it always schedules the next frame; it skips, changing nothing else, exactly when the video, canvas or detector, a non-zero container or video size, or the drawing context is missing; a ready frame is rendered as Rendered states |
| FrameLoop.TryOn.DrawFrame | src/components/ArTryOn/useArLipstickTryOn.js:228-312 | a ready frame always has a cover transform; it is rendered with it and the next frame is scheduled |
| FrameLoop.TryOn.SizeCanvas | src/components/ArTryOn/useArLipstickTryOn.js:245-263 | the backing store is reassigned only when the rounded container × pixel-ratio size differs from the cached size, after which the cache equals it; the canvas is sized to the container and, in the modular view, offset by the padding |
| FrameLoop.TryOn.Paint | src/components/ArTryOn/useArLipstickTryOn.js:265-311 | the trace gains save, the pixel-ratio transform, a clear of the whole container, the detection branch's calls and restore; outcome, smoothing state and flag are those of the detection branch |
| FrameLoop.TryOn.Render | src/components/ArTryOn/useArLipstickTryOn.js:245-311 | sizing then painting gives the ready-frame effect Rendered: the outcome and state AfterDetection decides, the resized canvas and the bracketed calls |
| FrameLoop.TryOn.ApplyDetection | src/components/ArTryOn.jsx:970-1010 | the outcome, the smoothing state and the drawn calls are those AfterDetection decides; the flag becomes true exactly when drawn, false for no face, and is kept on a detector error |
| FrameLoop.TryOn.Unmount | src/components/ArTryOn/useArLipstickTryOn.js:318-335 | the view is marked unmounted and the pending frame cancelled; the measured size, padding offset, canvas size and face flag are kept |
| FrameLoop.StoppedLoopStaysStopped | src/components/ArTryOn/useArLipstickTryOn.js:204 | after unmount, a late iteration, whatever its video, canvas, detector, pixel ratio, colour and opacity, returns at once: the loop stays stopped with no frame pending, the smoothing state is kept and nothing is drawn |

## Left out

- Camera acquisition and release (`getUserMedia`, playing the video, stopping tracks) are I/O. The video is an optional size pair.
- Model loading, backend selection, the runtime fallback and warm-up are foreign library calls. "Detector present" is a boolean input, and the detector's answer is an input.
- Scheduling is not modelled: `requestAnimationFrame`, `async`/`await`, `ResizeObserver` and window listeners. One call of `FrameLoop.TryOn.Detect` is one frame. A frame is a single step with no suspension point.
- FrameLoop.TryOn.Detect: because the step is atomic, it does not capture the case where an unmount lands while a detection is awaited. In that case the source's `finally` still requests one more frame.
- Exceptions other than the detector's are not modelled: none of the modelled helpers can throw on the inputs the model admits.
- Pixel output, global alpha and colour strings are not modelled. They appear only as recorded arguments of drawing calls.
- IEEE-754 arithmetic is not modelled: the model computes exactly over the reals.
- `NaN` and `undefined` sizes are folded into 0, matching how the source's falsy tests treat them.
- Geometry.MapPointToDisplay: the null-point / null-transform guard is not modelled. Every caller passes an existing landmark and transform.
- PathTrace.DrawSmoothClosedPath: the null-points guard is not modelled. Every caller passes an array.
- Rings.GetPointsForIndices: a map entry is modelled as always truthy. In the source a stored point is a two-element array, which is never falsy.
- The `console` logging of detection errors and face counts is left out.
- The UI files are not part of this model: `ArTryOnUI.jsx`, `ArTryOnPage.jsx`, `App.jsx`, the render tree in `ArTryOn.jsx`, shade selection and mobile breakpoints.
- The commented-out copy at the top of `ArTryOn.jsx` is dead code and is not modelled.
- No eyelash-placement code exists in these sources, so there is nothing to model for it.
- FrameLoop.Round: modelled on exact reals. It does not reproduce floating-point rounding of `containerWidth * devicePixelRatio`.
