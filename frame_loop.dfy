/**
 * The per-frame driver of the lipstick overlay: the `detect` step of the
 * useArLipstickTryOn hook (src/components/ArTryOn/useArLipstickTryOn.js) and
 * of the standalone component (src/components/ArTryOn.jsx), together with the
 * container measurement it reads and the unmount that stops it.
 *
 * One call of `Detect` is one iteration of the animation-frame loop. The
 * detector is an oracle: its answer for this frame is a parameter. Scheduling
 * is a flag saying whether an animation frame is requested.
 */
module FrameLoop {
  import opened Wrappers
  import opened Constants
  import opened Geometry
  import opened Predictions
  import opened Smoothing
  import opened Rings
  import opened PathTrace

  /** JavaScript's `Math.round` on reals: the nearest integer, halves rounded up. */
  function Round(x: real): (r: int)
    ensures r as real - 0.5 <= x < r as real + 0.5
    ensures x >= 0.0 ==> r >= 0
  {
    (x + 0.5).Floor
  }

  /** The bounding box of the element that wraps the video. */
  datatype Rect = Rect(width: real, height: real)

  /** The detector's answer for one frame: a list of faces, or an exception. */
  datatype Detection = Faces(predictions: seq<Prediction>) | DetectorError

  /** How one iteration ended. */
  datatype Outcome =
    | Unmounted  // the component is gone: return at once, schedule nothing
    | Skipped    // inputs not ready: schedule the next frame and change nothing
    | Drawn      // a face with a usable outer ring was drawn
    | NoFace     // no usable face: flag cleared, smoothing reset
    | Failed     // the detector threw: logged, nothing else changes

  /** What the detection branch decides: outcome, the new smoothing state, the drawing calls. */
  datatype Verdict = Verdict(outcome: Outcome, smoothing: Option<map<int, Point>>, ops: seq<Op>)

  /**
   * The calls of one ready frame around the detection branch's `ops`: save,
   * scale by the device pixel ratio, clear the container area, draw, restore.
   */
  function FrameOps(dpr: real, containerWidth: real, containerHeight: real, ops: seq<Op>): seq<Op> {
    [Save, SetTransform(dpr, 0.0, 0.0, dpr, 0.0, 0.0), ClearRect(0.0, 0.0, containerWidth, containerHeight)] + ops + [Restore]
  }

  /** Regrouping a trace extended by the three parts of a frame. */
  lemma AppendFrame(t: seq<Op>, opening: seq<Op>, ops: seq<Op>, closing: seq<Op>)
    ensures t + opening + ops + closing == t + (opening + ops + closing)
  {
  }

  /**
   * The detection branch of one frame. A detector error keeps the smoothing
   * state and draws nothing. No face, no landmarks, or an outer ring of at
   * most two points clears the smoothing state and draws nothing. Otherwise
   * the smoothed map becomes the new state and the lipstick is drawn from
   * its outer and inner rings.
   */
  function AfterDetection(variant: Variant, detection: Detection, previous: Option<map<int, Point>>,
                          t: Transform, containerWidth: real, color: string, opacity: real): (v: Verdict)
    ensures v.outcome == Failed <==> detection.DetectorError?
    ensures v.outcome in {Drawn, NoFace, Failed}
    ensures v.outcome == Failed ==> v.smoothing == previous && v.ops == []
    ensures v.outcome == NoFace ==> v.smoothing.None? && v.ops == []
    ensures detection.Faces? && (|detection.predictions| == 0 || ToPoints(Some(detection.predictions[0])).None?) ==>
      v == Verdict(NoFace, None, [])
    ensures v.outcome == Drawn ==>
      && detection.Faces? && |detection.predictions| > 0 && ToPoints(Some(detection.predictions[0])).Some?
      && v.smoothing == Some(SmoothedMap(variant, previous.GetOr(map[]), LipIndices,
                                         ToPoints(Some(detection.predictions[0])).value, t, containerWidth))
      && |PointsFor(LipOuter, v.smoothing.value)| > 2
      && v.ops == LipstickOps(PointsFor(LipOuter, v.smoothing.value), PointsFor(LipInner, v.smoothing.value),
                              color, opacity, variant)
      && v.ops != []
  {
    match detection
    case DetectorError => Verdict(Failed, previous, [])
    case Faces(predictions) =>
      if |predictions| == 0 then Verdict(NoFace, None, [])
      else
        match ToPoints(Some(predictions[0]))
        case None => Verdict(NoFace, None, [])
        case Some(landmarks) =>
          var m := SmoothedMap(variant, previous.GetOr(map[]), LipIndices, landmarks, t, containerWidth);
          var outer := PointsFor(LipOuter, m);
          if |outer| > 2 then
            LipstickSkipsShortRing(outer, PointsFor(LipInner, m), color, opacity, variant);
            Verdict(Drawn, Some(m), LipstickOps(outer, PointsFor(LipInner, m), color, opacity, variant))
          else Verdict(NoFace, None, [])
  }

  /** The detection branch once the first face yields landmarks. */
  lemma FaceBranch(variant: Variant, predictions: seq<Prediction>, landmarks: seq<Landmark>,
                   previous: Option<map<int, Point>>, t: Transform, containerWidth: real,
                   color: string, opacity: real)
    requires |predictions| > 0 && ToPoints(Some(predictions[0])) == Some(landmarks)
    ensures var v := AfterDetection(variant, Faces(predictions), previous, t, containerWidth, color, opacity);
      var m := SmoothedMap(variant, previous.GetOr(map[]), LipIndices, landmarks, t, containerWidth);
      v == if |PointsFor(LipOuter, m)| > 2
           then Verdict(Drawn, Some(m), LipstickOps(PointsFor(LipOuter, m), PointsFor(LipInner, m), color, opacity, variant))
           else Verdict(NoFace, None, [])
  {
  }

  /** A map holding every tracked index yields both rings whole, in table order. */
  lemma FullRings(m: map<int, Point>)
    requires forall i :: i in LipIndices ==> i in m
    ensures |PointsFor(LipOuter, m)| == 20 && |PointsFor(LipInner, m)| == 20
    ensures forall k :: 0 <= k < 20 ==> LipOuter[k] in m && PointsFor(LipOuter, m)[k] == m[LipOuter[k]]
    ensures forall k :: 0 <= k < 20 ==> LipInner[k] in m && PointsFor(LipInner, m)[k] == m[LipInner[k]]
  {
    assert forall k :: 0 <= k < |LipOuter| ==> LipOuter[k] == LipIndices[k];
    assert forall k :: 0 <= k < |LipInner| ==> LipInner[k] == LipIndices[20 + k];
    PointsForComplete(LipOuter, m);
    PointsForComplete(LipInner, m);
  }

  /** With a full mesh, every tracked index is in the smoothed map. */
  lemma FullMeshCoversLips(variant: Variant, previous: map<int, Point>, landmarks: seq<Landmark>,
                           t: Transform, containerWidth: real)
    requires |landmarks| > 415
    ensures forall i :: i in LipIndices ==> i in SmoothedMap(variant, previous, LipIndices, landmarks, t, containerWidth)
  {
    LipIndicesRange();
    SmoothedKeys(variant, previous, landmarks, t, containerWidth);
  }

  /**
   * A full face mesh (more landmarks than the largest lip index) is always
   * drawn, with all 20 outer and all 20 inner points, each ring in table
   * order and each point the smoothed position of its own landmark.
   */
  lemma FullFaceIsDrawn(variant: Variant, predictions: seq<Prediction>, landmarks: seq<Landmark>,
                        previous: Option<map<int, Point>>, t: Transform, containerWidth: real,
                        color: string, opacity: real)
    requires |predictions| > 0 && ToPoints(Some(predictions[0])) == Some(landmarks)
    requires |landmarks| > 415
    ensures var v := AfterDetection(variant, Faces(predictions), previous, t, containerWidth, color, opacity);
      var m := SmoothedMap(variant, previous.GetOr(map[]), LipIndices, landmarks, t, containerWidth);
      && v.outcome == Drawn
      && v.smoothing == Some(m)
      && |PointsFor(LipOuter, m)| == 20 && |PointsFor(LipInner, m)| == 20
  {
    var m := SmoothedMap(variant, previous.GetOr(map[]), LipIndices, landmarks, t, containerWidth);
    FullMeshCoversLips(variant, previous.GetOr(map[]), landmarks, t, containerWidth);
    FullRings(m);
    FaceBranch(variant, predictions, landmarks, previous, t, containerWidth, color, opacity);
    var outer, inner := PointsFor(LipOuter, m), PointsFor(LipInner, m);
    assert AfterDetection(variant, Faces(predictions), previous, t, containerWidth, color, opacity)
        == Verdict(Drawn, Some(m), LipstickOps(outer, inner, color, opacity, variant));
  }

  /** With no key at or above 17, the outer ring keeps at most its index-0 point. */
  lemma OuterRingOfShortList(m: map<int, Point>)
    requires forall i :: i in m ==> i < 17
    ensures |PointsFor(LipOuter, m)| <= 1
  {
    var head, tail := LipOuter[..15], LipOuter[16..];
    LipOuterAroundZero();
    assert LipOuter == head + [0] + tail;
    PointsForAppend(head + [0], tail, m);
    PointsForAppend(head, [0], m);
    PointsForNone(head, m);
    PointsForNone(tail, m);
    PointsForLength([0], m);
  }

  /**
   * A landmark list too short to reach any outer lip index except 0 (at most
   * 17 points) leaves an outer ring of one point: the frame counts as no
   * face, the smoothing state is cleared and nothing is drawn.
   */
  lemma ShortLandmarkListIsNoFace(variant: Variant, predictions: seq<Prediction>, landmarks: seq<Landmark>,
                                  previous: Option<map<int, Point>>, t: Transform, containerWidth: real,
                                  color: string, opacity: real)
    requires |predictions| > 0 && ToPoints(Some(predictions[0])) == Some(landmarks)
    requires |landmarks| <= 17
    ensures var v := AfterDetection(variant, Faces(predictions), previous, t, containerWidth, color, opacity);
      v.outcome == NoFace && v.smoothing.None? && v.ops == []
  {
    var m := SmoothedMap(variant, previous.GetOr(map[]), LipIndices, landmarks, t, containerWidth);
    SmoothedKeys(variant, previous.GetOr(map[]), landmarks, t, containerWidth);
    OuterRingOfShortList(m);
    FaceBranch(variant, predictions, landmarks, previous, t, containerWidth, color, opacity);
  }

  /** The drawing surface element; `context` is what `getContext("2d")` returns. */
  class Canvas {
    var width: int
    var height: int
    var styleWidth: real
    var styleHeight: real
    var styleLeft: real
    var styleTop: real
    const context: Context?

    constructor (context: Context?)
      ensures this.context == context
    {
      this.context := context;
    }
  }

  /**
   * The early exits of one iteration all fail: video, canvas and detector
   * are present, both container sizes and both video sizes are non-zero,
   * and the canvas yields a drawing context.
   */
  predicate FrameReady(video: Option<VideoFrame>, canvas: Canvas?, detectorReady: bool,
                       containerWidth: int, containerHeight: int)
  {
    && video.Some? && canvas != null && detectorReady
    && containerWidth != 0 && containerHeight != 0
    && video.value.videoWidth != 0.0 && video.value.videoHeight != 0.0
    && canvas.context != null
  }

  /** One mounted instance of the try-on view and the state its frame loop carries. */
  class TryOn {
    const variant: Variant
    /** Cleared by the unmount clean-up. */
    var isMounted: bool
    /** An animation frame is requested (the loop's `animationId`). */
    var framePending: bool
    /** The measured container size and padding offset. */
    var displayWidth: int
    var displayHeight: int
    var displayLeft: real
    var displayTop: real
    /** The canvas backing size last assigned. */
    var canvasWidth: int
    var canvasHeight: int
    /** The "face detected" flag shown by the UI. */
    var faceDetected: bool
    /** The previous frame's smoothed lip landmarks. */
    const previousLandmarks: LandmarkRef

    constructor (variant: Variant)
      ensures this.variant == variant && isMounted && !framePending
      ensures displayWidth == 640 && displayHeight == 300 && displayLeft == 0.0 && displayTop == 0.0
      ensures canvasWidth == 0 && canvasHeight == 0 && !faceDetected
      ensures fresh(previousLandmarks) && previousLandmarks.current.None?
    {
      this.variant := variant;
      isMounted := true;
      framePending := false;
      displayWidth, displayHeight := 640, 300;
      displayLeft, displayTop := 0.0, 0.0;
      canvasWidth, canvasHeight := 0, 0;
      faceDetected := false;
      previousLandmarks := new LandmarkRef();
    }

    /**
     * Measures the container. The modular hook subtracts the padding
     * (unparsable padding counts as 0), clamps at zero and rounds, and
     * records the left/top padding as the offset; the standalone component
     * rounds the box size as it is. A missing wrapper changes nothing.
     */
    method UpdateDisplaySize(wrapper: Option<Rect>, paddingLeft: Option<real>, paddingRight: Option<real>,
                             paddingTop: Option<real>, paddingBottom: Option<real>)
      modifies this
      ensures wrapper.None? ==> unchanged(this)
      ensures wrapper.Some? && variant == Modular ==>
        var left := paddingLeft.GetOr(0.0);
        var top := paddingTop.GetOr(0.0);
        && displayWidth == Round(Geometry.Max(0.0, wrapper.value.width - left - paddingRight.GetOr(0.0)))
        && displayHeight == Round(Geometry.Max(0.0, wrapper.value.height - top - paddingBottom.GetOr(0.0)))
        && displayLeft == left && displayTop == top
      ensures wrapper.Some? && variant == Standalone ==>
        && displayWidth == Round(wrapper.value.width) && displayHeight == Round(wrapper.value.height)
        && displayLeft == old(displayLeft) && displayTop == old(displayTop)
      ensures wrapper.Some? && variant == Modular ==> displayWidth >= 0 && displayHeight >= 0
      ensures isMounted == old(isMounted) && framePending == old(framePending) && faceDetected == old(faceDetected)
      ensures canvasWidth == old(canvasWidth) && canvasHeight == old(canvasHeight)
    {
      if wrapper.None? {
        return;
      }
      var rect := wrapper.value;
      match variant
      case Modular =>
        var left := paddingLeft.GetOr(0.0);
        var right := paddingRight.GetOr(0.0);
        var top := paddingTop.GetOr(0.0);
        var bottom := paddingBottom.GetOr(0.0);
        var width := Geometry.Max(0.0, rect.width - left - right);
        var height := Geometry.Max(0.0, rect.height - top - bottom);
        displayWidth, displayHeight := Round(width), Round(height);
        displayLeft, displayTop := left, top;
      case Standalone =>
        displayWidth, displayHeight := Round(rect.width), Round(rect.height);
    }

    /**
     * One iteration of the frame loop. After unmount it returns at once and
     * schedules nothing. Otherwise it always schedules the next frame; when
     * an early exit applies it changes nothing else. When all inputs are
     * ready it resizes the canvas backing store if the required size
     * changed, clears the surface inside a save/restore pair, and applies
     * the detection branch.
     */
    method Detect(video: Option<VideoFrame>, canvas: Canvas?, detectorReady: bool, devicePixelRatio: real,
                  detection: Detection, color: string, opacity: real) returns (outcome: Outcome)
      modifies this, previousLandmarks, canvas, if canvas != null then canvas.context else null
      ensures displayWidth == old(displayWidth) && displayHeight == old(displayHeight)
      ensures displayLeft == old(displayLeft) && displayTop == old(displayTop)
      ensures isMounted == old(isMounted)
      ensures !old(isMounted) ==>
        && outcome == Unmounted
        && unchanged(this, previousLandmarks)
        && (canvas != null ==> unchanged(canvas) && (canvas.context != null ==> unchanged(canvas.context)))
      ensures old(isMounted) ==> framePending
      ensures outcome == Skipped <==>
        old(isMounted) && !FrameReady(video, canvas, detectorReady, displayWidth, displayHeight)
      ensures outcome == Skipped ==>
        && faceDetected == old(faceDetected)
        && previousLandmarks.current == old(previousLandmarks.current)
        && canvasWidth == old(canvasWidth) && canvasHeight == old(canvasHeight)
        && (canvas != null ==> unchanged(canvas) && (canvas.context != null ==> unchanged(canvas.context)))
      ensures old(isMounted) && FrameReady(video, canvas, detectorReady, displayWidth, displayHeight) ==>
        var containerWidth := displayWidth as real;
        var containerHeight := displayHeight as real;
        var dpr := if devicePixelRatio == 0.0 then 1.0 else devicePixelRatio;
        Rendered(canvas, dpr, containerWidth, containerHeight,
                 ComputeCoverTransform(video, containerWidth, containerHeight).value, detection, color, opacity, outcome)
    {
      if !isMounted {
        return Unmounted;
      }
      if video.None? || canvas == null || !detectorReady {
        framePending := true;
        return Skipped;
      }
      if displayWidth == 0 || displayHeight == 0 || video.value.videoWidth == 0.0 || video.value.videoHeight == 0.0 {
        framePending := true;
        return Skipped;
      }
      // The source also exits when no cover transform comes back; with every
      // size checked above, one always does (see `DrawFrame`).
      if canvas.context == null {
        framePending := true;
        return Skipped;
      }
      var dpr := if devicePixelRatio == 0.0 then 1.0 else devicePixelRatio;
      outcome := DrawFrame(video, canvas, dpr, detection, color, opacity);
    }

    /** A frame that passed every early exit: renders it and schedules the next one. */
    method DrawFrame(video: Option<VideoFrame>, canvas: Canvas, dpr: real, detection: Detection,
                     color: string, opacity: real) returns (outcome: Outcome)
      requires FrameReady(video, canvas, true, displayWidth, displayHeight)
      modifies this`canvasWidth, this`canvasHeight, this`faceDetected, this`framePending, previousLandmarks, canvas, canvas.context
      ensures framePending
      ensures var containerWidth := displayWidth as real;
        var containerHeight := displayHeight as real;
        Rendered(canvas, dpr, containerWidth, containerHeight,
                 ComputeCoverTransform(video, containerWidth, containerHeight).value, detection, color, opacity, outcome)
    {
      var containerWidth := displayWidth as real;
      var containerHeight := displayHeight as real;
      var transform := ComputeCoverTransform(video, containerWidth, containerHeight);
      assert transform.Some?;
      outcome := Render(canvas, canvas.context, dpr, containerWidth, containerHeight, transform.value, detection, color, opacity);
      framePending := true;
    }

    /**
     * The effect of drawing one ready frame: the outcome and smoothing state
     * are those `AfterDetection` decides, the flag follows the outcome
     * (a detector error leaves it), the backing store is reassigned only
     * when its required size changed, the canvas is sized (and, in the
     * modular copy, placed), and the context records the transform, the
     * clear and the drawing inside one save/restore pair.
     */
    twostate predicate Rendered(canvas: Canvas, dpr: real, containerWidth: real, containerHeight: real,
                                t: Transform, detection: Detection, color: string, opacity: real, outcome: Outcome)
      reads this`canvasWidth, this`canvasHeight, this`faceDetected, this`displayLeft, this`displayTop
      reads previousLandmarks, canvas, canvas.context
    {
      var v := AfterDetection(variant, detection, old(previousLandmarks.current), t, containerWidth, color, opacity);
      var resized := old(canvasWidth) != Round(containerWidth * dpr) || old(canvasHeight) != Round(containerHeight * dpr);
      && outcome == v.outcome
      && previousLandmarks.current == v.smoothing
      && faceDetected == (if outcome == Failed then old(faceDetected) else outcome == Drawn)
      && canvasWidth == Round(containerWidth * dpr) && canvasHeight == Round(containerHeight * dpr)
      && canvas.width == (if resized then canvasWidth else old(canvas.width))
      && canvas.height == (if resized then canvasHeight else old(canvas.height))
      && canvas.styleWidth == containerWidth && canvas.styleHeight == containerHeight
      && (variant == Modular ==> canvas.styleLeft == displayLeft && canvas.styleTop == displayTop)
      && (variant == Standalone ==> canvas.styleLeft == old(canvas.styleLeft) && canvas.styleTop == old(canvas.styleTop))
      && canvas.context != null
      && canvas.context.trace == old(canvas.context.trace) + FrameOps(dpr, containerWidth, containerHeight, v.ops)
    }

    /**
     * The drawing part of a ready frame: resizes the backing store when the
     * required size changed, sizes and places the canvas, and wraps the
     * clear and the detection branch in a save/restore pair with the
     * device-pixel-ratio transform.
     */
    method Render(canvas: Canvas, ctx: Context, dpr: real, containerWidth: real, containerHeight: real,
                  t: Transform, detection: Detection, color: string, opacity: real) returns (outcome: Outcome)
      requires canvas.context == ctx
      modifies this`canvasWidth, this`canvasHeight, this`faceDetected, previousLandmarks, canvas, ctx
      ensures Rendered(canvas, dpr, containerWidth, containerHeight, t, detection, color, opacity, outcome)
    {
      SizeCanvas(canvas, dpr, containerWidth, containerHeight);
      outcome := Paint(ctx, dpr, containerWidth, containerHeight, t, detection, color, opacity);
    }

    /**
     * Resizes the backing store when the required size changed, and sizes
     * and (in the modular copy) places the canvas element.
     */
    method SizeCanvas(canvas: Canvas, dpr: real, containerWidth: real, containerHeight: real)
      modifies this`canvasWidth, this`canvasHeight, canvas
      ensures var resized := old(canvasWidth) != Round(containerWidth * dpr) || old(canvasHeight) != Round(containerHeight * dpr);
        && canvasWidth == Round(containerWidth * dpr) && canvasHeight == Round(containerHeight * dpr)
        && canvas.width == (if resized then canvasWidth else old(canvas.width))
        && canvas.height == (if resized then canvasHeight else old(canvas.height))
        && canvas.styleWidth == containerWidth && canvas.styleHeight == containerHeight
        && (variant == Modular ==> canvas.styleLeft == displayLeft && canvas.styleTop == displayTop)
        && (variant == Standalone ==> canvas.styleLeft == old(canvas.styleLeft) && canvas.styleTop == old(canvas.styleTop))
    {
      var requiredWidth := Round(containerWidth * dpr);
      var requiredHeight := Round(containerHeight * dpr);
      if canvasWidth != requiredWidth || canvasHeight != requiredHeight {
        canvas.width := requiredWidth;
        canvas.height := requiredHeight;
        canvasWidth, canvasHeight := requiredWidth, requiredHeight;
      }
      canvas.styleWidth := containerWidth;
      canvas.styleHeight := containerHeight;
      if variant == Modular {
        canvas.styleLeft := displayLeft;
        canvas.styleTop := displayTop;
      }
    }

    /**
     * Clears the surface under the device-pixel-ratio transform and runs the
     * detection branch, all inside one save/restore pair.
     */
    method Paint(ctx: Context, dpr: real, containerWidth: real, containerHeight: real,
                 t: Transform, detection: Detection, color: string, opacity: real) returns (outcome: Outcome)
      modifies this`faceDetected, previousLandmarks, ctx
      ensures var v := AfterDetection(variant, detection, old(previousLandmarks.current), t, containerWidth, color, opacity);
        && outcome == v.outcome
        && previousLandmarks.current == v.smoothing
        && faceDetected == (if outcome == Failed then old(faceDetected) else outcome == Drawn)
        && ctx.trace == old(ctx.trace) + FrameOps(dpr, containerWidth, containerHeight, v.ops)
    {
      ghost var before := ctx.trace;
      ctx.Emit(Save);
      ctx.Emit(SetTransform(dpr, 0.0, 0.0, dpr, 0.0, 0.0));
      ctx.Emit(ClearRect(0.0, 0.0, containerWidth, containerHeight));
      ghost var opening := [Save, SetTransform(dpr, 0.0, 0.0, dpr, 0.0, 0.0), ClearRect(0.0, 0.0, containerWidth, containerHeight)];
      assert ctx.trace == before + opening;
      ghost var v := AfterDetection(variant, detection, previousLandmarks.current, t, containerWidth, color, opacity);
      outcome := ApplyDetection(ctx, detection, t, containerWidth, color, opacity);
      assert ctx.trace == before + opening + v.ops;
      ctx.Emit(Restore);
      AppendFrame(before, opening, v.ops, [Restore]);
    }

    /**
     * The detection branch of one frame, run on a cleared surface: performs
     * what `AfterDetection` decides on the smoothing state, the flag and
     * the drawing context.
     */
    method ApplyDetection(ctx: Context, detection: Detection, t: Transform, containerWidth: real,
                          color: string, opacity: real) returns (outcome: Outcome)
      modifies this`faceDetected, previousLandmarks, ctx
      ensures var v := AfterDetection(variant, detection, old(previousLandmarks.current), t, containerWidth, color, opacity);
        && outcome == v.outcome
        && previousLandmarks.current == v.smoothing
        && faceDetected == (if outcome == Failed then old(faceDetected) else outcome == Drawn)
        && ctx.trace == old(ctx.trace) + v.ops
    {
      ghost var v := AfterDetection(variant, detection, previousLandmarks.current, t, containerWidth, color, opacity);
      match detection
      case DetectorError =>
        // caught and logged
        outcome := Failed;
      case Faces(predictions) =>
        if |predictions| > 0 {
          var landmarks := ToPoints(Some(predictions[0]));
          if landmarks.Some? {
            FaceBranch(variant, predictions, landmarks.value, previousLandmarks.current, t, containerWidth, color, opacity);
            var displayMap := BuildSmoothedDisplayLandmarks(variant, previousLandmarks, landmarks, Some(t), containerWidth);
            var outer := GetPointsForIndices(LipOuter, displayMap);
            var inner := GetPointsForIndices(LipInner, displayMap);
            if |outer| > 2 {
              DrawLipstick(ctx, outer, inner, color, opacity, variant);
              faceDetected := true;
              outcome := Drawn;
            } else {
              faceDetected := false;
              previousLandmarks.current := None;
              outcome := NoFace;
            }
          } else {
            faceDetected := false;
            previousLandmarks.current := None;
            outcome := NoFace;
          }
        } else {
          faceDetected := false;
          previousLandmarks.current := None;
          outcome := NoFace;
        }
    }

    /**
     * The unmount clean-up: marks the instance unmounted and cancels the
     * pending animation frame, so no further iteration runs.
     */
    method Unmount()
      modifies this
      ensures !isMounted && !framePending
      ensures faceDetected == old(faceDetected) && canvasWidth == old(canvasWidth) && canvasHeight == old(canvasHeight)
      ensures displayWidth == old(displayWidth) && displayHeight == old(displayHeight)
      ensures displayLeft == old(displayLeft) && displayTop == old(displayTop)
    {
      isMounted := false;
      framePending := false;
    }
  }

  /**
   * After the clean-up, a late iteration, whatever the detector, video,
   * canvas and settings, returns at once: it schedules nothing, keeps the
   * smoothing state and draws nothing.
   */
  method StoppedLoopStaysStopped(tryOn: TryOn, video: Option<VideoFrame>, canvas: Canvas?, detectorReady: bool,
                                 devicePixelRatio: real, detection: Detection, color: string, opacity: real)
      returns (outcome: Outcome)
    modifies tryOn, tryOn.previousLandmarks, canvas, if canvas != null then canvas.context else null
    ensures outcome == Unmounted
    ensures !tryOn.isMounted && !tryOn.framePending
    ensures tryOn.previousLandmarks.current == old(tryOn.previousLandmarks.current)
    ensures canvas != null && canvas.context != null ==> canvas.context.trace == old(canvas.context.trace)
  {
    tryOn.Unmount();
    outcome := tryOn.Detect(video, canvas, detectorReady, devicePixelRatio, detection, color, opacity);
  }
}
