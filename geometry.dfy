/**
 * Cover-fit transform and landmark projection
 * (computeCoverTransform and mapPointToDisplay in
 * src/components/ArTryOn/arUtils.js; the same code is duplicated in
 * src/components/ArTryOn.jsx).
 *
 * Pixel sizes are reals. A dimension that JavaScript treats as falsy
 * (0, undefined, NaN) is modelled as 0.0.
 */
module Geometry {
  import opened Wrappers

  /** A landmark in camera-frame (source) space, as the detector reports it. */
  datatype Landmark = Landmark(x: real, y: real, z: real)

  /** A point in display space: only the projector produces these. */
  datatype Point = Point(x: real, y: real)

  /** The natural pixel size of the current camera frame. */
  datatype VideoFrame = VideoFrame(videoWidth: real, videoHeight: real)

  /** The cover-fit mapping from camera-frame space to display space. */
  datatype Transform = Transform(offsetX: real, offsetY: real, scale: real)

  function Max(a: real, b: real): (m: real)
    ensures m >= a && m >= b && (m == a || m == b)
  {
    if a >= b then a else b
  }

  /**
   * The scale and offsets that make the video frame cover the container,
   * cropping the overflow equally on both sides. No transform is produced
   * while the video or any of the four dimensions is missing.
   */
  function ComputeCoverTransform(video: Option<VideoFrame>, containerWidth: real, containerHeight: real): (r: Option<Transform>)
    ensures r.None? <==>
      video.None? || containerWidth == 0.0 || containerHeight == 0.0 ||
      video.value.videoWidth == 0.0 || video.value.videoHeight == 0.0
    ensures r.Some? ==>
      && 2.0 * r.value.offsetX + video.value.videoWidth * r.value.scale == containerWidth
      && 2.0 * r.value.offsetY + video.value.videoHeight * r.value.scale == containerHeight
  {
    if video.None? || containerWidth == 0.0 || containerHeight == 0.0 then None
    else
      var videoWidth := video.value.videoWidth;
      var videoHeight := video.value.videoHeight;
      if videoWidth == 0.0 || videoHeight == 0.0 then None
      else
        var scale := Max(containerWidth / videoWidth, containerHeight / videoHeight);
        var drawnWidth := videoWidth * scale;
        var drawnHeight := videoHeight * scale;
        Some(Transform((containerWidth - drawnWidth) / 2.0, (containerHeight - drawnHeight) / 2.0, scale))
  }

  /** For positive sizes, the product `v * s` stays on the same side of `c` as `s` of `c / v`. */
  lemma ScaledCompare(v: real, c: real, s: real)
    requires v > 0.0
    ensures s >= c / v ==> v * s >= c
    ensures s == c / v ==> v * s == c
  {
    if s >= c / v {
      calc {
        v * s;
        == v * (s - c / v) + v * (c / v);
        >= { assert v * (s - c / v) >= 0.0; } v * (c / v);
        == c;
      }
    }
  }

  /**
   * Cover fit: for positive sizes the scaled frame is at least as large as
   * the container on both axes and exactly as large on at least one axis;
   * both offsets are non-positive, so the frame is cropped, never letterboxed.
   */
  lemma CoverFits(video: VideoFrame, containerWidth: real, containerHeight: real)
    requires video.videoWidth > 0.0 && video.videoHeight > 0.0
    requires containerWidth > 0.0 && containerHeight > 0.0
    ensures ComputeCoverTransform(Some(video), containerWidth, containerHeight).Some?
    ensures var t := ComputeCoverTransform(Some(video), containerWidth, containerHeight).value;
      && t.scale > 0.0
      && video.videoWidth * t.scale >= containerWidth
      && video.videoHeight * t.scale >= containerHeight
      && (video.videoWidth * t.scale == containerWidth || video.videoHeight * t.scale == containerHeight)
      && t.offsetX <= 0.0 && t.offsetY <= 0.0
  {
    var t := ComputeCoverTransform(Some(video), containerWidth, containerHeight).value;
    var sx := containerWidth / video.videoWidth;
    var sy := containerHeight / video.videoHeight;
    assert t.scale == Max(sx, sy);
    assert sx > 0.0;
    ScaledCompare(video.videoWidth, containerWidth, t.scale);
    ScaledCompare(video.videoHeight, containerHeight, t.scale);
  }

  /**
   * Projects a camera-frame landmark into display space: scale, then shift,
   * then (for the selfie view) reflect across the container's width.
   * Undoing the three steps recovers the landmark's image coordinates.
   */
  function MapPointToDisplay(p: Landmark, t: Transform, containerWidth: real, mirror: bool): (q: Point)
    ensures t.scale != 0.0 ==> UnmapFromDisplay(q, t, containerWidth, mirror) == (p.x, p.y)
  {
    var x := p.x * t.scale + t.offsetX;
    var y := p.y * t.scale + t.offsetY;
    var q := if mirror then Point(containerWidth - x, y) else Point(x, y);
    if t.scale != 0.0 then
      assert (if mirror then containerWidth - q.x else q.x) - t.offsetX == p.x * t.scale;
      assert q.y - t.offsetY == p.y * t.scale;
      Rescale(p.x, t.scale);
      Rescale(p.y, t.scale);
      assert ((if mirror then containerWidth - q.x else q.x) - t.offsetX) / t.scale == p.x;
      assert (q.y - t.offsetY) / t.scale == p.y;
      assert UnmapFromDisplay(q, t, containerWidth, mirror) == (p.x, p.y);
      q
    else
      q
  }

  /**
   * The inverse of `MapPointToDisplay` on the image plane: undo the
   * reflection, then the shift, then the scale.
   */
  function UnmapFromDisplay(q: Point, t: Transform, containerWidth: real, mirror: bool): (r: (real, real))
    requires t.scale != 0.0
  {
    var x := if mirror then containerWidth - q.x else q.x;
    ((x - t.offsetX) / t.scale, (q.y - t.offsetY) / t.scale)
  }

  /** Unprojecting and then projecting recovers the display point. */
  lemma MapAfterUnmap(q: Point, z: real, t: Transform, containerWidth: real, mirror: bool)
    requires t.scale != 0.0
    ensures var u := UnmapFromDisplay(q, t, containerWidth, mirror);
      MapPointToDisplay(Landmark(u.0, u.1, z), t, containerWidth, mirror) == q
  {
    var x := if mirror then containerWidth - q.x else q.x;
    Rescale((x - t.offsetX) / t.scale, t.scale);
    Rescale((q.y - t.offsetY) / t.scale, t.scale);
    Unscale(x - t.offsetX, t.scale);
    Unscale(q.y - t.offsetY, t.scale);
  }

  /** Multiplying by a non-zero scale and dividing by it again is the identity. */
  lemma Rescale(a: real, s: real)
    requires s != 0.0
    ensures (a * s) / s == a
  {
  }

  /** Dividing by a non-zero scale and multiplying by it again is the identity. */
  lemma Unscale(a: real, s: real)
    requires s != 0.0
    ensures (a / s) * s == a
  {
  }

  /**
   * Mirroring reflects the unmirrored projection about the container's
   * vertical centre line and leaves y alone; reflecting twice is the identity.
   */
  lemma MirrorReflects(p: Landmark, t: Transform, containerWidth: real)
    ensures var m := MapPointToDisplay(p, t, containerWidth, true);
      var u := MapPointToDisplay(p, t, containerWidth, false);
      && m.x + u.x == containerWidth
      && m.y == u.y
      && containerWidth - m.x == u.x
  {
  }

  /**
   * With a cover-fit transform, every display point inside the container
   * comes from a point inside the camera frame: the container shows no area
   * outside the video, whether or not the view is mirrored.
   */
  lemma CoverShowsOnlyVideo(video: VideoFrame, containerWidth: real, containerHeight: real, q: Point, mirror: bool)
    requires video.videoWidth > 0.0 && video.videoHeight > 0.0
    requires containerWidth > 0.0 && containerHeight > 0.0
    requires 0.0 <= q.x <= containerWidth && 0.0 <= q.y <= containerHeight
    ensures var t := ComputeCoverTransform(Some(video), containerWidth, containerHeight).value;
      var u := UnmapFromDisplay(q, t, containerWidth, mirror);
      0.0 <= u.0 <= video.videoWidth && 0.0 <= u.1 <= video.videoHeight
  {
    var t := ComputeCoverTransform(Some(video), containerWidth, containerHeight).value;
    CoverFits(video, containerWidth, containerHeight);
    var x := if mirror then containerWidth - q.x else q.x;
    InsideFrame(x, containerWidth, video.videoWidth, t.scale, t.offsetX);
    InsideFrame(q.y, containerHeight, video.videoHeight, t.scale, t.offsetY);
  }

  /**
   * On one axis of a covering frame centred in the container, a container
   * coordinate unprojects into the frame.
   */
  lemma InsideFrame(x: real, container: real, video: real, scale: real, offset: real)
    requires scale > 0.0 && 2.0 * offset + video * scale == container
    requires video * scale >= container && 0.0 <= x <= container
    ensures 0.0 <= (x - offset) / scale <= video
  {
    UnitInterval(x - offset, video, scale);
  }

  /** `0 <= d <= v * s` scales down to `0 <= d / s <= v`. */
  lemma UnitInterval(d: real, v: real, s: real)
    requires s > 0.0 && 0.0 <= d <= v * s
    ensures 0.0 <= d / s <= v
  {
    assert d / s * s == d;
  }
}
