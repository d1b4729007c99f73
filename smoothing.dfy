/**
 * The temporal smoother: blends each frame's projected lip landmarks into
 * the previous frame's smoothed positions, per landmark index
 * (buildSmoothedDisplayLandmarks in src/components/ArTryOn/arUtils.js with
 * a fixed blend factor, and its adaptive copy in src/components/ArTryOn.jsx).
 */
module Smoothing {
  import opened Wrappers
  import opened Geometry
  import opened Constants

  /**
   * Which copy of the pipeline is meant: the modular one (arUtils.js driven
   * by the useArLipstickTryOn hook) or the standalone component ArTryOn.jsx.
   */
  datatype Variant = Modular | Standalone

  function Min(a: real, b: real): (m: real)
    ensures m <= a && m <= b && (m == a || m == b)
  {
    if a <= b then a else b
  }

  /** Squared Euclidean distance between two display points. */
  function SquaredDistance(a: Point, b: Point): (d: real)
    ensures d >= 0.0
  {
    (a.x - b.x) * (a.x - b.x) + (a.y - b.y) * (a.y - b.y)
  }

  /**
   * The blend factor for one landmark. The modular smoother always uses its
   * fixed factor. The standalone one uses its base factor, boosted (capped at
   * 1) when the point moved farther than the movement threshold; the source
   * compares the square root of the squared distance with 3, which for
   * non-negative values is the same as comparing the squared distance with 9.
   */
  function Alpha(variant: Variant, mapped: Point, previous: Point): (a: real)
    ensures 0.0 < a <= 1.0
    ensures variant == Modular ==> a == 0.45
    ensures variant == Standalone ==>
      (SquaredDistance(mapped, previous) > 9.0 ==> a == 0.4) &&
      (SquaredDistance(mapped, previous) <= 9.0 ==> a == 0.1)
  {
    match variant
    case Modular => LipSmoothingAlpha
    case Standalone =>
      if SquaredDistance(mapped, previous) > MovementThreshold * MovementThreshold
      then Min(1.0, StandaloneSmoothingAlpha + AlphaBoost)
      else StandaloneSmoothingAlpha
  }

  /** Exponential smoothing on each axis: `alpha` of the new point, the rest of the old. */
  function Blend(alpha: real, mapped: Point, previous: Point): Point {
    Point(alpha * mapped.x + (1.0 - alpha) * previous.x, alpha * mapped.y + (1.0 - alpha) * previous.y)
  }

  /** `r` lies on the closed interval between `a` and `b`. */
  predicate Between(a: real, r: real, b: real) {
    (a <= r <= b) || (b <= r <= a)
  }

  /**
   * The smoothed position of one landmark: the projected point itself on
   * first sight, otherwise a blend that lies between the previous smoothed
   * point and the projected one on each axis and does not move a point that
   * is at rest.
   */
  function SmoothPoint(variant: Variant, mapped: Point, previous: Option<Point>): (r: Point)
    ensures previous.None? ==> r == mapped
    ensures previous.Some? ==> Between(previous.value.x, r.x, mapped.x) && Between(previous.value.y, r.y, mapped.y)
    ensures previous == Some(mapped) ==> r == mapped
  {
    match previous
    case None => mapped
    case Some(p) => Blend(Alpha(variant, mapped, p), mapped, p)
  }

  /**
   * One smoothing step moves the point exactly `Alpha` of the way from the
   * previous smoothed point towards the projected one; for the standalone
   * smoother that is 40% of the way after a jump of more than 3 pixels and
   * 10% otherwise.
   */
  lemma SmoothPointStep(variant: Variant, mapped: Point, previous: Point)
    ensures var r := SmoothPoint(variant, mapped, Some(previous));
      var a := Alpha(variant, mapped, previous);
      r.x - previous.x == a * (mapped.x - previous.x) &&
      r.y - previous.y == a * (mapped.y - previous.y)
  {
  }

  /**
   * The gap left to the projected point shrinks by the factor `1 - Alpha` in
   * one step: to 55% for the modular smoother, to 60% for the standalone one
   * after a large jump and to 90% after a small one.
   */
  lemma {:induction false} SmoothingShrinksGap(variant: Variant, mapped: Point, previous: Point)
    ensures var r := SmoothPoint(variant, mapped, Some(previous));
      var a := Alpha(variant, mapped, previous);
      SquaredDistance(mapped, r) == (1.0 - a) * (1.0 - a) * SquaredDistance(mapped, previous)
  {
    var r := SmoothPoint(variant, mapped, Some(previous));
    var a := Alpha(variant, mapped, previous);
    var dx := mapped.x - previous.x;
    var dy := mapped.y - previous.y;
    assert mapped.x - r.x == (1.0 - a) * dx;
    assert mapped.y - r.y == (1.0 - a) * dy;
    calc {
      SquaredDistance(mapped, r);
      == ((1.0 - a) * dx) * ((1.0 - a) * dx) + ((1.0 - a) * dy) * ((1.0 - a) * dy);
      == (1.0 - a) * (1.0 - a) * (dx * dx + dy * dy);
    }
  }

  function Lookup(m: map<int, Point>, k: int): Option<Point> {
    if k in m then Some(m[k]) else None
  }

  /**
   * The smoothed display positions of the given landmark indices: one entry
   * for each index whose raw landmark exists this frame, computed from that
   * landmark's projection and the previous entry for the same index alone.
   */
  function SmoothedMap(variant: Variant, previous: map<int, Point>, indices: seq<int>,
                       landmarks: seq<Landmark>, t: Transform, containerWidth: real): map<int, Point>
  {
    map i | i in indices && 0 <= i < |landmarks| ::
      SmoothPoint(variant, MapPointToDisplay(landmarks[i], t, containerWidth, MirrorDisplay), Lookup(previous, i))
  }

  /**
   * The frame's smoothed map has an entry for exactly those lip indices whose
   * raw landmark exists; whatever else the previous map held is dropped.
   */
  lemma SmoothedKeys(variant: Variant, previous: map<int, Point>, landmarks: seq<Landmark>, t: Transform, containerWidth: real)
    ensures var m := SmoothedMap(variant, previous, LipIndices, landmarks, t, containerWidth);
      (forall i :: i in m <==> i in LipIndices && i < |landmarks|) &&
      (forall i :: i in previous && i !in LipIndices ==> i !in m)
  {
    LipIndicesRange();
  }

  /**
   * Indices are smoothed independently: an entry depends only on that
   * index's raw landmark and that index's previous entry.
   */
  lemma SmoothedIndependent(variant: Variant, previous1: map<int, Point>, previous2: map<int, Point>,
                            landmarks1: seq<Landmark>, landmarks2: seq<Landmark>,
                            t: Transform, containerWidth: real, i: int)
    requires i in LipIndices && i < |landmarks1| && i < |landmarks2|
    requires landmarks1[i] == landmarks2[i] && Lookup(previous1, i) == Lookup(previous2, i)
    ensures var m1 := SmoothedMap(variant, previous1, LipIndices, landmarks1, t, containerWidth);
      var m2 := SmoothedMap(variant, previous2, LipIndices, landmarks2, t, containerWidth);
      i in m1 && i in m2 && m1[i] == m2[i]
  {
    LipIndicesRange();
  }

  /** Extending the index list by one index adds (at most) that index's entry. */
  lemma SmoothedMapSnoc(variant: Variant, previous: map<int, Point>, prefix: seq<int>, index: int,
                        landmarks: seq<Landmark>, t: Transform, containerWidth: real)
    ensures SmoothedMap(variant, previous, prefix + [index], landmarks, t, containerWidth) ==
      if 0 <= index < |landmarks| then
        SmoothedMap(variant, previous, prefix, landmarks, t, containerWidth)[index :=
          SmoothPoint(variant, MapPointToDisplay(landmarks[index], t, containerWidth, MirrorDisplay), Lookup(previous, index))]
      else SmoothedMap(variant, previous, prefix, landmarks, t, containerWidth)
  {
    var after := SmoothedMap(variant, previous, prefix + [index], landmarks, t, containerWidth);
    var before := SmoothedMap(variant, previous, prefix, landmarks, t, containerWidth);
    assert forall i :: i in prefix + [index] <==> i in prefix || i == index;
    if 0 <= index < |landmarks| {
      assert after.Keys == before.Keys + {index};
    } else {
      assert after.Keys == before.Keys;
    }
  }

  /**
   * The per-index loop of the smoother: visits the lip indices in order and
   * records a smoothed point for each one whose raw landmark exists.
   */
  method SmoothLandmarks(variant: Variant, previous: map<int, Point>, landmarks: seq<Landmark>,
                         t: Transform, containerWidth: real) returns (smoothed: map<int, Point>)
    ensures smoothed == SmoothedMap(variant, previous, LipIndices, landmarks, t, containerWidth)
  {
    smoothed := map[];
    var k := 0;
    while k < |LipIndices|
      invariant 0 <= k <= |LipIndices|
      invariant smoothed == SmoothedMap(variant, previous, LipIndices[..k], landmarks, t, containerWidth)
    {
      var index := LipIndices[k];
      assert LipIndices[..k + 1] == LipIndices[..k] + [index];
      SmoothedMapSnoc(variant, previous, LipIndices[..k], index, landmarks, t, containerWidth);
      if 0 <= index < |landmarks| {
        var mapped := MapPointToDisplay(landmarks[index], t, containerWidth, MirrorDisplay);
        smoothed := smoothed[index := SmoothPoint(variant, mapped, Lookup(previous, index))];
      }
      k := k + 1;
    }
    assert LipIndices[..k] == LipIndices;
  }

  /** The shared holder of the previous frame's smoothed map (a React ref). */
  class LandmarkRef {
    var current: Option<map<int, Point>>

    constructor ()
      ensures current.None?
    {
      current := None;
    }
  }

  /**
   * Smooths this frame's lip landmarks against the map held in `prevRef`
   * (an absent map counts as empty) and stores the result there, replacing
   * the old map wholesale. Without landmarks or a transform nothing is
   * computed and `prevRef` is left alone.
   */
  method BuildSmoothedDisplayLandmarks(variant: Variant, prevRef: LandmarkRef, landmarks: Option<seq<Landmark>>,
                                       transform: Option<Transform>, containerWidth: real)
    returns (r: Option<map<int, Point>>)
    modifies prevRef
    ensures landmarks.None? || transform.None? ==> r.None? && prevRef.current == old(prevRef.current)
    ensures landmarks.Some? && transform.Some? ==>
      && r == Some(SmoothedMap(variant, old(prevRef.current).GetOr(map[]), LipIndices,
                               landmarks.value, transform.value, containerWidth))
      && prevRef.current == r
  {
    if landmarks.None? || transform.None? {
      return None;
    }
    var previous := prevRef.current.GetOr(map[]);
    var smoothed := SmoothLandmarks(variant, previous, landmarks.value, transform.value, containerWidth);
    prevRef.current := Some(smoothed);
    r := Some(smoothed);
  }
}
