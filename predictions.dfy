/**
 * What the face-landmark detector returns, and how a prediction becomes a
 * landmark sequence (toPoints in src/components/ArTryOn/arUtils.js).
 */
module Predictions {
  import opened Wrappers
  import opened Geometry

  /** One detector keypoint; `z` may be absent. */
  datatype Keypoint = Keypoint(x: real, y: real, z: Option<real>)

  /**
   * One detected face. Depending on the detector runtime, the landmarks come
   * as a ready mesh of points or as a list of keypoint records.
   */
  datatype Prediction = Prediction(scaledMesh: Option<seq<Landmark>>, keypoints: Option<seq<Keypoint>>)

  /** The landmark a keypoint stands for: a missing depth reads as 0. */
  function KeypointLandmark(kp: Keypoint): Landmark {
    Landmark(kp.x, kp.y, kp.z.GetOr(0.0))
  }

  /**
   * The landmark sequence of a prediction: the mesh when there is one,
   * otherwise the keypoints converted one by one in order, otherwise nothing.
   */
  function ToPoints(prediction: Option<Prediction>): (r: Option<seq<Landmark>>)
    ensures r.None? <==>
      prediction.None? || (prediction.value.scaledMesh.None? && prediction.value.keypoints.None?)
    ensures prediction.Some? && prediction.value.scaledMesh.Some? ==> r == prediction.value.scaledMesh
    ensures prediction.Some? && prediction.value.scaledMesh.None? && prediction.value.keypoints.Some? ==>
      var kps := prediction.value.keypoints.value;
      && |r.value| == |kps|
      && forall i :: 0 <= i < |kps| ==>
           r.value[i].x == kps[i].x && r.value[i].y == kps[i].y &&
           r.value[i].z == (if kps[i].z.Some? then kps[i].z.value else 0.0)
  {
    match prediction
    case None => None
    case Some(p) =>
      if p.scaledMesh.Some? then p.scaledMesh
      else if p.keypoints.Some? then
        var kps := p.keypoints.value;
        Some(seq(|kps|, i requires 0 <= i < |kps| => KeypointLandmark(kps[i])))
      else None
  }
}
