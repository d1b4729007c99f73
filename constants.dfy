/**
 * The landmark index tables and tuning constants of the lipstick overlay
 * (src/components/ArTryOn/constants.js, and the copies at the top of
 * src/components/ArTryOn.jsx).
 */
module Constants {

  /** Face-mesh indices of the outer lip contour, in drawing order. */
  const LipOuter: seq<int> := [
    61, 146, 91, 181, 84, 17, 314, 405, 321, 375, 291, 409, 270, 269, 267, 0, 37,
    39, 40, 185
  ]

  /** Face-mesh indices of the inner lip contour (the mouth opening), in drawing order. */
  const LipInner: seq<int> := [
    78, 95, 88, 178, 87, 14, 317, 402, 318, 324, 308, 415, 310, 311, 312, 13, 82,
    81, 80, 191
  ]

  /** Every index the smoother tracks: the outer ring followed by the inner ring. */
  const LipIndices: seq<int> := LipOuter + LipInner

  /** The display is a selfie view: projected points are mirrored horizontally. */
  const MirrorDisplay: bool := true

  /** Fixed blend factor of the modular smoother. */
  const LipSmoothingAlpha: real := 0.45

  /** Base blend factor of the standalone component's adaptive smoother. */
  const StandaloneSmoothingAlpha: real := 0.1

  /** Boost added to the base blend factor after a large movement. */
  const AlphaBoost: real := 0.3

  /** A movement larger than this many display pixels counts as large. */
  const MovementThreshold: real := 3.0

  /** No index occurs twice. */
  ghost predicate Distinct(s: seq<int>) {
    forall i, j :: 0 <= i < j < |s| ==> s[i] != s[j]
  }

  /**
   * Where a value sits in the tracked list (40 when it is not tracked); a
   * proof device for distinctness.
   */
  function TablePosition(x: int): nat {
    match x
    case 61 => 0
    case 146 => 1
    case 91 => 2
    case 181 => 3
    case 84 => 4
    case 17 => 5
    case 314 => 6
    case 405 => 7
    case 321 => 8
    case 375 => 9
    case 291 => 10
    case 409 => 11
    case 270 => 12
    case 269 => 13
    case 267 => 14
    case 0 => 15
    case 37 => 16
    case 39 => 17
    case 40 => 18
    case 185 => 19
    case 78 => 20
    case 95 => 21
    case 88 => 22
    case 178 => 23
    case 87 => 24
    case 14 => 25
    case 317 => 26
    case 402 => 27
    case 318 => 28
    case 324 => 29
    case 308 => 30
    case 415 => 31
    case 310 => 32
    case 311 => 33
    case 312 => 34
    case 13 => 35
    case 82 => 36
    case 81 => 37
    case 80 => 38
    case 191 => 39
    case _ => 40
  }

  /** The 40 tracked indices are pairwise distinct. */
  lemma LipIndicesDistinct()
    ensures |LipIndices| == 40 && Distinct(LipIndices)
  {
    OuterPositions();
    InnerPositions();
    forall i | 0 <= i < 40
      ensures TablePosition(LipIndices[i]) == i
    {
      if i < 20 {
        assert LipIndices[i] == LipOuter[i];
      } else {
        assert LipIndices[i] == LipInner[i - 20];
      }
    }
  }

  /** Each outer index sits at its own position of the table. */
  lemma OuterPositions()
    ensures |LipOuter| == 20
    ensures forall i :: 0 <= i < 20 ==> TablePosition(LipOuter[i]) == i
  {
    forall i | 0 <= i < 20
      ensures TablePosition(LipOuter[i]) == i
    {
    }
  }

  /** Each inner index sits at its own position of the table, after the outer ones. */
  lemma InnerPositions()
    ensures |LipInner| == 20
    ensures forall i :: 0 <= i < 20 ==> TablePosition(LipInner[i]) == 20 + i
  {
    forall i | 0 <= i < 20
      ensures TablePosition(LipInner[i]) == 20 + i
    {
    }
  }

  /** Distinctness of a concatenation splits into both halves plus disjointness. */
  lemma DistinctConcat(a: seq<int>, b: seq<int>)
    requires Distinct(a + b)
    ensures Distinct(a) && Distinct(b)
    ensures forall x :: x in a ==> x !in b
  {
    forall i, j | 0 <= i < j < |a| ensures a[i] != a[j] {
      assert a[i] == (a + b)[i] && a[j] == (a + b)[j];
    }
    forall i, j | 0 <= i < j < |b| ensures b[i] != b[j] {
      assert b[i] == (a + b)[|a| + i] && b[j] == (a + b)[|a| + j];
    }
    forall x | x in a ensures x !in b {
      var i :| 0 <= i < |a| && a[i] == x;
      forall j | 0 <= j < |b| ensures b[j] != x {
        assert (a + b)[i] == x && (a + b)[|a| + j] == b[j];
      }
    }
  }

  /**
   * The index tables are well formed: 20 distinct outer indices, 20 distinct
   * inner indices and no index in both rings, so each ring can receive up to
   * 20 points from the smoothed map independently of the other.
   */
  lemma LipTablesWellFormed()
    ensures |LipOuter| == 20 && |LipInner| == 20
    ensures Distinct(LipOuter) && Distinct(LipInner)
    ensures forall x :: x in LipOuter ==> x !in LipInner
  {
    LipIndicesDistinct();
    DistinctConcat(LipOuter, LipInner);
  }

  /** Every tracked index is a valid, non-negative face-mesh index below 416. */
  lemma LipIndicesRange()
    ensures forall x :: x in LipIndices ==> 0 <= x < 416
  {
  }

  /** The fixed blend factor is a convex weight. */
  lemma SmoothingAlphaIsConvex()
    ensures 0.0 <= LipSmoothingAlpha <= 1.0
    ensures 0.0 <= StandaloneSmoothingAlpha <= 1.0
  {
  }

  /** Index 0 sits at position 15 of the outer ring; every other outer index is at least 17. */
  lemma LipOuterAroundZero()
    ensures LipOuter[15] == 0
    ensures forall k :: 0 <= k < 15 ==> LipOuter[k] >= 17
    ensures forall k :: 16 <= k < |LipOuter| ==> LipOuter[k] >= 17
  {
  }
}
