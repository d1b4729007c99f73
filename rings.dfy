/**
 * Ring extraction: the ordered points of one lip contour, pulled out of the
 * smoothed map (getPointsForIndices in src/components/ArTryOn/arUtils.js).
 */
module Rings {
  import opened Wrappers
  import opened Geometry

  /** The entries of `m` for `indices`, in the order of `indices`, skipping indices `m` lacks. */
  function PointsFor(indices: seq<int>, m: map<int, Point>): seq<Point>
  {
    if indices == [] then []
    else (if indices[0] in m then [m[indices[0]]] else []) + PointsFor(indices[1..], m)
  }

  /** Extraction distributes over concatenation of index lists, so order is kept. */
  lemma {:induction false} PointsForAppend(a: seq<int>, b: seq<int>, m: map<int, Point>)
    ensures PointsFor(a + b, m) == PointsFor(a, m) + PointsFor(b, m)
  {
    if a == [] {
      assert a + b == b;
    } else {
      assert (a + b)[1..] == a[1..] + b;
      PointsForAppend(a[1..], b, m);
    }
  }

  /**
   * A ring has at most one point per index, and exactly one per index
   * precisely when every index has an entry.
   */
  lemma {:induction false} PointsForLength(indices: seq<int>, m: map<int, Point>)
    ensures |PointsFor(indices, m)| <= |indices|
    ensures |PointsFor(indices, m)| == |indices| <==> forall i :: i in indices ==> i in m
  {
    if indices != [] {
      PointsForLength(indices[1..], m);
      assert forall i :: i in indices <==> i == indices[0] || i in indices[1..];
    }
  }

  /** When every index has an entry, point `k` of the ring is the entry of index `k`. */
  lemma {:induction false} PointsForComplete(indices: seq<int>, m: map<int, Point>)
    requires forall k :: 0 <= k < |indices| ==> indices[k] in m
    ensures |PointsFor(indices, m)| == |indices|
    ensures forall k :: 0 <= k < |indices| ==> PointsFor(indices, m)[k] == m[indices[k]]
  {
    if indices != [] {
      assert forall k :: 0 <= k < |indices| - 1 ==> indices[1..][k] == indices[k + 1];
      PointsForComplete(indices[1..], m);
      assert forall k :: 1 <= k < |indices| ==> indices[1..][k - 1] == indices[k];
    }
  }

  /** Every ring point is the entry of one of the indices, and every such entry is in the ring. */
  lemma {:induction false} PointsForMembers(indices: seq<int>, m: map<int, Point>, p: Point)
    ensures p in PointsFor(indices, m) <==> exists i :: i in indices && i in m && m[i] == p
  {
    if indices != [] {
      PointsForMembers(indices[1..], m, p);
      assert forall i :: i in indices <==> i == indices[0] || i in indices[1..];
    }
  }

  /**
   * The loop that collects a ring: visits `indices` in order and appends the
   * entry of each index the map has. A missing map gives an empty ring.
   */
  method GetPointsForIndices(indices: seq<int>, displayMap: Option<map<int, Point>>) returns (points: seq<Point>)
    ensures displayMap.None? ==> points == []
    ensures displayMap.Some? ==> points == PointsFor(indices, displayMap.value)
  {
    if displayMap.None? {
      return [];
    }
    var m := displayMap.value;
    points := [];
    var k := 0;
    while k < |indices|
      invariant 0 <= k <= |indices|
      invariant points == PointsFor(indices[..k], m)
    {
      var idx := indices[k];
      assert indices[..k + 1] == indices[..k] + [idx];
      PointsForAppend(indices[..k], [idx], m);
      assert PointsFor([idx], m) == if idx in m then [m[idx]] else [];
      if idx in m {
        points := points + [m[idx]];
      }
      k := k + 1;
    }
    assert indices[..k] == indices;
  }

  /** A ring over indices none of which the map holds is empty. */
  lemma {:induction false} PointsForNone(indices: seq<int>, m: map<int, Point>)
    requires forall k :: 0 <= k < |indices| ==> indices[k] !in m
    ensures PointsFor(indices, m) == []
  {
    if indices != [] {
      PointsForNone(indices[1..], m);
    }
  }
}
