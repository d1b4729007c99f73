/**
 * Drawing as a trace of canvas operations: the closed-curve builder
 * (drawSmoothClosedPath) and the lipstick compositor (drawLipstick) of
 * src/components/ArTryOn/arUtils.js, duplicated in src/components/ArTryOn.jsx.
 * Nothing is rasterised: a drawing context records the calls made on it.
 */
module PathTrace {
  import opened Geometry
  import opened Smoothing

  datatype FillRule = NonZero | EvenOdd

  /** One call on a 2D drawing context (property assignments included). */
  datatype Op =
    | Save
    | Restore
    | SetTransform(a: real, b: real, c: real, d: real, e: real, f: real)
    | ClearRect(left: real, top: real, rectWidth: real, rectHeight: real)
    | SetGlobalAlpha(alpha: real)
    | SetFillStyle(fillStyle: string)
    | SetFilter(filter: string)
    | SetStrokeStyle(strokeStyle: string)
    | SetLineWidth(lineWidth: real)
    | BeginPath
    | MoveTo(to: Point)
    | BezierTo(cp1: Point, cp2: Point, end: Point)
    | ClosePath
    | Fill(rule: FillRule)
    | Stroke

  /** A 2D drawing context that records every call made on it, oldest first. */
  class Context {
    var trace: seq<Op>

    constructor ()
      ensures trace == []
    {
      trace := [];
    }

    /** Records one call. */
    method Emit(op: Op)
      modifies this
      ensures trace == old(trace) + [op]
    {
      trace := trace + [op];
    }
  }

  /**
   * The cubic segment from `p1` to `p2` with Catmull-Rom control points:
   * each tangent is one sixth of the chord between the two neighbours of
   * its end point.
   */
  function CatmullRom(p0: Point, p1: Point, p2: Point, p3: Point): (op: Op)
    ensures op.BezierTo? && op.end == p2
  {
    BezierTo(Point(p1.x + (p2.x - p0.x) / 6.0, p1.y + (p2.y - p0.y) / 6.0),
             Point(p2.x - (p3.x - p1.x) / 6.0, p2.y - (p3.y - p1.y) / 6.0),
             p2)
  }

  /**
   * On evenly spaced points along a line the segment is the straight chord:
   * its control points sit one and two thirds of the way from `p1` to `p2`.
   */
  lemma CatmullRomOnALine(p0: Point, p1: Point, p2: Point, p3: Point)
    requires p1.x - p0.x == p2.x - p1.x == p3.x - p2.x
    requires p1.y - p0.y == p2.y - p1.y == p3.y - p2.y
    ensures var op, dx, dy := CatmullRom(p0, p1, p2, p3), p2.x - p1.x, p2.y - p1.y;
      op.cp1 == Point(p1.x + dx / 3.0, p1.y + dy / 3.0) && op.cp2 == Point(p2.x - dx / 3.0, p2.y - dy / 3.0)
  {
  }

  /** The ring position before `i` in a ring of `n` points. */
  function Before(i: int, n: int): int {
    if i > 0 then i - 1 else n - 1
  }

  /** The ring position after `i`. */
  function After(i: int, n: int): int {
    if i + 1 < n then i + 1 else 0
  }

  /** The ring position two after `i` (for `n >= 2`). */
  function AfterNext(i: int, n: int): int {
    if i + 2 < n then i + 2 else i + 2 - n
  }

  /** The segment from ring point `i` to the next point of the cyclic ring. */
  function Segment(points: seq<Point>, i: int): (op: Op)
    requires 2 <= |points| && 0 <= i < |points|
  {
    var n := |points|;
    CatmullRom(points[Before(i, n)], points[i], points[After(i, n)], points[AfterNext(i, n)])
  }

  /** One segment per ring point, in ring order. */
  function Segments(points: seq<Point>): seq<Op>
    requires 2 <= |points|
  {
    seq(|points|, i requires 0 <= i < |points| => Segment(points, i))
  }

  /**
   * The closed smooth path through a ring: move to the first point, one
   * cubic segment per point, close. A ring of fewer than two points draws
   * nothing.
   */
  function SmoothClosedPath(points: seq<Point>): seq<Op>
  {
    if |points| < 2 then [] else [MoveTo(points[0])] + Segments(points) + [ClosePath]
  }

  /** Number of sub-paths started (`MoveTo` calls) in a trace. */
  function Subpaths(ops: seq<Op>): nat
  {
    if ops == [] then 0 else (if ops[0].MoveTo? then 1 else 0) + Subpaths(ops[1..])
  }

  lemma {:induction false} SubpathsAppend(a: seq<Op>, b: seq<Op>)
    ensures Subpaths(a + b) == Subpaths(a) + Subpaths(b)
  {
    if a == [] {
      assert a + b == b;
    } else {
      assert (a + b)[1..] == a[1..] + b;
      SubpathsAppend(a[1..], b);
    }
  }

  /** The ring neighbours are exactly the source's modular indices `(i - 1 + n) % n`, `(i + 1) % n`, `(i + 2) % n`. */
  lemma Wrap(i: int, n: int)
    requires n >= 2 && 0 <= i < n
    ensures (i + 1) % n == After(i, n)
    ensures (i - 1 + n) % n == Before(i, n)
    ensures (i + 2) % n == AfterNext(i, n)
  {
    WrapNext(i, n);
    WrapPrev(i, n);
    WrapAfterNext(i, n);
  }

  lemma WrapNext(i: int, n: int)
    requires n >= 2 && 0 <= i < n
    ensures (i + 1) % n == (if i + 1 < n then i + 1 else 0)
  {
    if i + 1 < n { ModBelow(i + 1, n); } else { ModOnce(i + 1, n); }
  }

  lemma WrapPrev(i: int, n: int)
    requires n >= 2 && 0 <= i < n
    ensures (i - 1 + n) % n == (if i > 0 then i - 1 else n - 1)
  {
    if i > 0 { ModOnce(i - 1 + n, n); } else { ModBelow(n - 1, n); }
  }

  lemma WrapAfterNext(i: int, n: int)
    requires n >= 2 && 0 <= i < n
    ensures (i + 2) % n == (if i + 2 < n then i + 2 else i + 2 - n)
  {
    if i + 2 < n { ModBelow(i + 2, n); } else { ModOnce(i + 2, n); }
  }

  /** A value already in `[0, n)` is its own remainder. */
  lemma ModBelow(a: int, n: int)
    requires 0 <= a < n
    ensures a % n == a
  {
  }

  /** A value in `[n, 2n)` leaves remainder `a - n`. */
  lemma ModOnce(a: int, n: int)
    requires 0 < n <= a < 2 * n
    ensures a % n == a - n
  {
    assert a == 1 * n + (a - n);
  }

  /**
   * Shape of a closed path: for a ring of `n >= 2` points it is one `MoveTo`
   * to the first point, then exactly the `n` cubic segments, then one
   * `ClosePath`; it is a single sub-path.
   */
  lemma ClosedPathShape(points: seq<Point>)
    requires |points| >= 2
    ensures var ops := SmoothClosedPath(points);
      && |ops| == |points| + 2
      && ops[0] == MoveTo(points[0])
      && ops[1..|points| + 1] == Segments(points)
      && ops[|ops| - 1] == ClosePath
      && Subpaths(ops) == 1
  {
    var ops := SmoothClosedPath(points);
    var segs := Segments(points);
    assert ops == [MoveTo(points[0])] + segs + [ClosePath];
    SubpathsAppend([MoveTo(points[0])], segs + [ClosePath]);
    SubpathsAppend(segs, [ClosePath]);
    NoMoves(segs);
    assert ops[1..] == segs + [ClosePath];
  }

  /** A trace without `MoveTo` starts no sub-path. */
  lemma {:induction false} NoMoves(ops: seq<Op>)
    requires forall k :: 0 <= k < |ops| ==> !ops[k].MoveTo?
    ensures Subpaths(ops) == 0
  {
    if ops != [] {
      NoMoves(ops[1..]);
    }
  }

  /**
   * The path passes through every ring point exactly: segment `i` ends at
   * ring point `i + 1` (cyclically), so the last segment returns to the
   * first point, and ring point `j` is the end of segment `j - 1`.
   */
  lemma ClosedPathThroughEveryPoint(points: seq<Point>)
    requires |points| >= 2
    ensures forall i :: 0 <= i < |points| ==> Segments(points)[i].end == points[(i + 1) % |points|]
    ensures Segments(points)[|points| - 1].end == points[0]
    ensures forall j {:trigger Before(j, |points|)} :: 0 <= j < |points| ==> Segments(points)[Before(j, |points|)].end == points[j]
  {
    var n := |points|;
    forall i | 0 <= i < n ensures Segments(points)[i].end == points[(i + 1) % n] {
      Wrap(i, n);
    }
  }

  /**
   * Tangent continuity at every ring point: the incoming control point of
   * the segment ending at a point and the outgoing control point of the
   * segment starting there are mirror images through that point, so the
   * closed curve has no corners.
   */
  lemma ClosedPathTangentContinuity(points: seq<Point>, i: int)
    requires |points| >= 2 && 0 <= i < |points|
    ensures var n := |points|;
      var incoming := Segments(points)[i];
      var outgoing := Segments(points)[(i + 1) % n];
      && incoming.end == points[(i + 1) % n]
      && incoming.end.x - incoming.cp2.x == outgoing.cp1.x - incoming.end.x
      && incoming.end.y - incoming.cp2.y == outgoing.cp1.y - incoming.end.y
  {
    Wrap(i, |points|);
  }

  /**
   * Issues the closed smooth path through `points` on `ctx`: the loop emits
   * one cubic segment per ring point.
   */
  method DrawSmoothClosedPath(ctx: Context, points: seq<Point>)
    modifies ctx
    ensures ctx.trace == old(ctx.trace) + SmoothClosedPath(points)
  {
    if |points| < 2 {
      return;
    }
    var len := |points|;
    ctx.Emit(MoveTo(points[0]));
    ghost var started := ctx.trace;
    for i := 0 to len
      invariant |ctx.trace| == |started| + i
      invariant ctx.trace[..|started|] == started
      invariant forall k :: 0 <= k < i ==> ctx.trace[|started| + k] == Segment(points, k)
    {
      var p0 := points[Before(i, len)];
      var p1 := points[i];
      var p2 := points[After(i, len)];
      var p3 := points[AfterNext(i, len)];
      ghost var before := ctx.trace;
      ctx.Emit(CatmullRom(p0, p1, p2, p3));
      assert ctx.trace[..|started|] == before[..|started|];
    }
    SegmentsEmitted(ctx.trace, started, points);
    ctx.Emit(ClosePath);
  }

  /** A trace holding `started` and then segment `k` at each offset `k` is `started` followed by the segments. */
  lemma SegmentsEmitted(trace: seq<Op>, started: seq<Op>, points: seq<Point>)
    requires |points| >= 2 && |trace| == |started| + |points| && trace[..|started|] == started
    requires forall k :: 0 <= k < |points| ==> trace[|started| + k] == Segment(points, k)
    ensures trace == started + Segments(points)
  {
  }

  /** The ring in reverse order (`[...ring].reverse()`). */
  function Reverse(s: seq<Point>): seq<Point>
  {
    seq(|s|, k requires 0 <= k < |s| => s[|s| - 1 - k])
  }

  /** Stroke colour of the edge line; the two copies of the compositor differ here. */
  function StrokeStyle(variant: Variant): string {
    match variant
    case Modular => "rgba(0,0,0,0.30)"
    case Standalone => "rgba(0,0,0,0.40)"
  }

  /** Width of the edge line; the two copies of the compositor differ here. */
  function LineWidth(variant: Variant): real {
    match variant
    case Modular => 0.2
    case Standalone => 1.5
  }

  /** The inner ring's contribution to the fill path: its reversed closed path, if it has more than two points. */
  function CutoutPath(inner: seq<Point>): seq<Op>
  {
    if |inner| > 2 then SmoothClosedPath(Reverse(inner)) else []
  }

  /** The calls that open the fill layer: save the state, set opacity and colour, start a path. */
  function FillSetup(color: string, opacity: real): seq<Op> {
    [Save, SetGlobalAlpha(opacity), SetFillStyle(color), BeginPath]
  }

  /** The calls between the two layers: fill even-odd, set the edge style, start a fresh path. */
  function StrokeSetup(variant: Variant): seq<Op> {
    [Fill(EvenOdd), SetFilter("none"), SetStrokeStyle(StrokeStyle(variant)), SetLineWidth(LineWidth(variant)), BeginPath]
  }

  /** The calls that close the stroke layer. */
  const StrokeFinish: seq<Op> := [Stroke, Restore]

  /**
   * The two layers around given paths: the fill of `outerPath` plus
   * `cutout`, then the stroke of `outerPath` alone.
   */
  function Layers(outerPath: seq<Op>, cutout: seq<Op>, color: string, opacity: real, variant: Variant): seq<Op> {
    FillSetup(color, opacity) + outerPath + cutout + StrokeSetup(variant) + outerPath + StrokeFinish
  }

  /**
   * The calls the compositor makes: nothing for an outer ring of fewer than
   * three points; otherwise, inside one save/restore pair, fill the outer
   * path plus the reversed inner path with the even-odd rule, then stroke a
   * fresh path of the outer ring alone.
   */
  function LipstickOps(outer: seq<Point>, inner: seq<Point>, color: string, opacity: real, variant: Variant): seq<Op>
  {
    if |outer| < 3 then [] else Layers(SmoothClosedPath(outer), CutoutPath(inner), color, opacity, variant)
  }

  /** A path-building call: the only kind a closed path contains. */
  predicate IsPathOp(op: Op) {
    op.MoveTo? || op.BezierTo? || op.ClosePath?
  }

  predicate AllPathOps(ops: seq<Op>) {
    forall k :: 0 <= k < |ops| ==> IsPathOp(ops[k])
  }

  lemma ClosedPathOnlyPathOps(points: seq<Point>)
    ensures AllPathOps(SmoothClosedPath(points))
  {
  }

  lemma CutoutOnlyPathOps(inner: seq<Point>)
    ensures AllPathOps(CutoutPath(inner))
  {
    ClosedPathOnlyPathOps(Reverse(inner));
  }

  /** Save/restore bracketing of the layers, for any path-only paths. */
  lemma LayersBracketed(outerPath: seq<Op>, cutout: seq<Op>, color: string, opacity: real, variant: Variant)
    requires AllPathOps(outerPath) && AllPathOps(cutout)
    ensures var ops := Layers(outerPath, cutout, color, opacity, variant);
      && |ops| >= 2 && ops[0] == Save && ops[|ops| - 1] == Restore
      && forall k :: 0 < k < |ops| - 1 ==> ops[k] != Save && ops[k] != Restore
  {
    var ops := Layers(outerPath, cutout, color, opacity, variant);
    var mid := [SetGlobalAlpha(opacity), SetFillStyle(color), BeginPath] + outerPath + cutout + StrokeSetup(variant) + outerPath + [Stroke];
    assert ops == [Save] + mid + [Restore];
    forall k | 0 < k < |ops| - 1 ensures ops[k] != Save && ops[k] != Restore {
      assert ops[k] == mid[k - 1];
    }
  }

  /** Counts of fills, strokes, saves and restores in the layers, for any path-only paths. */
  lemma LayersCounts(outerPath: seq<Op>, cutout: seq<Op>, color: string, opacity: real, variant: Variant)
    requires AllPathOps(outerPath) && AllPathOps(cutout)
    ensures var ops := Layers(outerPath, cutout, color, opacity, variant);
      && multiset(ops)[Fill(EvenOdd)] == 1 && multiset(ops)[Fill(NonZero)] == 0
      && multiset(ops)[Stroke] == 1
      && multiset(ops)[Save] == 1 && multiset(ops)[Restore] == 1
  {
    NoneOf(outerPath);
    NoneOf(cutout);
    FillSetupCounts(color, opacity);
    StrokeSetupCounts(variant);
    StrokeFinishCounts();
    assert multiset(Layers(outerPath, cutout, color, opacity, variant))
        == multiset(FillSetup(color, opacity)) + multiset(outerPath) + multiset(cutout)
           + multiset(StrokeSetup(variant)) + multiset(outerPath) + multiset(StrokeFinish);
  }

  /** Fills, strokes, saves and restores among the fixed calls of the compositor. */
  lemma FillSetupCounts(color: string, opacity: real)
    ensures var m := multiset(FillSetup(color, opacity));
      && m[Fill(EvenOdd)] == 0 && m[Fill(NonZero)] == 0 && m[Stroke] == 0
      && m[Save] == 1 && m[Restore] == 0
  {
  }

  lemma StrokeSetupCounts(variant: Variant)
    ensures var m := multiset(StrokeSetup(variant));
      && m[Fill(EvenOdd)] == 1 && m[Fill(NonZero)] == 0 && m[Stroke] == 0
      && m[Save] == 0 && m[Restore] == 0
  {
  }

  lemma StrokeFinishCounts()
    ensures var m := multiset(StrokeFinish);
      && m[Fill(EvenOdd)] == 0 && m[Fill(NonZero)] == 0 && m[Stroke] == 1
      && m[Save] == 0 && m[Restore] == 1
  {
  }

  /** A path-only trace holds no fill, stroke, save or restore call. */
  lemma NoneOf(path: seq<Op>)
    requires AllPathOps(path)
    ensures Fill(EvenOdd) !in path && Fill(NonZero) !in path && Stroke !in path
    ensures Save !in path && Restore !in path
    ensures multiset(path)[Fill(EvenOdd)] == 0 && multiset(path)[Fill(NonZero)] == 0 && multiset(path)[Stroke] == 0
    ensures multiset(path)[Save] == 0 && multiset(path)[Restore] == 0
  {
    assert Fill(EvenOdd) !in path && Fill(NonZero) !in path && Stroke !in path;
    assert Save !in path && Restore !in path;
  }

  /**
   * The seven parts of the layers in order, and where the fill and the
   * stroke sit: the fill follows a fresh path made of the outer path and the
   * cut-out, the stroke follows a second fresh path made of the outer path
   * alone, and the restore comes last.
   */
  lemma LayersOrder(outerPath: seq<Op>, cutout: seq<Op>, color: string, opacity: real, variant: Variant)
    ensures var ops := Layers(outerPath, cutout, color, opacity, variant);
      var f := 4 + |outerPath| + |cutout|;
      var s := f + 5 + |outerPath|;
      && |ops| == s + 2
      && ops[..f] == FillSetup(color, opacity) + (outerPath + cutout)
      && ops[f..s] == StrokeSetup(variant) + outerPath
      && ops[s..] == StrokeFinish
      && ops[3] == BeginPath && ops[4..f] == outerPath + cutout && ops[f] == Fill(EvenOdd)
      && ops[f + 4] == BeginPath && ops[f + 5..s] == outerPath && ops[s] == Stroke && ops[s + 1] == Restore
  {
    Arrange(FillSetup(color, opacity), outerPath, cutout, StrokeSetup(variant), outerPath, StrokeFinish);
  }

  /**
   * The sub-paths each layer paints: the fill those of the outer path and of
   * the cut-out, the stroke those of the outer path alone.
   */
  lemma LayersSubpaths(outerPath: seq<Op>, cutout: seq<Op>, color: string, opacity: real, variant: Variant)
    ensures var ops := Layers(outerPath, cutout, color, opacity, variant);
      var f := 4 + |outerPath| + |cutout|;
      var s := f + 5 + |outerPath|;
      && s < |ops|
      && Subpaths(ops[..f]) == Subpaths(outerPath) + Subpaths(cutout)
      && Subpaths(ops[f..s]) == Subpaths(outerPath)
  {
    var setup := FillSetup(color, opacity);
    var between := StrokeSetup(variant);
    LayersOrder(outerPath, cutout, color, opacity, variant);
    SubpathsAppend(setup, outerPath + cutout);
    SubpathsAppend(outerPath, cutout);
    NoMoves(setup);
    SubpathsAppend(between, outerPath);
    NoMoves(between);
  }

  /**
   * The parts of a six-part concatenation shaped like the layers (a
   * four-call opening, two paths, five calls between, a path, two closing
   * calls), recovered by slicing at their boundaries.
   */
  lemma Arrange(setup: seq<Op>, b1: seq<Op>, b2: seq<Op>, between: seq<Op>, b3: seq<Op>, finish: seq<Op>)
    requires |setup| == 4 && |between| == 5 && |finish| == 2
    ensures var ops := setup + b1 + b2 + between + b3 + finish;
      var f := 4 + |b1| + |b2|;
      var s := f + 5 + |b3|;
      && |ops| == s + 2
      && ops[..f] == setup + (b1 + b2) && ops[4..f] == b1 + b2
      && ops[f..s] == between + b3 && ops[f + 5..s] == b3
      && ops[3] == setup[3] && ops[f] == between[0] && ops[f + 4] == between[4]
      && ops[s..] == finish && ops[s] == finish[0] && ops[s + 1] == finish[1]
  {
    var fill := setup + (b1 + b2);
    var stroke := between + b3;
    Regroup(setup, b1, b2, between, b3, finish);
    Pieces(fill, stroke, finish);
    Inside(fill, stroke + finish, 4, |fill|);
    Inside(stroke, finish, 5, |stroke|);
    assert (fill + stroke + finish)[|fill| + |stroke|..] == finish;
  }

  /** The three pieces of a concatenation are recovered by slicing at their boundaries. */
  lemma Pieces(a: seq<Op>, b: seq<Op>, c: seq<Op>)
    requires |b| > 0 && |c| > 0
    ensures (a + b + c)[..|a|] == a
    ensures (a + b + c)[|a|..|a| + |b|] == b
    ensures (a + b + c)[|a|] == b[0] && (a + b + c)[|a| + |b|] == c[0]
  {
  }

  /** A slice within the first part of a concatenation is a slice of that part. */
  lemma Inside(a: seq<Op>, b: seq<Op>, i: int, j: int)
    requires 0 <= i <= j <= |a|
    ensures (a + b)[i..j] == a[i..j]
  {
  }

  /** The six parts of the layers, grouped as fill layer, stroke layer and finish. */
  lemma Regroup(a: seq<Op>, b: seq<Op>, c: seq<Op>, d: seq<Op>, e: seq<Op>, f: seq<Op>)
    ensures a + b + c + d + e + f == (a + (b + c)) + (d + e) + f
  {
  }

  /** The compositor draws nothing exactly when the outer ring has fewer than three points. */
  lemma LipstickSkipsShortRing(outer: seq<Point>, inner: seq<Point>, color: string, opacity: real, variant: Variant)
    ensures LipstickOps(outer, inner, color, opacity, variant) == [] <==> |outer| < 3
  {
  }

  /**
   * The compositor's drawing state is restored: its calls open with `Save`,
   * close with `Restore`, and hold no other `Save` or `Restore` in between.
   */
  lemma LipstickSaveRestoreBalanced(outer: seq<Point>, inner: seq<Point>, color: string, opacity: real, variant: Variant)
    requires |outer| >= 3
    ensures var ops := LipstickOps(outer, inner, color, opacity, variant);
      && |ops| >= 2 && ops[0] == Save && ops[|ops| - 1] == Restore
      && forall k :: 0 < k < |ops| - 1 ==> ops[k] != Save && ops[k] != Restore
  {
    ClosedPathOnlyPathOps(outer);
    CutoutOnlyPathOps(inner);
    LayersBracketed(SmoothClosedPath(outer), CutoutPath(inner), color, opacity, variant);
  }

  /**
   * The compositor saves and restores once, fills once, with the even-odd
   * rule, and strokes once.
   */
  lemma LipstickCounts(outer: seq<Point>, inner: seq<Point>, color: string, opacity: real, variant: Variant)
    requires |outer| >= 3
    ensures var ops := LipstickOps(outer, inner, color, opacity, variant);
      && multiset(ops)[Fill(EvenOdd)] == 1 && multiset(ops)[Fill(NonZero)] == 0
      && multiset(ops)[Stroke] == 1 && multiset(ops)[Save] == 1 && multiset(ops)[Restore] == 1
  {
    var outerPath := SmoothClosedPath(outer);
    var cutout := CutoutPath(inner);
    assert LipstickOps(outer, inner, color, opacity, variant) == Layers(outerPath, cutout, color, opacity, variant);
    ClosedPathOnlyPathOps(outer);
    CutoutOnlyPathOps(inner);
    LayersCounts(outerPath, cutout, color, opacity, variant);
  }

  /**
   * The compositor paints two layers in order: the fill, of a fresh path
   * made of the outer ring's smooth path plus, when the inner ring has more
   * than two points, a second sub-path for the cut-out; then the stroke, of
   * a second fresh path holding the outer ring's smooth path alone.
   */
  lemma LipstickLayers(outer: seq<Point>, inner: seq<Point>, color: string, opacity: real, variant: Variant)
    requires |outer| >= 3
    ensures var ops := LipstickOps(outer, inner, color, opacity, variant);
      exists f, s :: 4 <= f && f + 5 <= s < |ops| - 1
        && ops[3] == BeginPath && ops[4..f] == SmoothClosedPath(outer) + CutoutPath(inner) && ops[f] == Fill(EvenOdd)
        && ops[f + 4] == BeginPath && ops[f + 5..s] == SmoothClosedPath(outer) && ops[s] == Stroke
        && Subpaths(ops[..f]) == (if |inner| > 2 then 2 else 1)
        && Subpaths(ops[f..s]) == 1
  {
    var outerPath := SmoothClosedPath(outer);
    var cutout := CutoutPath(inner);
    assert LipstickOps(outer, inner, color, opacity, variant) == Layers(outerPath, cutout, color, opacity, variant);
    assert Subpaths(outerPath) == 1 by {
      ClosedPathShape(outer);
    }
    CutoutSubpaths(inner);
    LayersShape(outerPath, cutout, color, opacity, variant);
  }

  /** The cutout adds one sub-path exactly when the inner ring has more than two points. */
  lemma CutoutSubpaths(inner: seq<Point>)
    ensures Subpaths(CutoutPath(inner)) == if |inner| > 2 then 1 else 0
  {
    if |inner| > 2 {
      ClosedPathShape(Reverse(inner));
    }
  }

  /**
   * The layers' order as one statement: there are positions of the fill and
   * the stroke such that the fill follows a fresh path made of the outer
   * path and the cut-out, and the stroke a second fresh path made of the
   * outer path alone.
   */
  lemma LayersShape(outerPath: seq<Op>, cutout: seq<Op>, color: string, opacity: real, variant: Variant)
    ensures var ops := Layers(outerPath, cutout, color, opacity, variant);
      exists f, s :: 4 <= f && f + 5 <= s < |ops| - 1
        && ops[3] == BeginPath && ops[4..f] == outerPath + cutout && ops[f] == Fill(EvenOdd)
        && ops[f + 4] == BeginPath && ops[f + 5..s] == outerPath && ops[s] == Stroke
        && Subpaths(ops[..f]) == Subpaths(outerPath) + Subpaths(cutout)
        && Subpaths(ops[f..s]) == Subpaths(outerPath)
  {
    LayersOrder(outerPath, cutout, color, opacity, variant);
    LayersSubpaths(outerPath, cutout, color, opacity, variant);
    var f := 4 + |outerPath| + |cutout|;
    assert 4 <= f && f + 5 <= f + 5 + |outerPath|;
  }

  /**
   * The cutout runs around the inner ring backwards: its sub-path starts at
   * the last inner point and its segments end at the inner points in
   * decreasing order, coming back to the last one.
   */
  lemma CutoutIsReversed(inner: seq<Point>)
    requires |inner| > 2
    ensures var ops := CutoutPath(inner);
      var n := |inner|;
      && |ops| == n + 2
      && ops[0] == MoveTo(inner[n - 1])
      && (forall k :: 0 <= k < n - 1 ==> Segments(Reverse(inner))[k].end == inner[n - 2 - k])
      && Segments(Reverse(inner))[n - 1].end == inner[n - 1]
  {
    var r := Reverse(inner);
    var n := |inner|;
    ClosedPathShape(r);
    forall k | 0 <= k < n - 1 ensures Segments(r)[k].end == inner[n - 2 - k] {
      assert Segments(r)[k] == Segment(r, k);
      assert r[k + 1] == inner[n - 2 - k];
    }
    assert Segments(r)[n - 1] == Segment(r, n - 1);
  }

  /**
   * Draws the lipstick on `ctx`: appends exactly `LipstickOps` to its trace.
   * Without a context nothing happens.
   */
  method DrawLipstick(ctx: Context?, outer: seq<Point>, inner: seq<Point>, color: string, opacity: real, variant: Variant)
    modifies ctx
    ensures ctx != null ==> ctx.trace == old(ctx.trace) + LipstickOps(outer, inner, color, opacity, variant)
  {
    if ctx == null || |outer| < 3 {
      return;
    }
    ghost var t0 := ctx.trace;
    ctx.Emit(Save);
    ctx.Emit(SetGlobalAlpha(opacity));
    ctx.Emit(SetFillStyle(color));
    ctx.Emit(BeginPath);
    ghost var t1 := ctx.trace;
    DrawSmoothClosedPath(ctx, outer);
    if |inner| > 2 {
      DrawSmoothClosedPath(ctx, Reverse(inner));
    }
    ghost var t2 := ctx.trace;
    ctx.Emit(Fill(EvenOdd));
    ctx.Emit(SetFilter("none"));
    ctx.Emit(SetStrokeStyle(StrokeStyle(variant)));
    ctx.Emit(SetLineWidth(LineWidth(variant)));
    ctx.Emit(BeginPath);
    ghost var t3 := ctx.trace;
    DrawSmoothClosedPath(ctx, outer);
    ctx.Emit(Stroke);
    ctx.Emit(Restore);
    LipstickTraceSteps(t0, t1, t2, t3, ctx.trace, outer, inner, color, opacity, variant);
  }

  /** The four stages of `DrawLipstick` put together give `LipstickOps`. */
  lemma LipstickTraceSteps(t0: seq<Op>, t1: seq<Op>, t2: seq<Op>, t3: seq<Op>, t4: seq<Op>,
                           outer: seq<Point>, inner: seq<Point>, color: string, opacity: real, variant: Variant)
    requires |outer| >= 3
    requires t1 == t0 + [Save] + [SetGlobalAlpha(opacity)] + [SetFillStyle(color)] + [BeginPath]
    requires t2 == t1 + SmoothClosedPath(outer) + CutoutPath(inner)
    requires t3 == t2 + [Fill(EvenOdd)] + [SetFilter("none")] + [SetStrokeStyle(StrokeStyle(variant))]
                  + [SetLineWidth(LineWidth(variant))] + [BeginPath]
    requires t4 == t3 + SmoothClosedPath(outer) + [Stroke] + [Restore]
    ensures t4 == t0 + LipstickOps(outer, inner, color, opacity, variant)
  {
    assert t1 == t0 + FillSetup(color, opacity);
    assert t3 == t2 + StrokeSetup(variant);
    assert t4 == t3 + SmoothClosedPath(outer) + StrokeFinish;
    Concat6(t0, FillSetup(color, opacity), SmoothClosedPath(outer), CutoutPath(inner),
            StrokeSetup(variant), SmoothClosedPath(outer), StrokeFinish);
  }

  lemma Concat6(t: seq<Op>, a: seq<Op>, b: seq<Op>, c: seq<Op>, d: seq<Op>, e: seq<Op>, f: seq<Op>)
    ensures (((t + a) + b + c) + d) + e + f == t + (a + b + c + d + e + f)
  {
  }
}
