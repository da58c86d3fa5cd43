// Coordinate helpers shared by the packages: the bounding box of a list of
// coordinates and its centre, the zoom cap, the sampled Bézier curve, the
// distance-based curvature and its per-id cache
// (packages/utils/src/coordinate.ts). The great-circle distance and
// `Math.log2` are parameters.
module Coordinate {
  import opened Wrappers
  import opened GeoTypes
  import L2 = Line2D

  /** A bounding box `[[minLng, minLat], [maxLng, maxLat]]`. */
  datatype Bounds = Bounds(min: Pt, max: Pt)

  function Min(a: real, b: real): real { if a <= b then a else b }
  function Max(a: real, b: real): real { if a >= b then a else b }

  /** The running box over the first coordinates, seeded with the first one. */
  function BoxOf(coords: seq<Pt>): Bounds
    requires |coords| > 0
  {
    if |coords| == 1 then Bounds(coords[0], coords[0])
    else
      var b := BoxOf(coords[..|coords| - 1]);
      var p := coords[|coords| - 1];
      Bounds(Pt(Min(b.min.x, p.x), Min(b.min.y, p.y)), Pt(Max(b.max.x, p.x), Max(b.max.y, p.y)))
  }

  /** `getBounds`: all zeros for no coordinates, otherwise the running box. */
  function BoundsOf(coords: seq<Pt>): Bounds
  {
    if |coords| == 0 then Bounds(Pt(0.0, 0.0), Pt(0.0, 0.0)) else BoxOf(coords)
  }

  predicate Inside(b: Bounds, p: Pt)
  {
    b.min.x <= p.x <= b.max.x && b.min.y <= p.y <= b.max.y
  }

  /**
   * The box of a non-empty list has `min <= max`, holds every coordinate,
   * and is tight: each of its four edges is attained by some coordinate.
   */
  lemma {:induction false} BoundsTight(coords: seq<Pt>)
    requires |coords| > 0
    ensures var b := BoundsOf(coords);
            b.min.x <= b.max.x && b.min.y <= b.max.y
            && (forall k :: 0 <= k < |coords| ==> Inside(b, coords[k]))
            && (exists k :: 0 <= k < |coords| && coords[k].x == b.min.x)
            && (exists k :: 0 <= k < |coords| && coords[k].x == b.max.x)
            && (exists k :: 0 <= k < |coords| && coords[k].y == b.min.y)
            && (exists k :: 0 <= k < |coords| && coords[k].y == b.max.y)
  {
    var n := |coords| - 1;
    if n > 0 {
      var init := coords[..n];
      BoundsTight(init);
      assert forall k :: 0 <= k < n ==> init[k] == coords[k];
      var b0 := BoundsOf(init);
      var b := BoundsOf(coords);
      if b.min.x != coords[n].x {
        var k :| 0 <= k < n && init[k].x == b0.min.x;
        assert coords[k].x == b.min.x;
      }
      if b.max.x != coords[n].x {
        var k :| 0 <= k < n && init[k].x == b0.max.x;
        assert coords[k].x == b.max.x;
      }
      if b.min.y != coords[n].y {
        var k :| 0 <= k < n && init[k].y == b0.min.y;
        assert coords[k].y == b.min.y;
      }
      if b.max.y != coords[n].y {
        var k :| 0 <= k < n && init[k].y == b0.max.y;
        assert coords[k].y == b.max.y;
      }
    }
  }

  /** `getBounds`: the loop over the coordinates, seeded with the first. */
  method GetBounds(coords: seq<Pt>) returns (b: Bounds)
    ensures b == BoundsOf(coords)
  {
    if |coords| == 0 {
      return Bounds(Pt(0.0, 0.0), Pt(0.0, 0.0));
    }
    var minLng := coords[0].x;
    var maxLng := coords[0].x;
    var minLat := coords[0].y;
    var maxLat := coords[0].y;
    var i := 1;
    assert coords[..1] == [coords[0]];
    while i < |coords|
      invariant 1 <= i <= |coords|
      invariant BoxOf(coords[..i]) == Bounds(Pt(minLng, minLat), Pt(maxLng, maxLat))
    {
      assert coords[..i + 1][..i] == coords[..i];
      minLng := Min(minLng, coords[i].x);
      maxLng := Max(maxLng, coords[i].x);
      minLat := Min(minLat, coords[i].y);
      maxLat := Max(maxLat, coords[i].y);
      i := i + 1;
    }
    assert coords[..i] == coords;
    b := Bounds(Pt(minLng, minLat), Pt(maxLng, maxLat));
  }

  /** `getBoundsCenter`: the componentwise midpoint, inside any box with `min <= max`. */
  function BoundsCenter(b: Bounds): (c: Pt)
    ensures b.min.x <= b.max.x && b.min.y <= b.max.y ==> Inside(b, c)
    ensures c.x - b.min.x == b.max.x - c.x && c.y - b.min.y == b.max.y - c.y
  {
    Pt((b.min.x + b.max.x) / 2.0, (b.min.y + b.max.y) / 2.0)
  }

  /** The zoom cap. */
  const MaxZoom: real := 18.0

  /**
   * `getZoomFromBounds`: the smaller of `log2(360 / lngSpan)`,
   * `log2(180 / latSpan)` and 18; a zero span divides to Infinity, whose
   * logarithm never wins the minimum.
   */
  function ZoomFromBounds(b: Bounds, log2: real -> real): (z: real)
    ensures z <= MaxZoom
    ensures b.min.x == b.max.x && b.min.y == b.max.y ==> z == MaxZoom
  {
    var lngDiff := if b.max.x >= b.min.x then b.max.x - b.min.x else b.min.x - b.max.x;
    var latDiff := if b.max.y >= b.min.y then b.max.y - b.min.y else b.min.y - b.max.y;
    var lngZoom := if lngDiff == 0.0 then MaxZoom else Min(log2(360.0 / lngDiff), MaxZoom);
    var latZoom := if latDiff == 0.0 then MaxZoom else Min(log2(180.0 / latDiff), MaxZoom);
    Min(lngZoom, latZoom)
  }

  const DefaultCurvature: real := 0.3
  const DefaultSegments: int := 64

  /**
   * `generateBezierPath` with its defaults, curvature 0.3 and 64 segments:
   * the same curve the flow lines draw.
   */
  method GenerateBezierPath(start: Pt, end: Pt, curvature: Option<real>, segments: Option<int>,
                            hypot: (real, real) -> real) returns (path: seq<Pt>)
    requires segments.GetOr(DefaultSegments) != 0
    ensures path == L2.BezierPath(start, end, curvature.GetOr(DefaultCurvature), segments.GetOr(DefaultSegments), hypot)
  {
    var c := curvature.GetOr(DefaultCurvature);
    var n := segments.GetOr(DefaultSegments);
    var length := L2.ChordLength(start, end, hypot);
    var control := L2.ControlPoint(start, end, c, length);
    path := [];
    var i := 0;
    while i <= n
      invariant 0 <= i && (n >= 0 ==> i <= n + 1) && (n < 0 ==> i == 0)
      invariant |path| == i
      invariant forall k :: 0 <= k < i ==> path[k] == L2.BezierAt(start, control, end, k as real / n as real)
    {
      path := path + [L2.BezierAt(start, control, end, i as real / n as real)];
      i := i + 1;
    }
  }

  /** With the default segments the path has 65 points, from the start exactly to the end. */
  lemma DefaultPathShape(start: Pt, end: Pt, curvature: real, hypot: (real, real) -> real)
    ensures var p := L2.BezierPath(start, end, curvature, DefaultSegments, hypot);
            |p| == 65 && p[0] == start && p[64] == end
  {
    L2.BezierPathShape(start, end, curvature, DefaultSegments, hypot);
  }

  /** `calculateCurvature` for a great-circle distance: `min(distance / 1e6, 1) * 0.5`. */
  function DistanceCurvature(distance: real): (c: real)
    ensures 0.0 <= distance ==> 0.0 <= c <= 0.5
    ensures distance >= 1000000.0 ==> c == 0.5
    ensures 0.0 <= distance < 1000000.0 ==> c == distance / 2000000.0
  {
    Min(distance / 1000000.0, 1.0) * 0.5
  }

  /** A longer distance never gives a smaller curvature. */
  lemma DistanceCurvatureMonotone(d1: real, d2: real)
    requires d1 <= d2
    ensures DistanceCurvature(d1) <= DistanceCurvature(d2)
  {
  }

  /** The per-id curvature cache of the utilities package. */
  class CurvatureCalculator {
    var curvatureCache: map<string, real>

    constructor ()
      ensures curvatureCache == map[]
    {
      curvatureCache := map[];
    }

    /**
     * A cached id returns its first value whatever the coordinates; a new
     * id gets the distance-based curvature, which is cached.
     */
    method CalculateCurvatureByCoordinates(id: string, start: Pt, end: Pt, distance: (Pt, Pt) -> real)
      returns (c: real)
      modifies this
      ensures id in old(curvatureCache) ==> c == old(curvatureCache)[id] && curvatureCache == old(curvatureCache)
      ensures id !in old(curvatureCache) ==>
                c == DistanceCurvature(distance(start, end)) && curvatureCache == old(curvatureCache)[id := c]
    {
      if id in curvatureCache {
        return curvatureCache[id];
      }
      c := DistanceCurvature(distance(start, end));
      curvatureCache := curvatureCache[id := c];
    }

    method ClearCache()
      modifies this
      ensures curvatureCache == map[]
    {
      curvatureCache := map[];
    }
  }
}
