// Ray casting, projection, centroid and bounds over GeoJSON values
// (packages/utils/src/geoJson.ts).
module GeoJson {
  import opened Wrappers
  import opened GeoTypes

  /** Index of the vertex before `i` on a closed ring: the ring's last vertex for i = 0. */
  function Prev(n: nat, i: nat): nat
    requires i < n
  {
    if i == 0 then n - 1 else i - 1
  }

  /**
   * The edge from vertex Prev(i) to vertex i straddles the horizontal line
   * through `p`, and crosses it strictly to the right of `p`. The straddle
   * makes the two y values differ, so the division is defined.
   */
  predicate EdgeCrosses(ring: Ring, p: Pt, i: nat)
    requires i < |ring|
  {
    var a := ring[i];
    var b := ring[Prev(|ring|, i)];
    (a.y > p.y) != (b.y > p.y) && p.x < CrossX(a, b, p.y)
  }

  /** Where the line through `a` and `b` meets the horizontal line at height `y`. */
  function CrossX(a: Pt, b: Pt, y: real): real
    requires a.y != b.y
  {
    (b.x - a.x) * (y - a.y) / (b.y - a.y) + a.x
  }

  /** Number of crossing edges among the edges ending at vertices 0 .. k-1. */
  function Crossings(ring: Ring, p: Pt, k: nat): nat
    requires k <= |ring|
  {
    if k == 0 then 0 else Crossings(ring, p, k - 1) + (if EdgeCrosses(ring, p, k - 1) then 1 else 0)
  }

  /** The even-odd rule: `p` is inside iff an odd number of edges cross the ray to its right. */
  predicate InRing(ring: Ring, p: Pt)
  {
    Crossings(ring, p, |ring|) % 2 == 1
  }

  /** Ray casting as the source writes it: one pass that flips `inside` on each crossing. */
  method IsPointInPolygon(p: Pt, ring: Ring) returns (inside: bool)
    ensures inside == InRing(ring, p)
    ensures |ring| == 0 ==> !inside
  {
    inside := false;
    var i := 0;
    var j := |ring| - 1;
    while i < |ring|
      invariant 0 <= i <= |ring|
      invariant i < |ring| ==> j == Prev(|ring|, i)
      invariant inside == (Crossings(ring, p, i) % 2 == 1)
    {
      var a := ring[i];
      var b := ring[j];
      if (a.y > p.y) != (b.y > p.y) && p.x < CrossX(a, b, p.y) {
        inside := !inside;
      }
      j := i;
      i := i + 1;
    }
  }

  /** No edge of a ring lying wholly above the point's horizontal line crosses its ray. */
  lemma {:induction false} AboveRingNoCrossing(ring: Ring, p: Pt, k: nat)
    requires k <= |ring|
    requires forall v :: v in ring ==> v.y > p.y
    ensures Crossings(ring, p, k) == 0
  {
    if k > 0 {
      AboveRingNoCrossing(ring, p, k - 1);
      assert ring[k - 1] in ring && ring[Prev(|ring|, k - 1)] in ring;
    }
  }

  /** A point strictly below every vertex of a ring is outside it. */
  lemma BelowEveryVertexIsOutside(ring: Ring, p: Pt)
    requires forall v :: v in ring ==> v.y > p.y
    ensures !InRing(ring, p)
  {
    AboveRingNoCrossing(ring, p, |ring|);
  }

  /** An edge that straddles the line through `p` meets it between its two end x values. */
  lemma UnitFraction(e: real, d: real)
    requires 0.0 < d && 0.0 <= e <= d
    ensures 0.0 <= e / d <= 1.0
  {
  }

  lemma CrossingBetweenEnds(a: Pt, b: Pt, p: Pt)
    requires (a.y > p.y) != (b.y > p.y)
    ensures CrossX(a, b, p.y) <= a.x || CrossX(a, b, p.y) <= b.x
  {
    var d := b.y - a.y;
    var e := p.y - a.y;
    var t := e / d;
    if d > 0.0 {
      UnitFraction(e, d);
    } else {
      UnitFraction(-e, -d);
      assert t == (-e) / (-d);
    }
    var w := b.x - a.x;
    assert w * e / d == w * t;
    assert CrossX(a, b, p.y) == w * t + a.x;
    if w >= 0.0 {
      assert w * t <= w;
    } else {
      assert w * t <= 0.0;
    }
  }

  lemma {:induction false} RightOfRingNoCrossing(ring: Ring, p: Pt, k: nat)
    requires k <= |ring|
    requires forall v :: v in ring ==> v.x <= p.x
    ensures Crossings(ring, p, k) == 0
  {
    if k > 0 {
      RightOfRingNoCrossing(ring, p, k - 1);
      var a, b := ring[k - 1], ring[Prev(|ring|, k - 1)];
      assert a in ring && b in ring;
      if (a.y > p.y) != (b.y > p.y) {
        CrossingBetweenEnds(a, b, p);
      }
    }
  }

  /** A point at or to the right of every vertex of a ring is outside it. */
  lemma RightOfEveryVertexIsOutside(ring: Ring, p: Pt)
    requires forall v :: v in ring ==> v.x <= p.x
    ensures !InRing(ring, p)
  {
    RightOfRingNoCrossing(ring, p, |ring|);
  }

  /** Every polygon of a geometry carries at least its outer ring. */
  predicate HasOuterRings(g: Geometry)
  {
    match g
    case Polygon(rs) => |rs| > 0
    case MultiPolygon(ps) => forall k :: 0 <= k < |ps| ==> |ps[k]| > 0
    case _ => true
  }

  /**
   * Point in feature by the outer ring only: holes are never consulted, a
   * multipolygon holds the point when any of its outer rings does, and every
   * other geometry type holds no point.
   */
  function IsPointInFeature(p: Pt, g: Geometry): (r: bool)
    requires HasOuterRings(g)
    ensures r <==> ((g.Polygon? && InRing(g.rings[0], p)) ||
                    (g.MultiPolygon? && exists k :: 0 <= k < |g.polygons| && InRing(g.polygons[k][0], p)))
  {
    match g
    case Polygon(rs) => InRing(rs[0], p)
    case MultiPolygon(ps) => exists k :: 0 <= k < |ps| && InRing(ps[k][0], p)
    case _ => false
  }

  /** Holes do not matter: replacing every ring but the outer one leaves the answer unchanged. */
  lemma HolesIgnored(p: Pt, outer: Ring, holes1: seq<Ring>, holes2: seq<Ring>)
    ensures IsPointInFeature(p, Polygon([outer] + holes1)) == IsPointInFeature(p, Polygon([outer] + holes2))
  {
  }

  /** The `hc-transform.default` block of a Highcharts map: per-axis scale and offset. */
  datatype Transform = Transform(scale: Pt, translate: Pt)

  /** Projects [lng, lat] with the transform; without one the input comes back as it was. */
  function LngLatToProjected(t: Option<Transform>, lngLat: Pt): (r: Pt)
    ensures t.None? ==> r == lngLat
    ensures t.Some? ==> (r.x - t.value.translate.x == lngLat.x * t.value.scale.x &&
                         r.y - t.value.translate.y == lngLat.y * t.value.scale.y)
  {
    match t
    case None => lngLat
    case Some(tr) => Pt(lngLat.x * tr.scale.x + tr.translate.x, lngLat.y * tr.scale.y + tr.translate.y)
  }

  /** Undoes a projection whose scales are non-zero. */
  function ProjectedToLngLat(tr: Transform, q: Pt): Pt
    requires tr.scale.x != 0.0 && tr.scale.y != 0.0
  {
    Pt((q.x - tr.translate.x) / tr.scale.x, (q.y - tr.translate.y) / tr.scale.y)
  }

  /** A transform with non-zero scales loses no information. */
  lemma ProjectionRoundTrip(tr: Transform, p: Pt)
    requires tr.scale.x != 0.0 && tr.scale.y != 0.0
    ensures ProjectedToLngLat(tr, LngLatToProjected(Some(tr), p)) == p
  {
    var q := LngLatToProjected(Some(tr), p);
    assert (q.x - tr.translate.x) / tr.scale.x == p.x;
    assert (q.y - tr.translate.y) / tr.scale.y == p.y;
  }

  /** The cross term x_i*y_j - x_j*y_i of the edge ending at vertex i. */
  function Cross(ring: Ring, i: nat): real
    requires i < |ring|
  {
    CrossTerm(ring[i], ring[Prev(|ring|, i)])
  }

  function CrossTerm(a: Pt, b: Pt): real
  {
    a.x * b.y - b.x * a.y
  }

  function XMoment(a: Pt, b: Pt): real
  {
    (a.x + b.x) * CrossTerm(a, b)
  }

  function YMoment(a: Pt, b: Pt): real
  {
    (a.y + b.y) * CrossTerm(a, b)
  }

  /** Twice the signed area accumulated over the edges ending at vertices 0 .. k-1. */
  function AreaSum(ring: Ring, k: nat): real
    requires k <= |ring|
  {
    if k == 0 then 0.0 else AreaSum(ring, k - 1) + Cross(ring, k - 1)
  }

  function XSum(ring: Ring, k: nat): real
    requires k <= |ring|
  {
    if k == 0 then 0.0 else XSum(ring, k - 1) + XMoment(ring[k - 1], ring[Prev(|ring|, k - 1)])
  }

  function YSum(ring: Ring, k: nat): real
    requires k <= |ring|
  {
    if k == 0 then 0.0 else YSum(ring, k - 1) + YMoment(ring[k - 1], ring[Prev(|ring|, k - 1)])
  }

  /**
   * The area centroid of the outer ring by the shoelace formula; [0, 0] when
   * there is no outer ring, it is empty, or its signed area is zero.
   */
  function Centroid(coordinates: seq<Ring>): Pt
  {
    if |coordinates| == 0 || |coordinates[0]| == 0 then Pt(0.0, 0.0)
    else
      var ring := coordinates[0];
      var area := AreaSum(ring, |ring|) * 0.5;
      if area == 0.0 then Pt(0.0, 0.0)
      else Pt(XSum(ring, |ring|) / (6.0 * area), YSum(ring, |ring|) / (6.0 * area))
  }

  method GetPolygonCenter(coordinates: seq<Ring>) returns (c: Pt)
    ensures c == Centroid(coordinates)
    ensures |coordinates| == 0 || |coordinates[0]| == 0 ==> c == Pt(0.0, 0.0)
  {
    if |coordinates| == 0 {
      return Pt(0.0, 0.0);
    }
    var ring := coordinates[0];
    if |ring| == 0 {
      return Pt(0.0, 0.0);
    }
    var x, y, area := 0.0, 0.0, 0.0;
    var i, j := 0, |ring| - 1;
    while i < |ring|
      invariant 0 <= i <= |ring|
      invariant i < |ring| ==> j == Prev(|ring|, i)
      invariant area == AreaSum(ring, i) && x == XSum(ring, i) && y == YSum(ring, i)
    {
      area := area + CrossTerm(ring[i], ring[j]);
      x := x + XMoment(ring[i], ring[j]);
      y := y + YMoment(ring[i], ring[j]);
      j := i;
      i := i + 1;
    }
    area := area * 0.5;
    c := if area == 0.0 then Pt(0.0, 0.0) else Pt(x / (6.0 * area), y / (6.0 * area));
  }

  /** The centre of a rectangle with non-zero sides, listed corner by corner, is the midpoint of its diagonal. */
  lemma RectangleCentroid(a: real, b: real, c: real, d: real)
    requires a != c && b != d
    ensures Centroid([[Pt(a, b), Pt(c, b), Pt(c, d), Pt(a, d)]]) == Pt((a + c) / 2.0, (b + d) / 2.0)
  {
    var ring := [Pt(a, b), Pt(c, b), Pt(c, d), Pt(a, d)];
    FourSums(ring);
    RectangleMoments(a, b, c, d);
  }

  /** The shoelace sums of a four-vertex ring, term by term. */
  lemma FourSums(ring: Ring)
    requires |ring| == 4
    ensures AreaSum(ring, 4) == CrossTerm(ring[0], ring[3]) + CrossTerm(ring[1], ring[0])
                                + CrossTerm(ring[2], ring[1]) + CrossTerm(ring[3], ring[2])
    ensures XSum(ring, 4) == XMoment(ring[0], ring[3]) + XMoment(ring[1], ring[0])
                             + XMoment(ring[2], ring[1]) + XMoment(ring[3], ring[2])
    ensures YSum(ring, 4) == YMoment(ring[0], ring[3]) + YMoment(ring[1], ring[0])
                             + YMoment(ring[2], ring[1]) + YMoment(ring[3], ring[2])
  {
    assert AreaSum(ring, 1) == CrossTerm(ring[0], ring[3]);
    assert XSum(ring, 1) == XMoment(ring[0], ring[3]);
    assert YSum(ring, 1) == YMoment(ring[0], ring[3]);
    assert AreaSum(ring, 3) == AreaSum(ring, 1) + CrossTerm(ring[1], ring[0]) + CrossTerm(ring[2], ring[1]);
    assert XSum(ring, 3) == XSum(ring, 1) + XMoment(ring[1], ring[0]) + XMoment(ring[2], ring[1]);
    assert YSum(ring, 3) == YSum(ring, 1) + YMoment(ring[1], ring[0]) + YMoment(ring[2], ring[1]);
  }

  /** The shoelace sums of the rectangle: twice its signed area `p`, and 3p times the sum of its opposite corners' coordinates. */
  lemma RectangleMoments(a: real, b: real, c: real, d: real)
    requires a != c && b != d
    ensures var p0, p1, p2, p3 := Pt(a, b), Pt(c, b), Pt(c, d), Pt(a, d);
            var area := (CrossTerm(p0, p3) + CrossTerm(p1, p0) + CrossTerm(p2, p1) + CrossTerm(p3, p2)) * 0.5;
            && area != 0.0
            && (XMoment(p0, p3) + XMoment(p1, p0) + XMoment(p2, p1) + XMoment(p3, p2)) / (6.0 * area) == (a + c) / 2.0
            && (YMoment(p0, p3) + YMoment(p1, p0) + YMoment(p2, p1) + YMoment(p3, p2)) / (6.0 * area) == (b + d) / 2.0
  {
    var p := (a - c) * (d - b);
    var c0, c1, c2, c3 := a * (d - b), b * (c - a), c * (b - d), d * (a - c);
    assert p != 0.0;
    assert p == a * d - a * b - c * d + c * b;
    assert c0 + c1 + c2 + c3 == 2.0 * p;
    assert 2.0 * a * c0 + (c + a) * c1 + 2.0 * c * c2 + (a + c) * c3 == 3.0 * p * (a + c);
    assert (b + d) * c0 + 2.0 * b * c1 + (d + b) * c2 + 2.0 * d * c3 == 3.0 * p * (b + d);
  }

  /** A bounding box [[minX, minY], [maxX, maxY]]. */
  datatype Box = Box(min: Pt, max: Pt)

  predicate Contains(b: Box, v: Pt)
  {
    b.min.x <= v.x <= b.max.x && b.min.y <= v.y <= b.max.y
  }

  /** The box after one more `Math.min`/`Math.max` step with vertex `v`. */
  function Extend(b: Box, v: Pt): Box
  {
    Box(Pt(if v.x < b.min.x then v.x else b.min.x, if v.y < b.min.y then v.y else b.min.y),
        Pt(if v.x > b.max.x then v.x else b.max.x, if v.y > b.max.y then v.y else b.max.y))
  }

  /** The box around a non-empty list of vertices, grown one vertex at a time. */
  function BoundsOf(vs: seq<Pt>): (b: Box)
    requires |vs| > 0
    ensures b.min.x <= b.max.x && b.min.y <= b.max.y
  {
    if |vs| == 1 then Box(vs[0], vs[0])
    else Extend(BoundsOf(vs[..|vs| - 1]), vs[|vs| - 1])
  }

  /** The box is the tightest one: it contains every vertex, and each of its four edges is reached by some vertex. */
  lemma {:induction false} BoundsOfTight(vs: seq<Pt>)
    requires |vs| > 0
    ensures var b := BoundsOf(vs);
            && (forall v :: v in vs ==> Contains(b, v))
            && (exists v :: v in vs && v.x == b.min.x)
            && (exists v :: v in vs && v.x == b.max.x)
            && (exists v :: v in vs && v.y == b.min.y)
            && (exists v :: v in vs && v.y == b.max.y)
  {
    if |vs| > 1 {
      var front := vs[..|vs| - 1];
      assert vs == front + [vs[|vs| - 1]];
      BoundsOfTight(front);
    }
  }

  /**
   * Bounds of a geometry's vertices. With no vertex the source returns its
   * +/-Infinity start values; that case is None here.
   */
  method GetBounds(g: Geometry) returns (r: Option<Box>)
    ensures r.None? <==> |Vertices(g)| == 0
    ensures r.Some? ==> r.value == BoundsOf(Vertices(g))
  {
    var vs := Vertices(g);
    if |vs| == 0 {
      return None;
    }
    var b := Box(vs[0], vs[0]);
    var i := 1;
    while i < |vs|
      invariant 1 <= i <= |vs|
      invariant b == BoundsOf(vs[..i])
    {
      assert vs[..i + 1][..i] == vs[..i];
      b := Extend(b, vs[i]);
      i := i + 1;
    }
    assert vs[..i] == vs;
    r := Some(b);
  }

  /** A collection holding exactly the given features; with none given it is empty. */
  function CreateFeatureCollection(features: Option<seq<Feature>>): (r: FeatureCollection)
    ensures features.None? ==> r.features == []
    ensures features.Some? ==> r.features == features.value
  {
    FeatureCollection(features.GetOr([]))
  }
}
