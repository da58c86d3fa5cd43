// The visualisation helpers (packages/core/src/data-visualization.ts): the
// colour stops of the heatmap and contour gradients, the pairing of flow
// lines, greedy clustering with running centres, and the colour gradient
// built by interpolating two hex colours. `Math.sqrt` is a parameter; NaN is
// `None` wherever the source can produce it.
module DataVisualization {
  import opened Wrappers
  import opened GeoTypes
  import opened MapTypes
  import CU = CommonUtils
  import GU = GeoUtils

  // ---------------------------------------------------------------------
  // Colour stops.

  /** One stop of a linear gradient: its offset (`None` when `0 / 0` makes it NaN) and its colour. */
  datatype ColorStop = ColorStop(offset: Option<real>, color: string)

  /** The stops a colour scheme is spread over: stop `i` of `n` sits at `i / (n - 1)`. */
  function ColorStops(scheme: seq<string>): (r: seq<ColorStop>)
    ensures |r| == |scheme|
    ensures forall i :: 0 <= i < |r| ==> r[i].color == scheme[i]
  {
    var n := |scheme|;
    seq(n, i requires 0 <= i < n => ColorStop(if n == 1 then None else Some(i as real / (n - 1) as real), scheme[i]))
  }

  /** With two colours or more the stops run from 0 to 1, strictly increasing. */
  lemma ColorStopsSpread(scheme: seq<string>)
    requires |scheme| >= 2
    ensures var r := ColorStops(scheme);
            r[0].offset == Some(0.0) && r[|r| - 1].offset == Some(1.0)
            && (forall i :: 0 <= i < |r| ==> r[i].offset.Some? && 0.0 <= r[i].offset.value <= 1.0)
            && (forall i, j :: 0 <= i < j < |r| ==> r[i].offset.value < r[j].offset.value)
  {
    var r := ColorStops(scheme);
    var n := |scheme|;
    var d := (n - 1) as real;
    forall i | 0 <= i < n
      ensures r[i].offset == Some(i as real / d)
    {
    }
    StopOffsetEnds(d);
    forall i | 0 <= i < n
      ensures 0.0 <= r[i].offset.value <= 1.0
    {
      GU.DivideBounds(i as real, d, 0.0, 1.0);
    }
    forall i, j | 0 <= i < j < n
      ensures r[i].offset.value < r[j].offset.value
    {
      DivideIncreasing(i as real, j as real, d);
    }
  }

  /** `0 / d` is 0 and `d / d` is 1. */
  lemma StopOffsetEnds(d: real)
    requires d > 0.0
    ensures 0.0 / d == 0.0 && d / d == 1.0
  {
  }

  /** Dividing by a positive number keeps the order. */
  lemma DivideIncreasing(x: real, y: real, d: real)
    requires d > 0.0 && x < y
    ensures x / d < y / d
  {
    assert y / d - x / d == (y - x) / d;
  }

  /** The eleven colours of the heatmap's default scheme. */
  const HeatmapScheme: seq<string> := ["#313695", "#4575b4", "#74add1", "#abd9e9", "#e0f3f8", "#ffffcc",
                                       "#fee090", "#fdae61", "#f46d43", "#d73027", "#a50026"]

  /** The six colours of the contour map's default scheme. */
  const ContourScheme: seq<string> := ["#313695", "#4575b4", "#74add1", "#abd9e9", "#e0f3f8", "#ffffcc"]

  /** The default schemes start at offset 0 with their first colour and end at offset 1 with their last. */
  lemma DefaultStops()
    ensures ColorStops(HeatmapScheme)[0] == ColorStop(Some(0.0), "#313695")
    ensures ColorStops(HeatmapScheme)[10] == ColorStop(Some(1.0), "#a50026")
    ensures ColorStops(ContourScheme)[5] == ColorStop(Some(1.0), "#ffffcc")
  {
    ColorStopsSpread(HeatmapScheme);
    ColorStopsSpread(ContourScheme);
  }

  // ---------------------------------------------------------------------
  // Flow lines.

  /** One line of a flow map: from where, to where, and its value. */
  datatype Flow = Flow(from: Pt, to: Pt, value: real)

  function PlaceOf(d: GeoData): Pt
  {
    Pt(d.lng, d.lat)
  }

  /** `value[2] || 1`: a zero value counts as 1. */
  function FlowValue(d: GeoData): (v: real)
    ensures v != 0.0
    ensures d.value != 0.0 ==> v == d.value
  {
    if d.value == 0.0 then 1.0 else d.value
  }

  /**
   * The data of `createFlowConfig`: the `i`th origin is paired with the
   * `i`th destination, or with the first once the destinations run out. With
   * no destinations at all, reading the first one's value throws.
   */
  function FlowData(fromData: seq<GeoData>, toData: seq<GeoData>): (r: Option<seq<Flow>>)
    ensures r.None? <==> |fromData| > 0 && |toData| == 0
    ensures r.Some? ==> |r.value| == |fromData|
  {
    if |fromData| > 0 && |toData| == 0 then None
    else Some(seq(|fromData|, i requires 0 <= i < |fromData| =>
                Flow(PlaceOf(fromData[i]), PlaceOf(if i < |toData| then toData[i] else toData[0]), FlowValue(fromData[i]))))
  }

  /**
   * Every origin keeps its place and its value, a zero value becoming 1; each is paired with
   * the destination of the same index, or with the first one past the end.
   */
  lemma FlowPairing(fromData: seq<GeoData>, toData: seq<GeoData>, i: nat)
    requires i < |fromData| && |toData| > 0
    ensures var flows := FlowData(fromData, toData).value;
            flows[i].from == PlaceOf(fromData[i])
            && flows[i].value == FlowValue(fromData[i]) && flows[i].value != 0.0
            && (fromData[i].value != 0.0 ==> flows[i].value == fromData[i].value)
            && (i < |toData| ==> flows[i].to == PlaceOf(toData[i]))
            && (i >= |toData| ==> flows[i].to == PlaceOf(toData[0]))
  {
  }

  /** The combined configuration draws its lines from the data to itself: each flow starts and ends at one place. */
  lemma FlowToSelf(data: seq<GeoData>)
    ensures FlowData(data, data).Some?
    ensures forall f :: f in FlowData(data, data).value ==> f.from == f.to
  {
    var flows := FlowData(data, data).value;
    forall f | f in flows
      ensures f.from == f.to
    {
      var i :| 0 <= i < |flows| && flows[i] == f;
    }
  }

  // ---------------------------------------------------------------------
  // Clustering.

  /** A cluster: its centre, its points in the order they joined, and its count. */
  datatype Cluster = Cluster(center: Pt, points: seq<GeoData>, count: int)

  /** The options `clusterData` reads, each defaulted when absent (`maxZoom` is read but never used). */
  datatype ClusterOptions = ClusterOptions(clusterRadius: Option<real>, minPoints: Option<int>)

  function SumLng(points: seq<GeoData>): real
  {
    if |points| == 0 then 0.0 else points[0].lng + SumLng(points[1..])
  }

  function SumLat(points: seq<GeoData>): real
  {
    if |points| == 0 then 0.0 else points[0].lat + SumLat(points[1..])
  }

  /** `calculateCenter`: the mean position, the origin for no points. */
  function CenterOf(points: seq<GeoData>): (c: Pt)
    ensures |points| == 1 ==> c == PlaceOf(points[0])
  {
    if |points| == 0 then Pt(0.0, 0.0)
    else
      assert |points| == 1 ==> points[1..] == [] && SumLng(points) == points[0].lng && SumLat(points) == points[0].lat;
      Pt(SumLng(points) / |points| as real, SumLat(points) / |points| as real)
  }

  lemma {:induction false} SumLngBounds(points: seq<GeoData>, lo: real, hi: real)
    requires forall k :: 0 <= k < |points| ==> lo <= points[k].lng <= hi
    ensures |points| as real * lo <= SumLng(points) <= |points| as real * hi
  {
    if |points| > 0 {
      SumLngBounds(points[1..], lo, hi);
      assert |points| as real * lo == lo + (|points| - 1) as real * lo;
      assert |points| as real * hi == hi + (|points| - 1) as real * hi;
    }
  }

  lemma {:induction false} SumLatBounds(points: seq<GeoData>, lo: real, hi: real)
    requires forall k :: 0 <= k < |points| ==> lo <= points[k].lat <= hi
    ensures |points| as real * lo <= SumLat(points) <= |points| as real * hi
  {
    if |points| > 0 {
      SumLatBounds(points[1..], lo, hi);
      assert |points| as real * lo == lo + (|points| - 1) as real * lo;
      assert |points| as real * hi == hi + (|points| - 1) as real * hi;
    }
  }

  /** The centre of some points lies in any box that holds them all. */
  lemma CenterInBox(points: seq<GeoData>, minLng: real, maxLng: real, minLat: real, maxLat: real)
    requires |points| > 0
    requires forall k :: 0 <= k < |points| ==> minLng <= points[k].lng <= maxLng && minLat <= points[k].lat <= maxLat
    ensures minLng <= CenterOf(points).x <= maxLng && minLat <= CenterOf(points).y <= maxLat
  {
    SumLngBounds(points, minLng, maxLng);
    SumLatBounds(points, minLat, maxLat);
    GU.DivideBounds(SumLng(points), |points| as real, minLng, maxLng);
    GU.DivideBounds(SumLat(points), |points| as real, minLat, maxLat);
  }

  /** `calculateDistance`: the Euclidean distance from a point's position to a centre. */
  function Distance(p: GeoData, c: Pt, sqrt: real -> real): real
  {
    sqrt((p.lng - c.x) * (p.lng - c.x) + (p.lat - c.y) * (p.lat - c.y))
  }

  predicate Near(p: GeoData, c: Pt, radius: real, sqrt: real -> real)
  {
    Distance(p, c, sqrt) <= radius
  }

  /** The index of the first cluster whose centre is within the radius, or the number of clusters if none is. */
  function FirstNear(clusters: seq<Cluster>, p: GeoData, radius: real, sqrt: real -> real): (k: nat)
    ensures k <= |clusters|
    ensures k < |clusters| ==> Near(p, clusters[k].center, radius, sqrt)
    ensures forall j :: 0 <= j < k ==> !Near(p, clusters[j].center, radius, sqrt)
  {
    if |clusters| == 0 then 0
    else if Near(p, clusters[0].center, radius, sqrt) then 0
    else 1 + FirstNear(clusters[1..], p, radius, sqrt)
  }

  /** A cluster after a point joins it: the point appended, the count one more, the centre recomputed. */
  function Joined(c: Cluster, p: GeoData): Cluster
  {
    Cluster(CenterOf(c.points + [p]), c.points + [p], c.count + 1)
  }

  /** A cluster started by a point alone. */
  function Started(p: GeoData): Cluster
  {
    Cluster(PlaceOf(p), [p], 1)
  }

  /** One point placed: it joins the first cluster near it, or starts a new one at the end. */
  function Place(clusters: seq<Cluster>, p: GeoData, radius: real, sqrt: real -> real): seq<Cluster>
  {
    var k := FirstNear(clusters, p, radius, sqrt);
    if k < |clusters| then clusters[k := Joined(clusters[k], p)] else clusters + [Started(p)]
  }

  /** The clusters after placing the points in order, before the small ones are dropped. */
  function Clustered(data: seq<GeoData>, radius: real, sqrt: real -> real): seq<Cluster>
  {
    if |data| == 0 then [] else Place(Clustered(data[..|data| - 1], radius, sqrt), data[|data| - 1], radius, sqrt)
  }

  /** The clusters with at least `minPoints` points, in order. */
  function Large(clusters: seq<Cluster>, minPoints: int): seq<Cluster>
  {
    if |clusters| == 0 then []
    else
      var n := |clusters| - 1;
      Large(clusters[..n], minPoints) + if clusters[n].count >= minPoints then [clusters[n]] else []
  }

  /** The filter keeps exactly the clusters with enough points, and no more than it was given. */
  lemma {:induction false} LargeMembers(clusters: seq<Cluster>, minPoints: int)
    ensures forall c :: c in Large(clusters, minPoints) <==> c in clusters && c.count >= minPoints
    ensures |Large(clusters, minPoints)| <= |clusters|
  {
    if |clusters| > 0 {
      var n := |clusters| - 1;
      LargeMembers(clusters[..n], minPoints);
      assert clusters == clusters[..n] + [clusters[n]];
    }
  }

  /** The result of `clusterData`, with a radius of 50 and at least 2 points by default. */
  function ClusterDataOf(data: seq<GeoData>, options: ClusterOptions, sqrt: real -> real): seq<Cluster>
  {
    Large(Clustered(data, options.clusterRadius.GetOr(50.0), sqrt), options.minPoints.GetOr(2))
  }

  /** A cluster whose count is its number of points, none of them missing, and whose centre is their mean. */
  predicate Consistent(c: Cluster)
  {
    c.count == |c.points| >= 1 && c.center == CenterOf(c.points)
  }

  /** Placing a point keeps every cluster consistent. */
  lemma PlaceConsistent(clusters: seq<Cluster>, p: GeoData, radius: real, sqrt: real -> real)
    requires forall c :: c in clusters ==> Consistent(c)
    ensures forall c :: c in Place(clusters, p, radius, sqrt) ==> Consistent(c)
  {
    var k := FirstNear(clusters, p, radius, sqrt);
    if k < |clusters| {
      assert Consistent(clusters[k]);
      var r := clusters[k := Joined(clusters[k], p)];
      forall c | c in r
        ensures Consistent(c)
      {
        var i :| 0 <= i < |r| && r[i] == c;
        if i != k {
          assert r[i] == clusters[i];
        }
      }
    }
  }

  /** Every cluster formed counts exactly its points and is centred on their mean. */
  lemma {:induction false} ClusteredConsistent(data: seq<GeoData>, radius: real, sqrt: real -> real)
    ensures forall c :: c in Clustered(data, radius, sqrt) ==> Consistent(c)
  {
    if |data| > 0 {
      var n := |data| - 1;
      ClusteredConsistent(data[..n], radius, sqrt);
      PlaceConsistent(Clustered(data[..n], radius, sqrt), data[n], radius, sqrt);
    }
  }

  /** All the points of the clusters, cluster after cluster. */
  function AllPoints(clusters: seq<Cluster>): seq<GeoData>
  {
    if |clusters| == 0 then [] else clusters[0].points + AllPoints(clusters[1..])
  }

  lemma {:induction false} AllPointsAppend(clusters: seq<Cluster>, c: Cluster)
    ensures AllPoints(clusters + [c]) == AllPoints(clusters) + c.points
  {
    if |clusters| == 0 {
      assert clusters + [c] == [c];
      assert AllPoints([c]) == c.points + AllPoints([]);
    } else {
      assert (clusters + [c])[1..] == clusters[1..] + [c];
      AllPointsAppend(clusters[1..], c);
    }
  }

  /** Replacing one cluster by one with a point more adds exactly that point to all the points. */
  lemma {:induction false} AllPointsReplace(clusters: seq<Cluster>, k: nat, c: Cluster, p: GeoData)
    requires k < |clusters| && multiset(c.points) == multiset(clusters[k].points) + multiset{p}
    ensures multiset(AllPoints(clusters[k := c])) == multiset(AllPoints(clusters)) + multiset{p}
  {
    var r := clusters[k := c];
    if k == 0 {
      assert r[1..] == clusters[1..];
    } else {
      assert r[0] == clusters[0];
      assert r[1..] == clusters[1..][k - 1 := c];
      AllPointsReplace(clusters[1..], k - 1, c, p);
    }
  }

  /** Placing a point adds exactly that point to the clusters. */
  lemma PlaceAddsPoint(clusters: seq<Cluster>, p: GeoData, radius: real, sqrt: real -> real)
    ensures multiset(AllPoints(Place(clusters, p, radius, sqrt))) == multiset(AllPoints(clusters)) + multiset{p}
  {
    var k := FirstNear(clusters, p, radius, sqrt);
    if k < |clusters| {
      AllPointsReplace(clusters, k, Joined(clusters[k], p), p);
    } else {
      AllPointsAppend(clusters, Started(p));
    }
  }

  /** Before the small clusters are dropped, every point is in exactly one cluster, once. */
  lemma {:induction false} ClusteredPartition(data: seq<GeoData>, radius: real, sqrt: real -> real)
    ensures multiset(AllPoints(Clustered(data, radius, sqrt))) == multiset(data)
  {
    if |data| > 0 {
      var n := |data| - 1;
      ClusteredPartition(data[..n], radius, sqrt);
      PlaceAddsPoint(Clustered(data[..n], radius, sqrt), data[n], radius, sqrt);
      assert data == data[..n] + [data[n]];
    }
  }

  /** Every cluster returned has at least the minimum number of points and is consistent. */
  lemma ClusterDataLarge(data: seq<GeoData>, options: ClusterOptions, sqrt: real -> real)
    ensures forall c :: c in ClusterDataOf(data, options, sqrt) ==>
              Consistent(c) && c.count >= options.minPoints.GetOr(2)
  {
    ClusteredConsistent(data, options.clusterRadius.GetOr(50.0), sqrt);
    LargeMembers(Clustered(data, options.clusterRadius.GetOr(50.0), sqrt), options.minPoints.GetOr(2));
  }

  /**
   * `clusterData`: each point is compared with the clusters in order and
   * joins the first whose centre is within the radius, whose centre then
   * moves to the mean of its points; a point near none starts a cluster.
   */
  method ClusterData(data: seq<GeoData>, options: ClusterOptions, sqrt: real -> real) returns (r: seq<Cluster>)
    ensures r == ClusterDataOf(data, options, sqrt)
  {
    var clusterRadius := options.clusterRadius.GetOr(50.0);
    var minPoints := options.minPoints.GetOr(2);
    var clusters: seq<Cluster> := [];
    var i := 0;
    while i < |data|
      invariant 0 <= i <= |data|
      invariant clusters == Clustered(data[..i], clusterRadius, sqrt)
    {
      assert data[..i + 1][..i] == data[..i];
      clusters := PlacePoint(clusters, data[i], clusterRadius, sqrt);
      i := i + 1;
    }
    assert data[..i] == data;
    r := KeepLarge(clusters, minPoints);
  }

  /** The body of the outer loop: the point joins the first cluster near it, or starts one. */
  method PlacePoint(clusters: seq<Cluster>, point: GeoData, clusterRadius: real, sqrt: real -> real)
    returns (r: seq<Cluster>)
    ensures r == Place(clusters, point, clusterRadius, sqrt)
  {
    r := clusters;
    var addedToCluster := false;
    var j := 0;
    while j < |r|
      invariant 0 <= j <= |r| && r == clusters && !addedToCluster
      invariant forall m :: 0 <= m < j ==> !Near(point, r[m].center, clusterRadius, sqrt)
    {
      if Distance(point, r[j].center, sqrt) <= clusterRadius {
        var cluster := r[j];
        var points := cluster.points + [point];
        r := r[j := Cluster(CenterOf(points), points, cluster.count + 1)];
        addedToCluster := true;
        break;
      }
      j := j + 1;
    }
    if !addedToCluster {
      r := r + [Started(point)];
    }
  }

  /** `clusters.filter(cluster => cluster.count >= minPoints)`. */
  method KeepLarge(clusters: seq<Cluster>, minPoints: int) returns (r: seq<Cluster>)
    ensures r == Large(clusters, minPoints)
  {
    r := [];
    var k := 0;
    while k < |clusters|
      invariant 0 <= k <= |clusters|
      invariant r == Large(clusters[..k], minPoints)
    {
      assert clusters[..k + 1][..k] == clusters[..k];
      if clusters[k].count >= minPoints {
        r := r + [clusters[k]];
      }
      k := k + 1;
    }
    assert clusters[..k] == clusters;
  }

  // ---------------------------------------------------------------------
  // Colour interpolation and gradients.

  /** `color.replace('#', '')`: the first `#` removed. */
  function DropHash(s: string): (r: string)
    ensures '#' !in s ==> r == s
    ensures |s| > 0 && s[0] == '#' ==> r == s[1..]
  {
    if |s| == 0 then s else if s[0] == '#' then s[1..] else [s[0]] + DropHash(s[1..])
  }

  /** `padStart(2, '0')`. */
  function PadTwo(s: string): (r: string)
    ensures |r| >= 2
    ensures |s| >= 2 ==> r == s
  {
    if |s| >= 2 then s else if |s| == 1 then "0" + s else "00"
  }

  /** A component as text: its hex padded to two digits, or "NaN". */
  function ComponentText(x: Option<int>): string
  {
    if x.None? then "NaN" else PadTwo(CU.IntToHex(x.value))
  }

  /** `Math.round(c1 + (c2 - c1) * ratio)`: NaN when either component or the ratio is. */
  function Channel(c1: Option<int>, c2: Option<int>, ratio: Option<real>): Option<int>
  {
    if c1.Some? && c2.Some? && ratio.Some? then Some(CU.Mix(c1.value, c2.value, ratio.value)) else None
  }

  /** The component read from two characters of a colour: `parseInt(hex.substr(i, 2), 16)`. */
  function ComponentAt(hex: string, i: nat): Option<int>
  {
    CU.ParseIntHex(CU.Slice(hex, i, i + 2))
  }

  /** `interpolateColor`: each of red, green and blue mixed at the ratio, written as hex. */
  function Interpolate(color1: string, color2: string, ratio: Option<real>): string
  {
    var hex1 := DropHash(color1);
    var hex2 := DropHash(color2);
    "#" + ComponentText(Channel(ComponentAt(hex1, 0), ComponentAt(hex2, 0), ratio))
        + ComponentText(Channel(ComponentAt(hex1, 2), ComponentAt(hex2, 2), ratio))
        + ComponentText(Channel(ComponentAt(hex1, 4), ComponentAt(hex2, 4), ratio))
  }

  predicate ByteColor(c: CU.Rgba)
  {
    CU.IsByte(c.r) && CU.IsByte(c.g) && CU.IsByte(c.b)
  }

  /** A byte written as hex and padded is its two lowercase hex digits. */
  lemma PaddedByte(x: int)
    requires CU.IsByte(x)
    ensures ComponentText(Some(x)) == CU.ByteHex(x)
  {
    if x >= 16 {
      assert x / 16 < 16;
      assert CU.NatToHex(x / 16) == [CU.HexDigit(x / 16)];
    }
  }

  /** The components of a colour written by `rgbaToHex` are read back. */
  lemma ComponentsRead(c: CU.Rgba)
    requires ByteColor(c)
    ensures var hex := DropHash(CU.RgbaToHex(c));
            ComponentAt(hex, 0) == Some(c.r) && ComponentAt(hex, 2) == Some(c.g) && ComponentAt(hex, 4) == Some(c.b)
  {
    CU.RgbaToHexShape(c);
    var hex := DropHash(CU.RgbaToHex(c));
    assert hex == CU.ByteHex(c.r) + CU.ByteHex(c.g) + CU.ByteHex(c.b);
    assert CU.Slice(hex, 0, 2) == CU.ByteHex(c.r);
    assert CU.Slice(hex, 2, 4) == CU.ByteHex(c.g);
    assert CU.Slice(hex, 4, 6) == CU.ByteHex(c.b);
    CU.ByteHexParses(c.r);
    CU.ByteHexParses(c.g);
    CU.ByteHexParses(c.b);
  }

  /**
   * Between two byte colours, interpolating the hex text agrees with
   * interpolating the components: the result is the lowercase hex of the
   * mixed colour.
   */
  lemma InterpolateAgrees(c1: CU.Rgba, c2: CU.Rgba, t: real)
    requires ByteColor(c1) && ByteColor(c2) && 0.0 <= t <= 1.0
    ensures ByteColor(CU.InterpolateColor(c1, c2, t))
    ensures Interpolate(CU.RgbaToHex(c1), CU.RgbaToHex(c2), Some(t)) == CU.RgbaToHex(CU.InterpolateColor(c1, c2, t))
  {
    var m := CU.InterpolateColor(c1, c2, t);
    assert ByteColor(m);
    var hex1, hex2 := DropHash(CU.RgbaToHex(c1)), DropHash(CU.RgbaToHex(c2));
    ComponentsRead(c1);
    ComponentsRead(c2);
    assert Channel(ComponentAt(hex1, 0), ComponentAt(hex2, 0), Some(t)) == Some(m.r);
    assert Channel(ComponentAt(hex1, 2), ComponentAt(hex2, 2), Some(t)) == Some(m.g);
    assert Channel(ComponentAt(hex1, 4), ComponentAt(hex2, 4), Some(t)) == Some(m.b);
    PaddedByte(m.r);
    PaddedByte(m.g);
    PaddedByte(m.b);
    CU.RgbaToHexShape(m);
  }

  /** At ratio 0 the start colour comes back, at ratio 1 the end colour. */
  lemma InterpolateEnds(c1: CU.Rgba, c2: CU.Rgba)
    requires ByteColor(c1) && ByteColor(c2)
    ensures Interpolate(CU.RgbaToHex(c1), CU.RgbaToHex(c2), Some(0.0)) == CU.RgbaToHex(c1)
    ensures Interpolate(CU.RgbaToHex(c1), CU.RgbaToHex(c2), Some(1.0)) == CU.RgbaToHex(c2)
  {
    InterpolateAgrees(c1, c2, 0.0);
    InterpolateAgrees(c1, c2, 1.0);
    CU.RgbaToHexShape(c1);
    CU.RgbaToHexShape(c2);
    CU.RgbaToHexShape(CU.InterpolateColor(c1, c2, 0.0));
    CU.RgbaToHexShape(CU.InterpolateColor(c1, c2, 1.0));
  }

  /** The ratio of step `i` as written: `i / (steps - 1)`, NaN for a single step. */
  function RatioAsWritten(i: nat, steps: int): Option<real>
  {
    if steps == 1 then None else Some(i as real / (steps - 1) as real)
  }

  /** `generateColorGradient` as written. */
  function GradientAsWritten(startColor: string, endColor: string, steps: int): (r: seq<string>)
    ensures |r| == if steps > 0 then steps else 0
  {
    var n := if steps > 0 then steps else 0;
    seq(n, i requires 0 <= i < n => Interpolate(startColor, endColor, RatioAsWritten(i, steps)))
  }

  /** A NaN ratio makes every component NaN. */
  lemma InterpolateNaN(color1: string, color2: string)
    ensures Interpolate(color1, color2, None) == "#NaNNaNNaN"
  {
    assert "#" + "NaN" + "NaN" + "NaN" == "#NaNNaNNaN";
  }

  /** As written, a one-step gradient is not the start colour but three NaNs. */
  lemma OneStepGradientAsWritten(c1: CU.Rgba, endColor: string)
    requires ByteColor(c1)
    ensures GradientAsWritten(CU.RgbaToHex(c1), endColor, 1) == ["#NaNNaNNaN"]
    ensures GradientAsWritten(CU.RgbaToHex(c1), endColor, 1) != [CU.RgbaToHex(c1)]
  {
    var start := CU.RgbaToHex(c1);
    var r := GradientAsWritten(start, endColor, 1);
    assert r[0] == Interpolate(start, endColor, RatioAsWritten(0, 1));
    InterpolateNaN(start, endColor);
    CU.RgbaToHexDigits(c1);
    assert "#NaNNaNNaN"[1] == 'N' && 'N' !in CU.HexDigits;
  }

  /** The ratio of step `i`, with a single step taken at ratio 0. */
  function Ratio(i: nat, steps: int): (r: real)
    requires i < steps
    ensures 0.0 <= r <= 1.0
    ensures i == 0 ==> r == 0.0
    ensures i == steps - 1 && steps >= 2 ==> r == 1.0
  {
    if steps == 1 then 0.0
    else
      GU.DivideBounds(i as real, (steps - 1) as real, 0.0, 1.0);
      i as real / (steps - 1) as real
  }

  /** The strings `f(0)`, ..., `f(n - 1)`, in order. */
  function Tabulate(f: nat -> string, n: nat): (r: seq<string>)
    ensures |r| == n
  {
    if n == 0 then [] else Tabulate(f, n - 1) + [f(n - 1)]
  }

  /** Entry `i` of a tabulation is `f(i)`. */
  lemma {:induction false} TabulateAt(f: nat -> string, n: nat)
    ensures forall i :: 0 <= i < n ==> Tabulate(f, n)[i] == f(i)
  {
    if n > 0 {
      TabulateAt(f, n - 1);
    }
  }

  /** Colour `i` of a gradient of `steps` colours. */
  function StepColor(startColor: string, endColor: string, steps: int): nat -> string
  {
    (i: nat) => if i < steps then Interpolate(startColor, endColor, Some(Ratio(i, steps))) else ""
  }

  /** The gradient: `steps` colours from the start colour to the end colour, evenly spaced. */
  function Gradient(startColor: string, endColor: string, steps: int): (r: seq<string>)
    ensures |r| == if steps > 0 then steps else 0
  {
    Tabulate(StepColor(startColor, endColor, steps), if steps > 0 then steps else 0)
  }

  /** Colour `i` of the gradient is the interpolation at ratio `i / (steps - 1)` (at 0 for one step). */
  lemma GradientAt(startColor: string, endColor: string, steps: int, i: nat)
    requires i < steps
    ensures Gradient(startColor, endColor, steps)[i] == Interpolate(startColor, endColor, Some(Ratio(i, steps)))
  {
    TabulateAt(StepColor(startColor, endColor, steps), steps);
  }

  /** The two agree except on a single step. */
  lemma GradientAsWrittenAgrees(startColor: string, endColor: string, steps: int)
    requires steps != 1
    ensures GradientAsWritten(startColor, endColor, steps) == Gradient(startColor, endColor, steps)
  {
    var w, g := GradientAsWritten(startColor, endColor, steps), Gradient(startColor, endColor, steps);
    forall i | 0 <= i < |g|
      ensures w[i] == g[i]
    {
      GradientAt(startColor, endColor, steps, i);
    }
  }

  /**
   * Between two byte colours every colour of the gradient is the hex of the
   * mix at its ratio; the first is the start colour and, with two steps or
   * more, the last is the end colour.
   */
  lemma GradientEnds(c1: CU.Rgba, c2: CU.Rgba, steps: int)
    requires ByteColor(c1) && ByteColor(c2)
    ensures var r := Gradient(CU.RgbaToHex(c1), CU.RgbaToHex(c2), steps);
            (forall i :: 0 <= i < |r| ==> r[i] == CU.RgbaToHex(CU.InterpolateColor(c1, c2, Ratio(i, steps))))
            && (steps >= 1 ==> r[0] == CU.RgbaToHex(c1))
            && (steps >= 2 ==> r[steps - 1] == CU.RgbaToHex(c2))
  {
    var r := Gradient(CU.RgbaToHex(c1), CU.RgbaToHex(c2), steps);
    forall i | 0 <= i < |r|
      ensures r[i] == CU.RgbaToHex(CU.InterpolateColor(c1, c2, Ratio(i, steps)))
    {
      GradientAt(CU.RgbaToHex(c1), CU.RgbaToHex(c2), steps, i);
      InterpolateAgrees(c1, c2, Ratio(i, steps));
    }
    InterpolateEnds(c1, c2);
  }

  /** `generateColorGradient`: one colour per step, pushed in order. */
  method GenerateColorGradient(startColor: string, endColor: string, steps: int) returns (colors: seq<string>)
    ensures colors == Gradient(startColor, endColor, steps)
  {
    colors := [];
    ghost var n := if steps > 0 then steps else 0;
    var i := 0;
    while i < steps
      invariant 0 <= i <= n
      invariant colors == Tabulate(StepColor(startColor, endColor, steps), i)
    {
      var ratio := Ratio(i, steps);
      var color := Interpolate(startColor, endColor, Some(ratio));
      assert color == StepColor(startColor, endColor, steps)(i);
      colors := colors + [color];
      i := i + 1;
    }
  }
}
