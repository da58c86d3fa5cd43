// The ECharts map's drill-down resolver, region hit-testing, hover
// collection and series projection (packages/core/src/echarts-geo/index.ts).
module EchartsGeo {
  import opened Wrappers
  import opened GeoTypes
  import opened MapTypes
  import GeoJson
  import GeoHelper
  import MapState
  import MapRegistry

  const ChinaName: string := "中国"
  const UsaName: string := "美国"
  const ChinaAdcode: string := "100000"
  const UsAdcode: string := "us"
  /** The hyphenated property that carries a region code in Highcharts maps. */
  const PostCodeKey: string := "hc-key"

  /** Beijing, Tianjin, Shanghai and Chongqing: cities with no county level below them. */
  predicate IsMunicipality(adcode: string)
  {
    adcode in {"110000", "120000", "310000", "500000"}
  }

  /** The only countries whose provinces can be opened. */
  predicate SupportedCountry(adcode: string)
  {
    adcode == ChinaAdcode || adcode == UsAdcode
  }

  /**
   * The level a double click opens from `level`, if any. Every descent goes
   * exactly one level down; it is refused at County, on the "南海诸岛" region
   * of a country map, and at City level inside a municipality.
   */
  function CheckMapEntryEligibility(level: MapLevel, name: string, adcode: string): (r: Option<MapLevel>)
    ensures r.Some? ==> GeoHelper.MapLevelMatrix(r.value) == GeoHelper.MapLevelMatrix(level) + 1
    ensures r.None? <==> (level == County || (level == Country && name == "南海诸岛") || (level == City && IsMunicipality(adcode)))
  {
    match level
    case World => Some(Country)
    case Country => if name == "南海诸岛" then None else Some(Province)
    case Province => Some(City)
    case City => if !IsMunicipality(adcode) then Some(County) else None
    case County => None
  }

  /** Index of the first feature whose `properties.name` is `name`. */
  function FindNamed(features: seq<Feature>, name: string): (r: Option<nat>)
    ensures r.None? <==> forall k :: 0 <= k < |features| ==> !NamedAs(features[k], name)
    ensures r.Some? ==> r.value < |features| && NamedAs(features[r.value], name)
    ensures r.Some? ==> forall k :: 0 <= k < r.value ==> !NamedAs(features[k], name)
  {
    if |features| == 0 then None
    else if NamedAs(features[0], name) then Some(0)
    else match FindNamed(features[1..], name)
      case None => None
      case Some(k) => Some(k + 1)
  }

  /** The code read from one feature: `adcode` on the China map, `hc-key` elsewhere. */
  function CodeOf(f: Feature, isChina: bool): string
  {
    if isChina then
      (if TruthyProp(f.properties, "adcode") then PropToString(f.properties["adcode"]) else "")
    else
      (if PostCodeKey in f.properties && f.properties[PostCodeKey].PStr? then f.properties[PostCodeKey].s else "")
  }

  /**
   * `getPostCodeByGeoFeatures`: "" when no feature has the name, otherwise
   * the code of the first feature that does.
   */
  function GetPostCodeByGeoFeatures(features: seq<Feature>, name: string, country: string): (r: string)
    ensures FindNamed(features, name).None? ==> r == ""
    ensures FindNamed(features, name).Some? ==> r == CodeOf(features[FindNamed(features, name).value], country == ChinaAdcode)
  {
    match FindNamed(features, name)
    case None => ""
    case Some(k) => CodeOf(features[k], country == ChinaAdcode)
  }

  /** Only the first feature carrying the name matters: features after it are never read. */
  lemma {:induction false} PostCodeIgnoresLaterFeatures(features: seq<Feature>, more: seq<Feature>, name: string, country: string)
    requires exists k :: 0 <= k < |features| && NamedAs(features[k], name)
    ensures GetPostCodeByGeoFeatures(features + more, name, country) == GetPostCodeByGeoFeatures(features, name, country)
  {
    var k := FindNamed(features, name).value;
    var all := features + more;
    assert all[k] == features[k];
    assert forall j :: 0 <= j < k ==> all[j] == features[j];
    assert forall j :: 0 <= j < k ==> !NamedAs(all[j], name);
  }

  /** What a legal double click does: open `nextLevel` at `nextAdcode`, with `country` set to the clicked region's name. */
  datatype Descent = Descent(nextLevel: MapLevel, nextAdcode: string, country: string)

  /** A geo event's parameters: the clicked area's name and its `region` record. */
  datatype GeoParam = GeoParam(name: string, regionName: Option<string>, regionAdcode: Option<string>)

  /**
   * Whether the double-click handler goes past its two refusals: the level
   * table allows a descent, and it is not Country to Province outside China
   * and the US.
   */
  predicate DescentAllowed(level: MapLevel, adcode: string, name: string)
  {
    CheckMapEntryEligibility(level, name, adcode).Some? && !(level == Country && !SupportedCountry(adcode))
  }

  /** Whether the opened region's code is read from the detail features: always but for World to China or the US. */
  predicate NeedsPostCode(level: MapLevel, name: string)
  {
    !(level == World && (name == ChinaName || name == UsaName))
  }

  /** The code of the region being opened. */
  function NextAdcode(level: MapLevel, name: string, features: seq<Feature>, country: string): string
  {
    if level == World && name == ChinaName then ChinaAdcode
    else if level == World && name == UsaName then UsAdcode
    else GetPostCodeByGeoFeatures(features, name, country)
  }

  /**
   * The decision part of the double-click handler: nothing when the level
   * table refuses, or when a country map other than China or the US would
   * open a province; otherwise the new level, code and country.
   */
  function DescentFor(level: MapLevel, adcode: string, country: string, p: GeoParam, features: seq<Feature>): (r: Option<Descent>)
    ensures r.Some? <==> DescentAllowed(level, adcode, p.name)
    ensures r.Some? ==> r.value.nextLevel == CheckMapEntryEligibility(level, p.name, adcode).value
    ensures r.Some? && level == World && p.name == ChinaName ==> r.value.nextAdcode == ChinaAdcode
    ensures r.Some? && level == World && p.name == UsaName ==> r.value.nextAdcode == UsAdcode
    ensures r.Some? && NeedsPostCode(level, p.name) ==>
              r.value.nextAdcode == GetPostCodeByGeoFeatures(features, p.name, country)
    ensures r.Some? ==> r.value.country == p.regionName.GetOr("")
  {
    match CheckMapEntryEligibility(level, p.name, adcode)
    case None => None
    case Some(next) =>
      if level == Country && next == Province && !SupportedCountry(adcode) then None
      else Some(Descent(next, NextAdcode(level, p.name, features, country), p.regionName.GetOr("")))
  }

  /** On a country map other than China or the US nothing can be opened. */
  lemma UnsupportedCountryStops(adcode: string, country: string, p: GeoParam, features: seq<Feature>)
    requires !SupportedCountry(adcode)
    ensures DescentFor(Country, adcode, country, p, features).None?
  {
  }

  /** Item `businessInfo` of a scatter point: absent, or an object that may carry `siblingPointId`. */
  datatype BusinessInfo = NoInfo | Info(siblingPointId: Option<seq<string>>)

  datatype PointItem = PointItem(name: string, value: Pt, businessInfo: BusinessInfo)

  /** A lines item: its `coords` array and the rest of its fields, opaque. */
  datatype LineItem = LineItem(coords: seq<Pt>, style: nat)

  datatype SeriesData = PointData(points: seq<PointItem>) | LineData(lines: seq<LineItem>) | OpaqueData(tag: nat) | NoData

  datatype Series = Series(kind: Option<string>, data: SeriesData)

  predicate IsScatterKind(kind: Option<string>)
  {
    kind == Some("scatter") || kind == Some("effectScatter")
  }

  /** Series whose `data` has the shape their type promises, as the projection reads it. */
  predicate WellShaped(s: Series)
  {
    (IsScatterKind(s.kind) ==> s.data.PointData?) &&
    (s.kind == Some("lines") ==> s.data.LineData? && forall k :: 0 <= k < |s.data.lines| ==> |s.data.lines[k].coords| >= 2)
  }

  /** One series with its coordinates projected: scatter values, both ends of each line, nothing else. */
  function ProjectSeries(t: Option<GeoJson.Transform>, s: Series): (r: Series)
    requires WellShaped(s)
    ensures r.kind == s.kind
    ensures !IsScatterKind(s.kind) && s.kind != Some("lines") ==> r == s
    ensures IsScatterKind(s.kind) ==> r.data.PointData? && |r.data.points| == |s.data.points|
    ensures IsScatterKind(s.kind) ==> forall k :: 0 <= k < |s.data.points| ==>
              r.data.points[k] == s.data.points[k].(value := GeoJson.LngLatToProjected(t, s.data.points[k].value))
    ensures s.kind == Some("lines") ==> r.data.LineData? && |r.data.lines| == |s.data.lines|
    ensures s.kind == Some("lines") ==> forall k :: 0 <= k < |s.data.lines| ==>
              r.data.lines[k] == s.data.lines[k].(coords := [GeoJson.LngLatToProjected(t, s.data.lines[k].coords[0]),
                                                              GeoJson.LngLatToProjected(t, s.data.lines[k].coords[1])])
  {
    if IsScatterKind(s.kind) then
      Series(s.kind, PointData(seq(|s.data.points|, k requires 0 <= k < |s.data.points| =>
        s.data.points[k].(value := GeoJson.LngLatToProjected(t, s.data.points[k].value)))))
    else if s.kind == Some("lines") then
      Series(s.kind, LineData(seq(|s.data.lines|, k requires 0 <= k < |s.data.lines| =>
        s.data.lines[k].(coords := [GeoJson.LngLatToProjected(t, s.data.lines[k].coords[0]),
                                     GeoJson.LngLatToProjected(t, s.data.lines[k].coords[1])]))))
    else s
  }

  /**
   * `transSeriesCoordinate2GeoJsonXY`: the same number of series, in the
   * same order, each projected on its own.
   */
  function TransSeriesCoordinate2GeoJsonXY(t: Option<GeoJson.Transform>, series: seq<Series>): (r: seq<Series>)
    requires forall k :: 0 <= k < |series| ==> WellShaped(series[k])
    ensures |r| == |series|
    ensures forall k :: 0 <= k < |series| ==> r[k] == ProjectSeries(t, series[k])
  {
    seq(|series|, k requires 0 <= k < |series| => ProjectSeries(t, series[k]))
  }

  /** Without a transform the projection gives the series back unchanged. */
  lemma NoTransformNoChange(series: seq<Series>)
    requires forall k :: 0 <= k < |series| ==> WellShaped(series[k])
    ensures forall k :: 0 <= k < |series| && series[k].kind != Some("lines") ==>
              TransSeriesCoordinate2GeoJsonXY(None, series)[k] == series[k]
  {
    forall k | 0 <= k < |series| && series[k].kind != Some("lines")
      ensures TransSeriesCoordinate2GeoJsonXY(None, series)[k] == series[k]
    {
      var s := series[k];
      if IsScatterKind(s.kind) {
        var r := ProjectSeries(None, s);
        assert r.data.points == s.data.points;
      }
    }
  }

  /**
   * Which series `updateSeries` hands to the chart: unprojected on the China
   * map and on the US country map, projected everywhere else.
   */
  function SeriesForChart(level: MapLevel, adcode: string, country: string, t: Option<GeoJson.Transform>, series: seq<Series>): (r: seq<Series>)
    requires forall k :: 0 <= k < |series| ==> WellShaped(series[k])
    ensures country == ChinaAdcode || (level == Country && adcode == UsAdcode) ==> r == series
    ensures !(country == ChinaAdcode || (level == Country && adcode == UsAdcode)) ==> r == TransSeriesCoordinate2GeoJsonXY(t, series)
  {
    if country == ChinaAdcode then series
    else if level == Country && adcode == UsAdcode then series
    else TransSeriesCoordinate2GeoJsonXY(t, series)
  }

  /**
   * `checkPointInPolygon`: true when the point is inside ring 0 OR outside
   * some later ring. Holes are folded in with `some`, not subtracted.
   */
  function CheckPointInPolygon(p: Pt, rings: seq<Ring>): (r: bool)
    ensures r <==> (|rings| > 0 && GeoJson.InRing(rings[0], p))
                   || (exists k :: 1 <= k < |rings| && !GeoJson.InRing(rings[k], p))
  {
    exists k :: 0 <= k < |rings| && (if k == 0 then GeoJson.InRing(rings[k], p) else !GeoJson.InRing(rings[k], p))
  }

  /** A point inside a hole of a polygon still counts as inside it. */
  lemma HoleDoesNotExclude(p: Pt, outer: Ring, hole: Ring)
    requires GeoJson.InRing(outer, p) && GeoJson.InRing(hole, p)
    ensures CheckPointInPolygon(p, [outer, hole])
  {
  }

  /** A point outside the outer ring still counts when it is outside any hole. */
  lemma OutsideAHoleIncludes(p: Pt, outer: Ring, hole: Ring)
    requires !GeoJson.InRing(hole, p)
    ensures CheckPointInPolygon(p, [outer, hole])
  {
    assert [outer, hole][1] == hole;
  }

  /** `checkPointInFeature`: polygons by the rule above, multipolygons by any polygon, other geometry never. */
  function CheckPointInFeature(p: Pt, g: Geometry): (r: bool)
    ensures g.Polygon? ==> (r <==> CheckPointInPolygon(p, g.rings))
    ensures g.MultiPolygon? ==> (r <==> exists k :: 0 <= k < |g.polygons| && CheckPointInPolygon(p, g.polygons[k]))
    ensures !g.Polygon? && !g.MultiPolygon? ==> !r
  {
    match g
    case Polygon(rs) => CheckPointInPolygon(p, rs)
    case MultiPolygon(ps) => exists k :: 0 <= k < |ps| && CheckPointInPolygon(p, ps[k])
    case _ => false
  }

  /** Index of the first series of type "scatter"; effectScatter series are not looked at. */
  function FirstScatter(series: seq<Series>): (r: Option<nat>)
    ensures r.Some? ==> r.value < |series| && series[r.value].kind == Some("scatter")
    ensures r.Some? ==> forall k :: 0 <= k < r.value ==> series[k].kind != Some("scatter")
    ensures r.None? ==> forall k :: 0 <= k < |series| ==> series[k].kind != Some("scatter")
  {
    if |series| == 0 then None
    else if series[0].kind == Some("scatter") then Some(0)
    else match FirstScatter(series[1..])
      case None => None
      case Some(k) => Some(k + 1)
  }

  /** The ids one point adds to the hover list: its `siblingPointId` array when it lies in the region. */
  function SiblingIds(pt: PointItem, g: Geometry): seq<string>
  {
    if CheckPointInFeature(pt.value, g) && pt.businessInfo.Info? && pt.businessInfo.siblingPointId.Some?
    then pt.businessInfo.siblingPointId.value else []
  }

  /** All ids collected over `points`, in series order. */
  function PointsInRegion(points: seq<PointItem>, g: Geometry): seq<string>
  {
    if |points| == 0 then [] else PointsInRegion(points[..|points| - 1], g) + SiblingIds(points[|points| - 1], g)
  }

  /** The loop of `handleChangeAreaImpl`: the sibling ids of the points inside the region, in series order. */
  method CollectPointsInRegion(points: seq<PointItem>, g: Geometry) returns (pointsInRegion: seq<string>)
    ensures pointsInRegion == PointsInRegion(points, g)
  {
    pointsInRegion := [];
    var i := 0;
    while i < |points|
      invariant 0 <= i <= |points|
      invariant pointsInRegion == PointsInRegion(points[..i], g)
    {
      assert points[..i + 1][..i] == points[..i];
      var point := points[i];
      var isInRegion := CheckPointInFeature(point.value, g);
      if isInRegion && point.businessInfo.Info? && point.businessInfo.siblingPointId.Some? {
        pointsInRegion := pointsInRegion + point.businessInfo.siblingPointId.value;
      }
      i := i + 1;
    }
    assert points[..i] == points;
  }

  /** A point outside the region, or one without sibling ids, adds nothing. */
  lemma {:induction false} PointsInRegionOnlyFromInside(points: seq<PointItem>, g: Geometry, id: string)
    requires id in PointsInRegion(points, g)
    ensures exists k :: 0 <= k < |points| && CheckPointInFeature(points[k].value, g)
                        && points[k].businessInfo.Info? && points[k].businessInfo.siblingPointId.Some?
                        && id in points[k].businessInfo.siblingPointId.value
  {
    var front := points[..|points| - 1];
    if id in PointsInRegion(front, g) {
      PointsInRegionOnlyFromInside(front, g, id);
      var k :| 0 <= k < |front| && CheckPointInFeature(front[k].value, g)
               && front[k].businessInfo.Info? && front[k].businessInfo.siblingPointId.Some?
               && id in front[k].businessInfo.siblingPointId.value;
      assert points[k] == front[k];
    } else {
      assert id in SiblingIds(points[|points| - 1], g);
    }
  }

  /** The area events the map reports to its caller. */
  datatype AreaEvent =
    | HoverArea(hovered: Option<GeoParam>, pointsInRegion: Option<seq<string>>)
      /** `seen*` record the navigation state the handler observed when it was called. */
    | DoubleClickArea(nextLevel: MapLevel, params: GeoParam, seenLevel: MapLevel, seenAdcode: string, seenCountry: string)

  /** Where a double click landed: on the geo component, or elsewhere (series, other). */
  datatype ClickTarget = OnGeo(geo: GeoParam) | OnSeries | OnOther

  /** Centre and zoom of the geo component for a set of coordinates. */
  datatype GeoView = GeoView(center: Option<Pt>, zoom: real)

  /**
   * `getCenterAndZoomByGeometryCoordinates`: the bounding-box midpoint, and
   * min(log2(360 / dLng), log2(180 / dLat)) clamped into [0.5, 6] with each
   * span at least 0.0001; no centre and zoom 1 when there is no coordinate.
   */
  method GetCenterAndZoomByGeometryCoordinates(flat: seq<Pt>, log2: real -> real) returns (v: GeoView)
    ensures |flat| == 0 ==> v == GeoView(None, 1.0)
    ensures |flat| > 0 ==> v.center == Some(GeoHelper.Middle(GeoJson.BoundsOf(flat)))
    ensures 0.5 <= v.zoom <= 6.0 || |flat| == 0
  {
    if |flat| == 0 {
      return GeoView(None, 1.0);
    }
    // b holds [[minLng, minLat], [maxLng, maxLat]], starting from the first pair.
    var b := GeoJson.Box(flat[0], flat[0]);
    // The source's loop also visits the first pair, which leaves b as it is.
    assert GeoJson.Extend(b, flat[0]) == b;
    var i := 1;
    while i < |flat|
      invariant 1 <= i <= |flat|
      invariant b == GeoJson.BoundsOf(flat[..i])
    {
      assert flat[..i + 1][..i] == flat[..i];
      b := GeoJson.Extend(b, flat[i]);
      i := i + 1;
    }
    assert flat[..i] == flat;
    var minLng, maxLng, minLat, maxLat := b.min.x, b.max.x, b.min.y, b.max.y;
    var center := Pt((minLng + maxLng) / 2.0, (minLat + maxLat) / 2.0);
    assert b == GeoJson.BoundsOf(flat);
    assert center == GeoHelper.Middle(b);
    var lngDiff := Max(0.0001, GeoHelper.Abs(maxLng - minLng));
    var latDiff := Max(0.0001, GeoHelper.Abs(maxLat - minLat));
    var zoomLng := log2(360.0 / lngDiff);
    var zoomLat := log2(180.0 / latDiff);
    var zoom := if zoomLng <= zoomLat then zoomLng else zoomLat;
    v := GeoView(Some(center), Max(0.5, Min(zoom, 6.0)));
  }

  function Max(a: real, b: real): real { if a >= b then a else b }
  function Min(a: real, b: real): real { if a <= b then a else b }

  /**
   * `detailGeojson.features`: the features of the map ECharts holds under
   * `name`; none when no map of that name is registered.
   */
  function DetailFeatures(maps: map<string, FeatureCollection>, name: string): (r: Option<seq<Feature>>)
    ensures r.Some? <==> name in maps
    ensures r.Some? ==> r.value == maps[name].features
  {
    if name in maps then Some(maps[name].features) else None
  }

  /**
   * The chart registers its boundary under `detailMap + "-geo"`, a name that
   * is never `detailMap` itself, so that registration never supplies the
   * detail features.
   */
  lemma GeoRegistrationMissesDetail(maps: map<string, FeatureCollection>, detailMap: string, data: FeatureCollection)
    ensures DetailFeatures(maps[detailMap + "-geo" := data], detailMap) == DetailFeatures(maps, detailMap)
  {
    assert |detailMap + "-geo"| == |detailMap| + 4;
  }

  /** The error `getPostCodeByGeoFeatures` raises when it calls `find` on missing features. */
  const FindOnUndefined: string := "TypeError: Cannot read properties of undefined (reading 'find')"

  /** The error `setGEOData` raises when it tests `'coordinates' in` a feature without geometry. */
  const InOnMissingGeometry: string := "TypeError: Cannot use 'in' operator to search for 'coordinates'"

  /**
   * Every position of every feature, feature by feature, as the walk in
   * `getCenterAndZoomByGeometryCoordinates` meets them; none when some
   * feature has no geometry to look into.
   */
  function DetailVertices(features: seq<Feature>): (r: Option<seq<Pt>>)
    ensures r.Some? <==> forall k :: 0 <= k < |features| ==> features[k].geometry.Some?
  {
    if |features| == 0 then Some([])
    else
      var front := DetailVertices(features[..|features| - 1]);
      var last := features[|features| - 1].geometry;
      if front.Some? && last.Some? then Some(front.value + Vertices(last.value)) else None
  }

  /** The geo component of the option `setGEOData` hands to the chart. */
  datatype GeoOption = GeoOption(mapName: string, center: Option<Pt>, zoom: real, borderWidth: nat, shadowBlur: nat)

  class EchartsMap {
    /** The shared navigation state. */
    const state: MapState.MapStateManager
    /** The ECharts module whose registered maps `detailGeojson` reads. */
    const echarts: MapRegistry.ECharts
    /** The name the detail data is looked up under: "" and never reassigned. */
    const detailMap: string
    /** The series currently in the chart option. */
    var series: seq<Series>
    var boundaryLoading: bool
    /** The geo component last handed to the chart, if any. */
    var geoOption: Option<GeoOption>
    /** Every area event reported so far, in order. */
    var emitted: seq<AreaEvent>

    constructor (s: MapState.MapStateManager, e: MapRegistry.ECharts)
      ensures state == s && echarts == e && detailMap == ""
      ensures series == [] && !boundaryLoading && geoOption == None && emitted == []
    {
      state := s;
      echarts := e;
      detailMap := "";
      series := [];
      boundaryLoading := false;
      geoOption := None;
      emitted := [];
    }

    /** `currentMapIsChina`. */
    predicate CurrentMapIsChina()
      reads this, state
    {
      state.country == ChinaAdcode
    }

    /** The detail features, as the `detailGeojson` getter finds them in ECharts. */
    function Detail(): (r: Option<seq<Feature>>)
      reads echarts
      ensures r.Some? <==> detailMap in echarts.maps
    {
      DetailFeatures(echarts.maps, detailMap)
    }

    /**
     * `handleChangeAreaImpl`: with no parameters, `onHoverArea()`; with no
     * scatter series data, no detail features or no feature of that name,
     * nothing; otherwise `onHoverArea(params, ids)` with the sibling ids of
     * the points inside the hovered feature, in series order.
     */
    method HandleChangeArea(params: Option<GeoParam>)
      requires Detail().Some? ==> forall k :: 0 <= k < |Detail().value| ==> Detail().value[k].geometry.Some?
      modifies this`emitted
      ensures params.None? ==> emitted == old(emitted) + [HoverArea(None, None)]
      ensures params.Some? ==>
        var sc := FirstScatter(series);
        var f := if Detail().None? then None else FindNamed(Detail().value, params.value.name);
        if sc.None? || !series[sc.value].data.PointData? || f.None? then emitted == old(emitted)
        else emitted == old(emitted) + [HoverArea(params, Some(PointsInRegion(series[sc.value].data.points,
                                                                              Detail().value[f.value].geometry.value)))]
    {
      if params.None? {
        emitted := emitted + [HoverArea(None, None)];
        return;
      }
      var sc := FirstScatter(series);
      var detail := Detail();
      var f := if detail.None? then None else FindNamed(detail.value, params.value.name);
      if sc.None? || !series[sc.value].data.PointData? || f.None? {
        return;
      }
      var pointsInRegion := CollectPointsInRegion(series[sc.value].data.points, detail.value[f.value].geometry.value);
      emitted := emitted + [HoverArea(params, Some(pointsInRegion))];
    }

    /**
     * `dbClickHandler`: off the geo component, or when no descent is
     * allowed, nothing happens. A descent whose code must be read from the
     * detail features fails with a TypeError when there are none, before
     * anything changes. Otherwise `onDoubleClickArea` is called first
     * (seeing the old state, with `region.adcode` filled in), then
     * `curLevel`, `adcode` and `country` are written in that order, each
     * write notifying its own listeners.
     */
    method DbClick(target: ClickTarget) returns (error: Option<string>)
      modifies this`emitted, state`curLevel, state`adcode, state`country, state`delivered
      ensures !target.OnGeo? ==> error.None? && emitted == old(emitted) && state.delivered == old(state.delivered)
                                 && state.curLevel == old(state.curLevel) && state.adcode == old(state.adcode)
                                 && state.country == old(state.country)
      ensures target.OnGeo? && DescentAllowed(old(state.curLevel), old(state.adcode), target.geo.name)
              && NeedsPostCode(old(state.curLevel), target.geo.name) && Detail().None? ==>
                error == Some(FindOnUndefined) && emitted == old(emitted) && state.delivered == old(state.delivered)
                && state.curLevel == old(state.curLevel) && state.adcode == old(state.adcode)
                && state.country == old(state.country)
      ensures target.OnGeo? && !(DescentAllowed(old(state.curLevel), old(state.adcode), target.geo.name)
                                 && NeedsPostCode(old(state.curLevel), target.geo.name) && Detail().None?) ==>
        var p := target.geo;
        var d := DescentFor(old(state.curLevel), old(state.adcode), old(state.country), p, Detail().GetOr([]));
        error.None? &&
        if d.None? then
          emitted == old(emitted) && state.delivered == old(state.delivered)
          && state.curLevel == old(state.curLevel) && state.adcode == old(state.adcode) && state.country == old(state.country)
        else
          var desc := d.value;
          emitted == old(emitted) + [DoubleClickArea(desc.nextLevel, p.(regionAdcode := Some(desc.nextAdcode)),
                                                     old(state.curLevel), old(state.adcode), old(state.country))]
          && state.curLevel == desc.nextLevel && state.adcode == desc.nextAdcode && state.country == desc.country
          && state.delivered == old(state.delivered)
               + state.Notifications("curLevel", MapState.LevelValue(desc.nextLevel), MapState.LevelValue(old(state.curLevel)))
               + state.Notifications("adcode", MapState.TextValue(desc.nextAdcode), MapState.TextValue(old(state.adcode)))
               + state.Notifications("country", MapState.TextValue(desc.country), MapState.TextValue(old(state.country)))
    {
      error := None;
      if !target.OnGeo? {
        return;
      }
      var params := target.geo;
      var nextLevel := CheckMapEntryEligibility(state.curLevel, params.name, state.adcode);
      if nextLevel.None? {
        return;
      }
      if state.curLevel == Country && nextLevel.value == Province && !SupportedCountry(state.adcode) {
        return;
      }
      var detail := Detail();
      var nextAdCode;
      if state.curLevel == World && params.name == ChinaName {
        nextAdCode := ChinaAdcode;
      } else if state.curLevel == World && params.name == UsaName {
        nextAdCode := UsAdcode;
      } else if detail.None? {
        return Some(FindOnUndefined);
      } else {
        nextAdCode := GetPostCodeByGeoFeatures(detail.value, params.name, state.country);
      }
      ghost var d := DescentFor(state.curLevel, state.adcode, state.country, target.geo, detail.GetOr([]));
      assert d == Some(Descent(nextLevel.value, nextAdCode, params.regionName.GetOr("")));
      params := params.(regionAdcode := Some(nextAdCode));
      emitted := emitted + [DoubleClickArea(nextLevel.value, params, state.curLevel, state.adcode, state.country)];
      state.SetCurLevel(nextLevel.value);
      state.SetAdcode(nextAdCode);
      state.SetCountry(params.regionName.GetOr(""));
    }

    /**
     * `setGEOData`: without detail data only the loading flag is cleared.
     * Otherwise the geo component names `detailMap`, has zoom 1 (the
     * computed scale is never changed from 1, `centralCountry` never being
     * set), a border and no shadow below world level; below country level
     * its centre is the midpoint of the box around every detail position.
     * A feature without geometry makes that computation fail before the
     * flag is cleared.
     */
    method SetGeoData(detail: Option<FeatureCollection>, log2: real -> real) returns (error: Option<string>)
      modifies this`boundaryLoading, this`geoOption
      ensures detail.None? ==> error.None? && !boundaryLoading && geoOption == old(geoOption)
      ensures detail.Some? && state.curLevel != World && state.curLevel != Country
              && DetailVertices(detail.value.features).None? ==>
                error == Some(InOnMissingGeometry) && boundaryLoading == old(boundaryLoading) && geoOption == old(geoOption)
      ensures detail.Some? && (state.curLevel == World || state.curLevel == Country) ==>
                error.None? && !boundaryLoading
                && geoOption == Some(GeoOption(detailMap, None, 1.0, if state.curLevel == World then 0 else 1,
                                               if state.curLevel == World then 1 else 0))
      ensures detail.Some? && state.curLevel != World && state.curLevel != Country
              && DetailVertices(detail.value.features).Some? ==>
                var vs := DetailVertices(detail.value.features).value;
                error.None? && !boundaryLoading
                && geoOption == Some(GeoOption(detailMap, if |vs| == 0 then None else Some(GeoHelper.Middle(GeoJson.BoundsOf(vs))),
                                               1.0, 1, 0))
    {
      error := None;
      if detail.None? {
        boundaryLoading := false;
        return;
      }
      var center: Option<Pt> := None;
      var scale := 1.0;
      if state.curLevel == World {
        // `centralCountry` is never assigned, so the world map keeps no centre and scale 1.
      } else if state.curLevel != Country {
        var vs := DetailVertices(detail.value.features);
        if vs.None? {
          return Some(InOnMissingGeometry);
        }
        var v := GetCenterAndZoomByGeometryCoordinates(vs.value, log2);
        center := v.center;
      }
      var isWorld := state.curLevel == World;
      geoOption := Some(GeoOption(detailMap, center, scale, if isWorld then 0 else 1, if isWorld then 1 else 0));
      boundaryLoading := false;
    }

    /** `findPointByData` falls off its end on every path, so it never finds a point. */
    function FindPointByData(params: PointItem): (r: Option<MapPoint>)
      ensures r.None?
    {
      None
    }
  }
}
