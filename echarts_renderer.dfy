// The ECharts renderer adapter (packages/core/src/adapters/EChartsRenderer.ts):
// the event guards and the payloads its map callbacks emit, `render` building
// scatter and lines series, its handler registry and `destroy`. The ECharts
// map it drives is reduced to the calls made on it, recorded in order;
// `setMapLevel` fetches data and is left out.
module EChartsRenderer {
  import opened Wrappers
  import opened GeoTypes
  import opened MapTypes
  import opened JsMath
  import opened CommonUtils
  import EH = EventHandlers

  /** JavaScript truthiness. */
  predicate Truthy(v: JsValue)
  {
    match v
    case Undefined => false
    case Null => false
    case Num(n) => n != 0.0
    case Str(s) => s != ""
    case Bool(b) => b
    case _ => true
  }

  /** `typeof v === "object"`: null, dates, arrays and plain objects. */
  predicate IsObject(v: JsValue)
  {
    v.Null? || v.Date? || v.Arr? || v.Obj?
  }

  /** Reading property `key`: an object's first own property of that name, undefined on anything else. */
  function Get(v: JsValue, key: string): JsValue
  {
    match v
    case Obj(props) => PropOf(props, key)
    case _ => Undefined
  }

  function PropOf(props: seq<Prop>, key: string): JsValue
  {
    if |props| == 0 then Undefined else if props[0].key == key then props[0].value else PropOf(props[1..], key)
  }

  function Index(v: JsValue, k: nat): JsValue
  {
    if v.Arr? && k < |v.items| then v.items[k] else Undefined
  }

  /** `isPointEventParams`: an object whose coordinate is absent or an array starting with two numbers, and whose data is absent or an object. */
  predicate IsPointEventParams(params: JsValue)
  {
    Truthy(params) && IsObject(params)
    && (var c := Get(params, "coordinate");
        !Truthy(c) || (c.Arr? && Index(c, 0).Num? && Index(c, 1).Num?))
    && (var d := Get(params, "data"); !Truthy(d) || IsObject(d))
  }

  /** `isAreaEventParams`: an object whose region is absent or an object. */
  predicate IsAreaEventParams(params: JsValue)
  {
    Truthy(params) && IsObject(params) && (var r := Get(params, "region"); !Truthy(r) || IsObject(r))
  }

  /** The guard accepts exactly the objects whose region is missing, falsy or an object. */
  lemma AreaGuardCases(params: JsValue)
    ensures !IsObject(params) || params.Null? ==> !IsAreaEventParams(params)
    ensures params.Obj? ==> (IsAreaEventParams(params) <==> !Truthy(Get(params, "region")) || IsObject(Get(params, "region")))
    ensures params.Arr? ==> IsAreaEventParams(params)
  {
  }

  /** What the renderer emits for a map event. */
  datatype Payload = Payload(coordinate: JsValue, feature: JsValue, properties: JsValue)

  const Origin: JsValue := Arr([Num(0.0), Num(0.0)])

  /** The payload of a point click or hover: the coordinate when the guard passes and it is set, else `[0, 0]`. */
  function PointPayload(params: JsValue): (p: Payload)
    ensures !IsPointEventParams(params) ==> p == Payload(Origin, Undefined, Undefined)
    ensures IsPointEventParams(params) && Truthy(Get(params, "coordinate")) ==> p.coordinate == Get(params, "coordinate")
    ensures IsPointEventParams(params) ==> p.feature == Get(params, "data")
  {
    var ok := IsPointEventParams(params);
    var coord := if ok && Truthy(Get(params, "coordinate")) then Get(params, "coordinate") else Origin;
    var data := if ok then Get(params, "data") else Undefined;
    Payload(coord, data, if data.Null? || data.Undefined? then Undefined else Get(data, "properties"))
  }

  /** The payload of an area event: `[0, 0]`, the params themselves, and their region when the guard passes. */
  function AreaPayload(params: JsValue): (p: Payload)
    ensures p.coordinate == Origin && p.feature == params
    ensures p.properties == if IsAreaEventParams(params) then Get(params, "region") else Undefined
  {
    Payload(Origin, params, if IsAreaEventParams(params) then Get(params, "region") else Undefined)
  }

  /** `rgba(<channels>)` for a colour array, the default blue without one. */
  function ColorText(color: Option<seq<int>>): (s: string)
    ensures color.None? ==> s == "#1890ff"
    ensures color.Some? ==> |s| >= 6 && s[..5] == "rgba(" && s[|s| - 1] == ')'
  {
    if color.Some? then "rgba(" + ArrayText(color.value) + ")" else "#1890ff"
  }

  /** One scatter item: named by the point's id, valued by its coordinate. */
  datatype PointItem = PointItem(name: string, value: Pt, raw: MapPoint, symbol: string, color: string)

  /** One lines item: straight (curveness 0), two wide, opaque. */
  datatype LineItem = LineItem(name: string, raw: MapLine, coords: (Pt, Pt), color: string,
                               width: real, opacity: real, curveness: real)

  datatype Series = Scatter(points: seq<PointItem>) | Lines(lines: seq<LineItem>)

  /** The layers `render` is given: points, lines, geography, or a kind it ignores. */
  datatype Layer = PointLayer(points: seq<MapPoint>) | LineLayer(lines: seq<MapLine>) | GeoLayer(data: FeatureCollection)
                 | OtherLayer(kind: string)

  /** `point.icon || "circle"`. */
  function SymbolOf(icon: Option<string>): (s: string)
    ensures icon.Some? && icon.value != "" ==> s == icon.value
    ensures icon.None? || icon == Some("") ==> s == "circle"
  {
    if icon.Some? && icon.value != "" then icon.value else "circle"
  }

  /** `addPointSeries`: one scatter item per point, in order. */
  function PointSeries(points: seq<MapPoint>): (r: Series)
    ensures r.Scatter? && |r.points| == |points|
    ensures forall k :: 0 <= k < |points| ==>
              r.points[k] == PointItem(points[k].id, points[k].coordinate, points[k], SymbolOf(points[k].icon), ColorText(points[k].color))
  {
    Scatter(seq(|points|, k requires 0 <= k < |points| =>
      PointItem(points[k].id, points[k].coordinate, points[k], SymbolOf(points[k].icon), ColorText(points[k].color))))
  }

  /** `addLineSeries`: one item per line from its start to its end, width 2, opacity 1, curveness 0. */
  function LineSeries(lines: seq<MapLine>): (r: Series)
    ensures r.Lines? && |r.lines| == |lines|
    ensures forall k :: 0 <= k < |lines| ==>
              r.lines[k] == LineItem(lines[k].id, lines[k], (lines[k].start, lines[k].end), ColorText(lines[k].color), 2.0, 1.0, 0.0)
  {
    Lines(seq(|lines|, k requires 0 <= k < |lines| =>
      LineItem(lines[k].id, lines[k], (lines[k].start, lines[k].end), ColorText(lines[k].color), 2.0, 1.0, 0.0)))
  }

  /** The series `render` collects: one per point or line layer, in layer order. */
  function SeriesOf(layers: seq<Layer>): (r: seq<Series>)
    ensures |r| <= |layers|
  {
    if |layers| == 0 then []
    else
      var front := SeriesOf(layers[..|layers| - 1]);
      match layers[|layers| - 1]
      case PointLayer(ps) => front + [PointSeries(ps)]
      case LineLayer(ls) => front + [LineSeries(ls)]
      case _ => front
  }

  /** The geography `render` hands to the map: each geo layer's data, in layer order. */
  function GeoOf(layers: seq<Layer>): (r: seq<FeatureCollection>)
    ensures |r| <= |layers|
  {
    if |layers| == 0 then []
    else
      var front := GeoOf(layers[..|layers| - 1]);
      match layers[|layers| - 1]
      case GeoLayer(d) => front + [d]
      case _ => front
  }

  /** A layer kind `render` does not know contributes nothing. */
  lemma {:induction false} OtherLayersIgnored(layers: seq<Layer>, kind: string)
    ensures SeriesOf(layers + [OtherLayer(kind)]) == SeriesOf(layers)
    ensures GeoOf(layers + [OtherLayer(kind)]) == GeoOf(layers)
  {
    assert (layers + [OtherLayer(kind)])[..|layers|] == layers;
  }

  /** Rendering a concatenation collects the series of each part, in order. */
  lemma {:induction false} SeriesOfAppend(a: seq<Layer>, b: seq<Layer>)
    ensures SeriesOf(a + b) == SeriesOf(a) + SeriesOf(b)
    decreases |b|
  {
    if |b| == 0 {
      assert a + b == a;
    } else {
      var n := |b| - 1;
      assert (a + b)[..|a + b| - 1] == a + b[..n];
      assert b[..|b| - 1] == b[..n];
      SeriesOfAppend(a, b[..n]);
    }
  }

  /** And the geography of each part, in order. */
  lemma {:induction false} GeoOfAppend(a: seq<Layer>, b: seq<Layer>)
    ensures GeoOf(a + b) == GeoOf(a) + GeoOf(b)
    decreases |b|
  {
    if |b| == 0 {
      assert a + b == a;
    } else {
      var n := |b| - 1;
      assert (a + b)[..|a + b| - 1] == a + b[..n];
      assert b[..|b| - 1] == b[..n];
      GeoOfAppend(a, b[..n]);
    }
  }

  /** The ECharts renderer. */
  class EChartsMapRenderer {
    var eventHandlers: EH.Handlers
    var calls: seq<EH.Call<Payload>>
    var seriesUpdates: seq<seq<Series>>
    var geoDataSet: seq<FeatureCollection>
    var levelWrites: seq<MapLevel>
    var mapDestroyed: nat

    constructor ()
      ensures eventHandlers == map[] && calls == [] && seriesUpdates == [] && geoDataSet == []
      ensures levelWrites == [] && mapDestroyed == 0
    {
      eventHandlers := map[];
      calls := [];
      seriesUpdates := [];
      geoDataSet := [];
      levelWrites := [];
      mapDestroyed := 0;
    }

    /**
     * `render`: the layers in order; geography goes to the map at once, the
     * series are collected and handed over in one update when there are any.
     */
    method Render(layers: seq<Layer>)
      modifies this
      ensures geoDataSet == old(geoDataSet) + GeoOf(layers)
      ensures seriesUpdates == if |SeriesOf(layers)| > 0 then old(seriesUpdates) + [SeriesOf(layers)] else old(seriesUpdates)
      ensures eventHandlers == old(eventHandlers) && calls == old(calls) && levelWrites == old(levelWrites)
      ensures mapDestroyed == old(mapDestroyed)
    {
      var series: seq<Series> := [];
      var i := 0;
      while i < |layers|
        invariant 0 <= i <= |layers|
        invariant series == SeriesOf(layers[..i])
        invariant geoDataSet == old(geoDataSet) + GeoOf(layers[..i])
        invariant eventHandlers == old(eventHandlers) && calls == old(calls) && levelWrites == old(levelWrites)
        invariant seriesUpdates == old(seriesUpdates) && mapDestroyed == old(mapDestroyed)
      {
        assert layers[..i + 1][..i] == layers[..i];
        match layers[i] {
          case PointLayer(ps) =>
            series := series + [PointSeries(ps)];
          case LineLayer(ls) =>
            series := series + [LineSeries(ls)];
          case GeoLayer(d) =>
            geoDataSet := geoDataSet + [d];
          case OtherLayer(_) =>
        }
        i := i + 1;
      }
      assert layers[..i] == layers;
      if |series| > 0 {
        seriesUpdates := seriesUpdates + [series];
      }
    }

    /** `setPoints`: a render of one point layer. */
    method SetPoints(points: seq<MapPoint>)
      modifies this
      ensures seriesUpdates == old(seriesUpdates) + [[PointSeries(points)]]
      ensures geoDataSet == old(geoDataSet) && eventHandlers == old(eventHandlers) && calls == old(calls)
      ensures levelWrites == old(levelWrites) && mapDestroyed == old(mapDestroyed)
    {
      assert [PointLayer(points)][..0] == [];
      assert SeriesOf([PointLayer(points)]) == [PointSeries(points)];
      Render([PointLayer(points)]);
    }

    /** `setLines`: a render of one line layer. */
    method SetLines(lines: seq<MapLine>)
      modifies this
      ensures seriesUpdates == old(seriesUpdates) + [[LineSeries(lines)]]
      ensures geoDataSet == old(geoDataSet) && eventHandlers == old(eventHandlers) && calls == old(calls)
      ensures levelWrites == old(levelWrites) && mapDestroyed == old(mapDestroyed)
    {
      assert [LineLayer(lines)][..0] == [];
      assert SeriesOf([LineLayer(lines)]) == [LineSeries(lines)];
      Render([LineLayer(lines)]);
    }

    /** `setGeoData`: handed to the map as both boundary and detail. */
    method SetGeoData(data: FeatureCollection)
      modifies this`geoDataSet
      ensures geoDataSet == old(geoDataSet) + [data]
    {
      geoDataSet := geoDataSet + [data];
    }

    method On(event: string, h: EH.Handler)
      modifies this`eventHandlers
      ensures eventHandlers == EH.On(old(eventHandlers), event, h)
    {
      if event !in eventHandlers {
        eventHandlers := eventHandlers[event := []];
      }
      eventHandlers := eventHandlers[event := eventHandlers[event] + [h]];
    }

    method Off(event: string, h: EH.Handler)
      modifies this`eventHandlers
      ensures eventHandlers == EH.Off(old(eventHandlers), event, h)
    {
      if event in eventHandlers {
        eventHandlers := eventHandlers[event := EH.MS.RemoveFirst(eventHandlers[event], h)];
      }
    }

    /** `emit`: every handler of the event, in registration order. */
    method Emit(event: string, data: Payload)
      modifies this`calls
      ensures calls == old(calls) + EH.Emit(eventHandlers, event, data)
    {
      var hs := EH.HandlersOf(eventHandlers, event);
      var i := 0;
      while i < |hs|
        invariant 0 <= i <= |hs|
        invariant calls == old(calls) + EH.Emit(eventHandlers, event, data)[..i]
      {
        assert EH.Emit(eventHandlers, event, data)[..i + 1] == EH.Emit(eventHandlers, event, data)[..i] + [EH.Call(hs[i], event, data)];
        calls := calls + [EH.Call(hs[i], event, data)];
        i := i + 1;
      }
      assert EH.Emit(eventHandlers, event, data)[..i] == EH.Emit(eventHandlers, event, data);
    }

    /** The map's point-click callback: a "click" with the point payload. */
    method OnClickPoint(params: JsValue)
      modifies this`calls
      ensures calls == old(calls) + EH.Emit(eventHandlers, "click", PointPayload(params))
    {
      Emit("click", PointPayload(params));
    }

    /** The map's point-hover callback: a "hover" with the point payload. */
    method OnHoverPoint(params: JsValue)
      modifies this`calls
      ensures calls == old(calls) + EH.Emit(eventHandlers, "hover", PointPayload(params))
    {
      Emit("hover", PointPayload(params));
    }

    /** The map's area-click callback: a "click" with the area payload. */
    method OnClickArea(params: JsValue)
      modifies this`calls
      ensures calls == old(calls) + EH.Emit(eventHandlers, "click", AreaPayload(params))
    {
      Emit("click", AreaPayload(params));
    }

    /** The map's area double-click callback: the next level is written to the navigation state, then a "doubleClick". */
    method OnDoubleClickArea(nextLevel: MapLevel, params: JsValue)
      modifies this`calls, this`levelWrites
      ensures levelWrites == old(levelWrites) + [nextLevel]
      ensures calls == old(calls) + EH.Emit(eventHandlers, "doubleClick", AreaPayload(params))
    {
      levelWrites := levelWrites + [nextLevel];
      Emit("doubleClick", AreaPayload(params));
    }

    /** The map's area-hover callback: a "hover" with the area payload. */
    method OnHoverArea(params: JsValue)
      modifies this`calls
      ensures calls == old(calls) + EH.Emit(eventHandlers, "hover", AreaPayload(params))
    {
      Emit("hover", AreaPayload(params));
    }

    /** `destroy`: the map is destroyed and every handler forgotten. */
    method Destroy()
      modifies this`mapDestroyed, this`eventHandlers
      ensures mapDestroyed == old(mapDestroyed) + 1 && eventHandlers == map[]
    {
      mapDestroyed := mapDestroyed + 1;
      eventHandlers := map[];
    }
  }
}
