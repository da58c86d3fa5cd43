// The deck.gl renderer (packages/core/src/adapters/DeckGLRenderer.ts): the
// FeatureCollection guard, `render` dispatching layers to the map, the data
// setters, its handler registry and `destroy`. As written the class never
// assigns its map, so every call that forwards to it throws; whether a map
// is attached is a field here, and the calls forwarded to an attached map
// are recorded in order.
module DeckGLRenderer {
  import opened Wrappers
  import opened GeoTypes
  import opened MapTypes
  import DA = DeckglAdapter
  import EH = EventHandlers

  /** What `layer.data` or `setGeoData`'s argument may be: not an object at all, or an object with its `type` and `features`. */
  type GeoValue = Option<DA.GeoInput>

  /** `isFeatureCollection`: an object whose type is "FeatureCollection" and whose features are an array. */
  predicate IsFeatureCollection(v: GeoValue)
  {
    v.Some? && v.value.kind == Some("FeatureCollection") && v.value.features.Some?
  }

  /** The deck.gl renderer's layers: points, lines, geography, or a kind it ignores. */
  datatype Layer = PointLayer(points: seq<MapPoint>) | LineLayer(lines: seq<MapLine>) | GeoLayer(data: GeoValue)
                 | OtherLayer(kind: string)

  /** One call made on the map. */
  datatype Forward = SetPoints(points: seq<MapPoint>) | SetLines(lines: seq<MapLine>) | SetGeo(data: FeatureCollection)

  /** The call a layer makes on the map, if any: geography only when it is a FeatureCollection. */
  function ForwardOf(l: Layer): (r: Option<Forward>)
    ensures l.GeoLayer? ==> (r.Some? <==> IsFeatureCollection(l.data))
    ensures l.OtherLayer? ==> r.None?
    ensures l.PointLayer? ==> r == Some(SetPoints(l.points))
    ensures l.LineLayer? ==> r == Some(SetLines(l.lines))
  {
    match l
    case PointLayer(ps) => Some(SetPoints(ps))
    case LineLayer(ls) => Some(SetLines(ls))
    case GeoLayer(d) => if IsFeatureCollection(d) then Some(SetGeo(FeatureCollection(d.value.features.value))) else None
    case OtherLayer(_) => None
  }

  /** The calls `render` makes, in layer order. */
  function Forwards(layers: seq<Layer>): (r: seq<Forward>)
    ensures |r| <= |layers|
  {
    if |layers| == 0 then []
    else
      var front := Forwards(layers[..|layers| - 1]);
      var f := ForwardOf(layers[|layers| - 1]);
      if f.Some? then front + [f.value] else front
  }

  /** A layer list with nothing to forward contributes no call, whatever its length. */
  lemma {:induction false} NothingToForward(layers: seq<Layer>)
    requires forall k :: 0 <= k < |layers| ==> ForwardOf(layers[k]).None?
    ensures Forwards(layers) == []
  {
    if |layers| > 0 {
      var n := |layers| - 1;
      assert forall k :: 0 <= k < n ==> layers[..n][k] == layers[k];
      NothingToForward(layers[..n]);
    }
  }

  /** Every layer that forwards shows up: a point or line layer, or a geo layer holding a FeatureCollection, gives a call. */
  lemma {:induction false} ForwardsCover(layers: seq<Layer>, k: nat)
    requires k < |layers| && ForwardOf(layers[k]).Some?
    ensures ForwardOf(layers[k]).value in Forwards(layers)
  {
    var n := |layers| - 1;
    if k < n {
      assert layers[..n][k] == layers[k];
      ForwardsCover(layers[..n], k);
    }
  }

  const NoMap: string := "TypeError: Cannot read properties of undefined"

  /** The deck.gl renderer. */
  class DeckGLMapRenderer {
    var hasMap: bool
    var forwarded: seq<Forward>
    var mapDestroyed: nat
    var eventHandlers: EH.Handlers

    /** As written: the canvas is created but no map is ever assigned. */
    constructor ()
      ensures !hasMap && forwarded == [] && mapDestroyed == 0 && eventHandlers == map[]
    {
      hasMap := false;
      forwarded := [];
      mapDestroyed := 0;
      eventHandlers := map[];
    }

    /** The same renderer with a map attached, as `initDeckGL` evidently meant to leave it. */
    constructor WithMap()
      ensures hasMap && forwarded == [] && mapDestroyed == 0 && eventHandlers == map[]
    {
      hasMap := true;
      forwarded := [];
      mapDestroyed := 0;
      eventHandlers := map[];
    }

    /**
     * `render`: each layer in order makes its call on the map. Without a map
     * the first such call throws and nothing is forwarded.
     */
    method Render(layers: seq<Layer>) returns (error: Option<string>)
      modifies this`forwarded
      ensures hasMap ==> error.None? && forwarded == old(forwarded) + Forwards(layers)
      ensures !hasMap ==> forwarded == old(forwarded) && (error.Some? <==> |Forwards(layers)| > 0)
      ensures error.Some? ==> error.value == NoMap
    {
      var i := 0;
      while i < |layers|
        invariant 0 <= i <= |layers|
        invariant hasMap ==> forwarded == old(forwarded) + Forwards(layers[..i])
        invariant !hasMap ==> forwarded == old(forwarded) && Forwards(layers[..i]) == []
      {
        assert layers[..i + 1][..i] == layers[..i];
        var f := ForwardOf(layers[i]);
        if f.Some? {
          if !hasMap {
            assert Forwards(layers[..i + 1]) == [f.value];
            ForwardsCover(layers, i);
            return Some(NoMap);
          }
          forwarded := forwarded + [f.value];
        }
        i := i + 1;
      }
      assert layers[..i] == layers;
      return None;
    }

    /** `setGeoData`: a FeatureCollection goes to the map; anything else has no effect. */
    method SetGeoData(data: GeoValue) returns (error: Option<string>)
      modifies this`forwarded
      ensures !IsFeatureCollection(data) ==> error.None? && forwarded == old(forwarded)
      ensures IsFeatureCollection(data) && hasMap ==>
                error.None? && forwarded == old(forwarded) + [SetGeo(FeatureCollection(data.value.features.value))]
      ensures IsFeatureCollection(data) && !hasMap ==> error == Some(NoMap) && forwarded == old(forwarded)
    {
      if IsFeatureCollection(data) {
        if !hasMap {
          return Some(NoMap);
        }
        forwarded := forwarded + [SetGeo(FeatureCollection(data.value.features.value))];
      }
      return None;
    }

    /** `setPoints`: straight to the map. */
    method SetPointsData(points: seq<MapPoint>) returns (error: Option<string>)
      modifies this`forwarded
      ensures hasMap ==> error.None? && forwarded == old(forwarded) + [SetPoints(points)]
      ensures !hasMap ==> error == Some(NoMap) && forwarded == old(forwarded)
    {
      if !hasMap {
        return Some(NoMap);
      }
      forwarded := forwarded + [SetPoints(points)];
      return None;
    }

    /** `setLines`: straight to the map. */
    method SetLinesData(lines: seq<MapLine>) returns (error: Option<string>)
      modifies this`forwarded
      ensures hasMap ==> error.None? && forwarded == old(forwarded) + [SetLines(lines)]
      ensures !hasMap ==> error == Some(NoMap) && forwarded == old(forwarded)
    {
      if !hasMap {
        return Some(NoMap);
      }
      forwarded := forwarded + [SetLines(lines)];
      return None;
    }

    method On(event: string, h: EH.Handler)
      modifies this`eventHandlers
      ensures eventHandlers == EH.On(old(eventHandlers), event, h)
    {
      if event !in eventHandlers {
        eventHandlers := eventHandlers[event := []];
      }
      eventHandlers := eventHandlers[event := eventHandlers[event] + [h]];
    }

    method Off(event: string, h: EH.Handler)
      modifies this`eventHandlers
      ensures eventHandlers == EH.Off(old(eventHandlers), event, h)
    {
      if event in eventHandlers {
        eventHandlers := eventHandlers[event := EH.MS.RemoveFirst(eventHandlers[event], h)];
      }
    }

    /** `destroy`: an attached map is destroyed; every handler is forgotten. */
    method Destroy()
      modifies this`mapDestroyed, this`eventHandlers
      ensures mapDestroyed == if hasMap then old(mapDestroyed) + 1 else old(mapDestroyed)
      ensures eventHandlers == map[]
    {
      if hasMap {
        mapDestroyed := mapDestroyed + 1;
      }
      eventHandlers := map[];
    }
  }

  /** As written, rendering a point layer throws: the renderer has no map. */
  method RenderWithoutMap(points: seq<MapPoint>) returns (error: Option<string>)
    ensures error == Some(NoMap)
  {
    var r := new DeckGLMapRenderer();
    assert Forwards([PointLayer(points)]) == [SetPoints(points)] by {
      assert [PointLayer(points)][..0] == [];
    }
    error := r.Render([PointLayer(points)]);
  }

  /** With a map attached, the same render forwards the points. */
  method RenderWithMap(points: seq<MapPoint>) returns (error: Option<string>, calls: seq<Forward>)
    ensures error.None? && calls == [SetPoints(points)]
  {
    var r := new DeckGLMapRenderer.WithMap();
    assert Forwards([PointLayer(points)]) == [SetPoints(points)] by {
      assert [PointLayer(points)][..0] == [];
    }
    error := r.Render([PointLayer(points)]);
    calls := r.forwarded;
  }
}
