// The registry of deck.gl layers by slot id, updated in place, and the
// fixed order in which the slots are handed to the Deck instance
// (packages/core/src/deckgl/layerManager.ts).
module LayerManager {
  import opened Wrappers
  import opened GeoTypes

  /**
   * What can be handed to the registry: a layer instance (its class and
   * its props) or a plain object literal of props.
   */
  datatype LayerLike = Instance(ctor: string, props: map<string, PropVal>) | PlainObject(fields: map<string, PropVal>)

  /** `layer.props ?? {}`: a plain object has no `props` member. */
  function PropsOf(v: LayerLike): map<string, PropVal>
  {
    match v
    case Instance(_, p) => p
    case PlainObject(_) => map[]
  }

  /** The slots `getLayers` reads, in order. */
  const SlotOrder: seq<string> := ["geojson-layer", "point-layer", "line-layer", "line-trail-layer"]

  /** The guard as intended: only real layer instances, not object literals. */
  predicate IsLayerInstance(v: LayerLike)
  {
    v.Instance?
  }

  /** Replacing a slot with an instance: rebuilt with `id = slot` when its own string id differs, else as given. */
  function Replacement(id: string, v: LayerLike): (r: LayerLike)
    ensures r.Instance? <==> v.Instance?
    ensures v.Instance? ==> r.ctor == v.ctor
    ensures "id" in PropsOf(v) && PropsOf(v)["id"].PStr? ==> "id" in PropsOf(r) && PropsOf(r)["id"] == PStr(id)
    ensures !("id" in PropsOf(v) && PropsOf(v)["id"].PStr? && PropsOf(v)["id"] != PStr(id)) ==> r == v
  {
    var props := PropsOf(v);
    if "id" in props && props["id"].PStr? && props["id"].s != id then
      match v
      case Instance(c, p) => Instance(c, p["id" := PStr(id)])
      case PlainObject(_) => v
    else v
  }

  /**
   * A props patch: rebuilt with the old layer's constructor from the old
   * props, then the patch, then `id = slot`, later entries winning.
   */
  function Patched(id: string, prev: LayerLike, patch: map<string, PropVal>): (r: LayerLike)
    ensures r.Instance? <==> prev.Instance?
    ensures prev.Instance? ==> r.ctor == prev.ctor
    ensures "id" in PropsOf(r) || r.PlainObject?
    ensures r.Instance? ==> PropsOf(r)["id"] == PStr(id)
    ensures r.Instance? ==> forall k :: k in patch && k != "id" ==> k in PropsOf(r) && PropsOf(r)[k] == patch[k]
    ensures r.Instance? ==> forall k :: k in PropsOf(prev) && k !in patch && k != "id" ==> k in PropsOf(r) && PropsOf(r)[k] == PropsOf(prev)[k]
    ensures r.Instance? ==> forall k :: k in PropsOf(r) ==> k in PropsOf(prev) || k in patch || k == "id"
  {
    var merged := PropsOf(prev) + patch + map["id" := PStr(id)];
    match prev
    case Instance(c, _) => Instance(c, merged)
    // `new Object(obj)` returns `obj` itself, so the merged literal is stored.
    case PlainObject(_) => PlainObject(merged)
  }

  /** The registry after `updateLayer(id, arg)` with the intended guard. */
  function Updated(m: map<string, LayerLike>, id: string, arg: LayerLike): (r: map<string, LayerLike>)
    ensures forall k :: k != id ==> (k in r <==> k in m) && (k in m ==> r[k] == m[k])
    ensures id !in m && arg.Instance? ==> id in r && r[id] == arg
    ensures id !in m && !arg.Instance? ==> r == m
    ensures id in m && arg.Instance? ==> id in r && r[id] == Replacement(id, arg)
    ensures id in m && arg.PlainObject? ==> id in r && r[id] == Patched(id, m[id], arg.fields)
  {
    if id !in m then (if IsLayerInstance(arg) then m[id := arg] else m)
    else if IsLayerInstance(arg) then m[id := Replacement(id, arg)]
    else m[id := Patched(id, m[id], arg.fields)]
  }

  /**
   * The registry after `updateLayer(id, arg)` as written. Its guard
   * `isLayerInstance` asks for a non-null object with a `constructor`
   * member that is a function; every object literal inherits one (the
   * `Object` function), so every argument takes the instance branches and
   * the merge branch is never reached.
   */
  function UpdatedAsWritten(m: map<string, LayerLike>, id: string, arg: LayerLike): (r: map<string, LayerLike>)
    ensures forall k :: k != id ==> (k in r <==> k in m) && (k in m ==> r[k] == m[k])
    ensures id in r && r[id] == (if id in m then Replacement(id, arg) else arg)
  {
    if id !in m then m[id := arg] else m[id := Replacement(id, arg)]
  }

  /**
   * As written, a props patch on an existing slot throws the layer away
   * and stores the bare patch object: here the patch `{visible: false}`
   * replaces a path layer, which the intended merge would have kept.
   */
  lemma PatchReplacesLayerAsWritten()
    ensures var before := Instance("PathLayer", map["id" := PStr("line-layer"), "visible" := PBool(true)]);
            var patch := PlainObject(map["visible" := PBool(false)]);
            var m := map["line-layer" := before];
            UpdatedAsWritten(m, "line-layer", patch)["line-layer"] == patch
            && Updated(m, "line-layer", patch)["line-layer"] ==
               Instance("PathLayer", map["id" := PStr("line-layer"), "visible" := PBool(false)])
  {
    var before := Instance("PathLayer", map["id" := PStr("line-layer"), "visible" := PBool(true)]);
    var merged := PropsOf(before) + map["visible" := PBool(false)] + map["id" := PStr("line-layer")];
    assert merged == map["id" := PStr("line-layer"), "visible" := PBool(false)];
  }

  /** For layer instances the two guards agree, so every caller that passes instances sees no difference. */
  lemma InstancesUnaffected(m: map<string, LayerLike>, id: string, arg: LayerLike)
    requires arg.Instance?
    ensures UpdatedAsWritten(m, id, arg) == Updated(m, id, arg)
  {
  }

  /**
   * With the intended guard, a patch on an existing layer keeps its class,
   * lets the patch win over the old props, and pins the slot id.
   */
  lemma PatchMergesIntoLayer(m: map<string, LayerLike>, id: string, patch: map<string, PropVal>)
    requires id in m && m[id].Instance?
    ensures var r := Updated(m, id, PlainObject(patch))[id];
            r.Instance? && r.ctor == m[id].ctor && r.props == m[id].props + patch + map["id" := PStr(id)]
  {
  }

  /** The registry after `addLayer(id, layer)`: a fresh id stores the layer; a taken one is an update. */
  function Added(m: map<string, LayerLike>, id: string, layer: LayerLike): (r: map<string, LayerLike>)
    ensures id !in m ==> r == m[id := layer]
    ensures id in m ==> r == Updated(m, id, layer)
  {
    if id in m then Updated(m, id, layer) else m[id := layer]
  }

  /**
   * Whatever was in an occupied slot, updating it with an instance or a
   * patch leaves a layer whose string id, if it has one, is the slot's.
   */
  lemma UpdateKeepsSlotId(m: map<string, LayerLike>, id: string, arg: LayerLike)
    requires id in m
    requires arg.Instance? || m[id].Instance?
    ensures var r := Updated(m, id, arg)[id];
            "id" in PropsOf(r) && PropsOf(r)["id"].PStr? ==> PropsOf(r)["id"] == PStr(id)
  {
  }

  /** Removing deletes only that slot, and removing twice is removing once. */
  lemma RemoveIdempotent(m: map<string, LayerLike>, id: string)
    ensures (m - {id}) - {id} == m - {id}
    ensures id !in m - {id}
    ensures forall k :: k != id ==> (k in m - {id} <==> k in m) && (k in m ==> (m - {id})[k] == m[k])
  {
  }

  /** `layerMap.get(id)`: the layer in a slot, `None` (undefined) when it is empty. */
  function SlotValue(m: map<string, LayerLike>, id: string): Option<LayerLike>
  {
    if id in m then Some(m[id]) else None
  }

  class MapLayerManager {
    var layers: map<string, LayerLike>

    constructor ()
      ensures layers == map[]
    {
      layers := map[];
    }

    method AddLayer(id: string, layer: LayerLike)
      modifies this
      ensures layers == Added(old(layers), id, layer)
    {
      if id in layers {
        UpdateLayer(id, layer);
        return;
      }
      layers := layers[id := layer];
    }

    method UpdateLayer(id: string, arg: LayerLike)
      modifies this
      ensures layers == Updated(old(layers), id, arg)
    {
      if id !in layers {
        if IsLayerInstance(arg) {
          layers := layers[id := arg];
        }
        return;
      }
      var oldLayer := layers[id];
      if IsLayerInstance(arg) {
        var incomingProps := PropsOf(arg);
        if "id" in incomingProps && incomingProps["id"].PStr? && incomingProps["id"].s != id {
          layers := layers[id := Instance(arg.ctor, incomingProps["id" := PStr(id)])];
        } else {
          layers := layers[id := arg];
        }
        return;
      }
      var merged := PropsOf(oldLayer) + arg.fields + map["id" := PStr(id)];
      var newLayer := if oldLayer.Instance? then Instance(oldLayer.ctor, merged) else PlainObject(merged);
      layers := layers[id := newLayer];
    }

    method RemoveLayer(id: string)
      modifies this
      ensures layers == old(layers) - {id}
    {
      if id in layers {
        layers := layers - {id};
      }
    }

    /** The four slots in order, `None` (undefined) where a slot is empty. */
    function GetLayers(): (r: seq<Option<LayerLike>>)
      reads this
      ensures |r| == 4
      ensures forall k :: 0 <= k < 4 ==>
                (r[k].Some? <==> SlotOrder[k] in layers) && (r[k].Some? ==> r[k].value == layers[SlotOrder[k]])
    {
      [SlotValue(layers, SlotOrder[0]), SlotValue(layers, SlotOrder[1]),
       SlotValue(layers, SlotOrder[2]), SlotValue(layers, SlotOrder[3])]
    }
  }
}
