// The table of Deck instances keyed by instance id, the initial view state
// each instance starts from, and the latitude clamp applied on every view
// change (packages/core/src/deckgl/deckInstance.ts). A Deck is an opaque
// record of what it was constructed with.
module DeckInstance {
  import opened Wrappers

  /** A view state in which every field may be absent (`Partial<MapViewState>`). */
  datatype PartialView = PartialView(longitude: Option<real>, latitude: Option<real>, zoom: Option<real>,
                                     pitch: Option<real>, bearing: Option<real>)

  /** The view state deck.gl hands to `onViewStateChange`: position and zoom are always there. */
  datatype ViewState = ViewState(longitude: real, latitude: real, zoom: real, pitch: Option<real>, bearing: Option<real>)

  datatype Mode = Mode2D | Mode3D

  /** The props passed to `setInstance` that the table reads: the mode and any `initialViewState` among them. */
  datatype DeckProps = DeckProps(mode: Option<Mode>, initialViewState: Option<PartialView>)

  /** What a Deck is constructed with: its canvas, its initial view state and the mode it was made for. */
  datatype DeckRecord = DeckRecord(canvas: string, initialViewState: PartialView, mode: Mode)

  /** `_defaultViewState`. */
  const DefaultView: PartialView := PartialView(Some(0.0), Some(30.0), Some(1.0), Some(0.0), None)

  const EmptyView: PartialView := PartialView(None, None, None, None, None)

  /** Field-wise `{...base, ...over}`: a field present in `over` wins. */
  function Overlay(base: PartialView, over: PartialView): (r: PartialView)
    ensures over.longitude.Some? ==> r.longitude == over.longitude
    ensures over.longitude.None? ==> r.longitude == base.longitude
    ensures over.latitude.Some? ==> r.latitude == over.latitude
    ensures over.latitude.None? ==> r.latitude == base.latitude
    ensures over.zoom.Some? ==> r.zoom == over.zoom
    ensures over.zoom.None? ==> r.zoom == base.zoom
    ensures over.pitch.Some? ==> r.pitch == over.pitch
    ensures over.pitch.None? ==> r.pitch == base.pitch
    ensures over.bearing.Some? ==> r.bearing == over.bearing
    ensures over.bearing.None? ==> r.bearing == base.bearing
  {
    PartialView(if over.longitude.Some? then over.longitude else base.longitude,
                if over.latitude.Some? then over.latitude else base.latitude,
                if over.zoom.Some? then over.zoom else base.zoom,
                if over.pitch.Some? then over.pitch else base.pitch,
                if over.bearing.Some? then over.bearing else base.bearing)
  }

  /** `props?.mode || "2d"`. */
  function ModeOf(props: Option<DeckProps>): (r: Mode)
    ensures props.None? || props.value.mode.None? ==> r == Mode2D
    ensures props.Some? && props.value.mode.Some? ==> r == props.value.mode.value
  {
    if props.Some? && props.value.mode.Some? then props.value.mode.value else Mode2D
  }

  /**
   * The Deck's initial view state: the defaults, then pitch 45 in 3D, then
   * the caller's `initialViewState`; an `initialViewState` among the
   * spread props replaces the whole object.
   */
  function InitialView(initialViewState: PartialView, props: Option<DeckProps>): PartialView
  {
    if props.Some? && props.value.initialViewState.Some? then props.value.initialViewState.value
    else
      var modeView := if ModeOf(props) == Mode3D then EmptyView.(pitch := Some(45.0)) else EmptyView;
      Overlay(Overlay(DefaultView, modeView), initialViewState)
  }

  /**
   * Without an override among the props, every field the caller gives wins;
   * every other field is the default, except that pitch defaults to 45 in
   * 3D; longitude, latitude, zoom and pitch are always set.
   */
  lemma InitialViewFields(initialViewState: PartialView, props: Option<DeckProps>)
    requires props.None? || props.value.initialViewState.None?
    ensures var v := InitialView(initialViewState, props);
            v.longitude == Some(initialViewState.longitude.GetOr(0.0))
            && v.latitude == Some(initialViewState.latitude.GetOr(30.0))
            && v.zoom == Some(initialViewState.zoom.GetOr(1.0))
            && v.pitch == Some(initialViewState.pitch.GetOr(if ModeOf(props) == Mode3D then 45.0 else 0.0))
            && v.bearing == initialViewState.bearing
  {
  }

  /** `Math.max(-30, Math.min(30, latitude))`. */
  function ClampLatitude(latitude: real): (r: real)
    ensures -30.0 <= r <= 30.0
    ensures -30.0 <= latitude <= 30.0 ==> r == latitude
    ensures latitude > 30.0 ==> r == 30.0
    ensures latitude < -30.0 ==> r == -30.0
  {
    var upper := if 30.0 <= latitude then 30.0 else latitude;
    if -30.0 >= upper then -30.0 else upper
  }

  /** The `onViewStateChange` result: the same view state with its latitude clamped. */
  function ViewStateChange(v: ViewState): (r: ViewState)
    ensures -30.0 <= r.latitude <= 30.0
    ensures -30.0 <= v.latitude <= 30.0 ==> r.latitude == v.latitude
    ensures r.longitude == v.longitude && r.zoom == v.zoom && r.pitch == v.pitch && r.bearing == v.bearing
  {
    v.(latitude := ClampLatitude(v.latitude))
  }

  /** Clamping twice is clamping once, and an in-range view passes through unchanged. */
  lemma ViewStateChangeIdempotent(v: ViewState)
    ensures ViewStateChange(ViewStateChange(v)) == ViewStateChange(v)
    ensures -30.0 <= v.latitude <= 30.0 ==> ViewStateChange(v) == v
  {
  }

  function AlreadyExists(id: string): string
  {
    "Instance with id " + id + " already exists"
  }

  function DoesNotExist(id: string): string
  {
    "Instance with id " + id + " does not exist"
  }

  /** The table after `setInstance`, or the error it throws for a taken id. */
  function Registered(m: map<string, DeckRecord>, id: string, canvas: string, initialViewState: PartialView,
                      props: Option<DeckProps>): (r: Result<map<string, DeckRecord>>)
    ensures r.Err? <==> id in m
    ensures r.Err? ==> r.message == AlreadyExists(id)
    ensures r.Ok? ==> id in r.value && r.value - {id} == m
    ensures r.Ok? ==> r.value[id] == DeckRecord(canvas, InitialView(initialViewState, props), ModeOf(props))
  {
    if id in m then Err(AlreadyExists(id))
    else
      var r := m[id := DeckRecord(canvas, InitialView(initialViewState, props), ModeOf(props))];
      assert r - {id} == m;
      Ok(r)
  }

  /** `getInstance`: the registered Deck, or the error for an unknown id. */
  function Lookup(m: map<string, DeckRecord>, id: string): (r: Result<DeckRecord>)
    ensures r.Ok? <==> id in m
    ensures r.Ok? ==> r.value == m[id]
    ensures r.Err? ==> r.message == DoesNotExist(id)
  {
    if id in m then Ok(m[id]) else Err(DoesNotExist(id))
  }

  /** The table after `removeInstance`, or the error for an unknown id. */
  function Removed(m: map<string, DeckRecord>, id: string): (r: Result<map<string, DeckRecord>>)
    ensures r.Ok? <==> id in m
    ensures r.Ok? ==> r.value == m - {id}
    ensures r.Err? ==> r.message == DoesNotExist(id)
  {
    if id in m then Ok(m - {id}) else Err(DoesNotExist(id))
  }

  /**
   * A registered id can be looked up, a second registration of it throws,
   * and once removed it cannot be looked up or removed again; other ids
   * are untouched throughout.
   */
  lemma TableLifecycle(m: map<string, DeckRecord>, id: string, canvas: string, initialViewState: PartialView,
                       props: Option<DeckProps>, other: string)
    requires id !in m && other != id
    ensures var m1 := Registered(m, id, canvas, initialViewState, props).value;
            Lookup(m1, id).Ok?
            && Registered(m1, id, canvas, initialViewState, props).Err?
            && Removed(m1, id).Ok? && Removed(m1, id).value == m
            && Lookup(Removed(m1, id).value, id).Err?
            && Removed(Removed(m1, id).value, id).Err?
            && Lookup(m1, other) == Lookup(m, other)
  {
    var m1 := Registered(m, id, canvas, initialViewState, props).value;
    assert m1 - {id} == m;
  }

  /** The static instance table. */
  class DeckInstanceTable {
    var instances: map<string, DeckRecord>

    constructor ()
      ensures instances == map[]
    {
      instances := map[];
    }

    /** `setInstance`: `None` on success, else the message it throws; the table changes only on success. */
    method SetInstance(id: string, canvas: string, initialViewState: PartialView, props: Option<DeckProps>)
      returns (error: Option<string>)
      modifies this
      ensures var r := Registered(old(instances), id, canvas, initialViewState, props);
              if r.Ok? then error.None? && instances == r.value
              else error == Some(r.message) && instances == old(instances)
    {
      if id in instances {
        return Some(AlreadyExists(id));
      }
      var mode := ModeOf(props);
      var record := DeckRecord(canvas, InitialView(initialViewState, props), mode);
      instances := instances[id := record];
      error := None;
    }

    method GetInstance(id: string) returns (r: Result<DeckRecord>)
      ensures r == Lookup(instances, id)
    {
      if id !in instances {
        return Err(DoesNotExist(id));
      }
      r := Ok(instances[id]);
    }

    /** `removeInstance`: `None` on success, else the message it throws. */
    method RemoveInstance(id: string) returns (error: Option<string>)
      modifies this
      ensures var r := Removed(old(instances), id);
              if r.Ok? then error.None? && instances == r.value
              else error == Some(r.message) && instances == old(instances)
    {
      if id !in instances {
        return Some(DoesNotExist(id));
      }
      instances := instances - {id};
      error := None;
    }
  }
}
