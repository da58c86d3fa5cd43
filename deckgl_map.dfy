// The deck.gl map controller: the logical animation clock that drives the
// flow lines, the point selection, the icon-layer data and the icon
// registry (packages/core/src/deckgl/index.ts). deck.gl layers are opaque
// records carrying their slot id; what the controller built each layer
// from (icon data, curves, dots, the arc window) is kept in fields.
module GlMap {
  import opened Wrappers
  import opened GeoTypes
  import opened MapTypes
  import opened LayerManager
  import IA = IconAtlas
  import L2 = Line2D
  import DI = DeckInstance
  import CurvatureCalc

  /** Logical seconds the clock advances per tick. */
  const AnimationSpeed: nat := 60
  /** The visible trail of the 3D arcs, in logical seconds. */
  const TrailLength: nat := 3600
  /** The clock loops every six logical hours. */
  const TimeLoop: nat := 21600

  /** One tick: `(currentTime + ANIMATION_SPEED) % TIME_LOOP`. */
  function Tick(t: nat): nat
  {
    (t + AnimationSpeed) % TimeLoop
  }

  /** The values the clock can hold: inside one loop, on a whole tick. */
  predicate ClockValue(t: int)
  {
    0 <= t < TimeLoop && t % AnimationSpeed == 0
  }

  /** A tick keeps the clock inside the loop and on a whole tick. */
  lemma TickKeepsClock(t: nat)
    requires ClockValue(t)
    ensures ClockValue(Tick(t))
  {
    assert (t + 60) % 60 == 0;
  }

  /** The clock after `n` ticks from 0. */
  function Ticks(n: nat): nat
  {
    if n == 0 then 0 else Tick(Ticks(n - 1))
  }

  /** After `n` ticks from 0 the clock reads `60 n mod 21600`, a valid clock value. */
  lemma {:induction false} TicksFromZero(n: nat)
    ensures Ticks(n) == (AnimationSpeed * n) % TimeLoop
    ensures ClockValue(Ticks(n))
  {
    if n > 0 {
      TicksFromZero(n - 1);
      var q := (60 * (n - 1)) / 21600;
      assert 60 * (n - 1) == 21600 * q + Ticks(n - 1);
      assert 60 * n == 21600 * q + (Ticks(n - 1) + 60);
      ModShift(Ticks(n - 1) + 60, q);
      TickKeepsClock(Ticks(n - 1));
    }
  }

  lemma ModShift(x: nat, q: nat)
    ensures (21600 * q + x) % 21600 == x % 21600
  {
  }

  /** The arcs' visible window `[startTime, currentTime]`. */
  datatype TimeWindow = TimeWindow(start: int, end: int)

  function TimeRange(t: int): (r: TimeWindow)
    ensures 0 <= t ==> 0 <= r.start <= r.end && r.end - r.start <= TrailLength
    ensures r.end == t
    ensures t >= TrailLength ==> r.end - r.start == TrailLength
    ensures t < TrailLength ==> r.start == 0
  {
    TimeWindow(if t - TrailLength >= 0 then t - TrailLength else 0, t)
  }

  /** The 2D dots' shared progress `currentTime / TIME_LOOP`. */
  function Progress(t: int): real
  {
    t as real / TimeLoop as real
  }

  lemma ProgressInUnit(t: int)
    requires ClockValue(t)
    ensures 0.0 <= Progress(t) < 1.0
  {
  }

  /** The 3D arc layer's inputs: the lines, the window, and each line's `[index·300, index·300 + 1000]` timestamps. */
  datatype ArcData = ArcData(lines: seq<MapLine>, timeRange: TimeWindow, timestamps: seq<TimeWindow>)

  const LineOffset: int := 300
  const LineDuration: int := 1000

  function ArcTimestamps(n: nat): (r: seq<TimeWindow>)
    ensures |r| == n
    ensures forall i :: 0 <= i < n ==> r[i].end - r[i].start == LineDuration
    ensures forall i :: 0 <= i < n ==> r[i].start == LineOffset * i
  {
    seq(n, i => TimeWindow(LineOffset * i, LineOffset * i + LineDuration))
  }

  /** What deck.gl reports for a click: the picked object with its id, and the picked layer's id. */
  datatype PickedObject = PickedObject(id: Option<string>)
  datatype Pick = Pick(picked: Option<PickedObject>, layerId: Option<string>)

  /** A selected id counts only when it is a non-empty string. */
  predicate SelectionSet(selected: Option<string>)
  {
    selected.Some? && selected.value != ""
  }

  predicate OnPointLayer(pick: Pick)
  {
    pick.picked.Some? && pick.layerId == Some("point-layer")
  }

  /**
   * The selection after a click on the map view: unchanged for a click on
   * a point-layer object; otherwise cleared, unless it already is not truthy.
   */
  function MapClickSelection(selected: Option<string>, pick: Pick): (r: Option<string>)
    ensures OnPointLayer(pick) ==> r == selected
    ensures !OnPointLayer(pick) ==> !SelectionSet(r)
    ensures !OnPointLayer(pick) && !SelectionSet(selected) ==> r == selected
  {
    if !OnPointLayer(pick) && SelectionSet(selected) then None else selected
  }

  /** The selection after a click on a point: the picked object's id, or null. */
  function PointClickSelection(pick: Pick): (r: Option<string>)
    ensures r.Some? <==> pick.picked.Some? && pick.picked.value.id.Some?
    ensures r.Some? ==> r.value == pick.picked.value.id.value
  {
    if pick.picked.Some? then pick.picked.value.id else None
  }

  /** An icon-layer datum: the point, lifted to `z = 50`, with its icon, size and colour. */
  datatype Position3 = Position3(x: real, y: real, z: real)
  datatype IconPoint = IconPoint(point: MapPoint, position: Position3, icon: string, size: real, color: seq<int>)

  const DefaultIcon: string := "star"
  const IconSize: real := 24.0
  const WhiteRgba: seq<int> := [255, 255, 255, 255]
  const SelectedScale: real := 1.6

  function IconPointOf(p: MapPoint): IconPoint
  {
    IconPoint(p, Position3(p.coordinate.x, p.coordinate.y, 50.0), p.icon.GetOr(DefaultIcon), IconSize, p.color.GetOr(WhiteRgba))
  }

  /** One datum per point, in order; icon defaults to "star", colour to opaque white; every size is 24. */
  function IconLayerData(points: seq<MapPoint>): (r: seq<IconPoint>)
    ensures |r| == |points|
    ensures forall k :: 0 <= k < |points| ==>
              r[k].point == points[k] && r[k].position.z == 50.0 && r[k].size == IconSize
              && r[k].position.x == points[k].coordinate.x && r[k].position.y == points[k].coordinate.y
              && (points[k].icon.None? ==> r[k].icon == DefaultIcon)
              && (points[k].icon.Some? ==> r[k].icon == points[k].icon.value)
              && (points[k].color.None? ==> r[k].color == WhiteRgba)
              && (points[k].color.Some? ==> r[k].color == points[k].color.value)
  {
    seq(|points|, k requires 0 <= k < |points| => IconPointOf(points[k]))
  }

  /** The icon layer's `getSize`. */
  function DisplaySize(selected: Option<string>, d: IconPoint): real
  {
    if SelectionSet(selected) && d.point.id == selected.value then d.size * SelectedScale else d.size
  }

  function DisplaySizes(selected: Option<string>, data: seq<IconPoint>): (r: seq<real>)
    ensures |r| == |data|
    ensures forall k :: 0 <= k < |data| ==> r[k] == DisplaySize(selected, data[k])
  {
    seq(|data|, k requires 0 <= k < |data| => DisplaySize(selected, data[k]))
  }

  /** Exactly the points carrying the selected id are drawn 1.6 times as large; all others at 24. */
  lemma OnlySelectedEnlarged(points: seq<MapPoint>, selected: Option<string>, k: nat)
    requires k < |points|
    ensures var size := DisplaySizes(selected, IconLayerData(points))[k];
            (SelectionSet(selected) && points[k].id == selected.value ==> size == 38.4)
            && (!(SelectionSet(selected) && points[k].id == selected.value) ==> size == 24.0)
  {
  }

  /** After a click on the map off the point layer, no point is enlarged. */
  lemma MapClickOffPointsShrinksAll(points: seq<MapPoint>, selected: Option<string>, pick: Pick)
    requires !OnPointLayer(pick)
    ensures forall size :: size in DisplaySizes(MapClickSelection(selected, pick), IconLayerData(points)) ==> size == IconSize
  {
  }

  /** `DEFAULT_SVG_ICONS`: circle, star and diamond. */
  const CircleSvg: string := "<svg xmlns=\"http://www.w3.org/2000/svg\" viewBox=\"0 0 8 8\" width=\"8\" height=\"8\">\n    <circle cx=\"4\" cy=\"4\" r=\"3\" fill=\"currentColor\" />\n  </svg>"
  const StarSvg: string := "<svg xmlns=\"http://www.w3.org/2000/svg\" viewBox=\"0 0 8 8\" width=\"8\" height=\"8\">\n    <path fill=\"currentColor\" d=\"M4 5.757L6.06 7 5.455 4.656 7.5 3.08l-2.396-.204L4 1 3.104 2.876.5 3.08l2.045 1.576L1.94 7z\"/>\n  </svg>"
  const DiamondSvg: string := "<svg xmlns=\"http://www.w3.org/2000/svg\" viewBox=\"0 0 8 8\" width=\"8\" height=\"8\">\n    <path fill=\"currentColor\" d=\"M4 1L1 4l3 3 3-3L4 1z\"/>\n  </svg>"

  const DefaultSvgIcons: IA.Dict :=
    IA.Dict(["circle", "star", "diamond"], map["circle" := CircleSvg, "star" := StarSvg, "diamond" := DiamondSvg])

  const NoIcons: IA.Dict := IA.Dict([], map[])

  lemma DefaultIconsWellFormed()
    ensures IA.WellFormed(DefaultSvgIcons) && IA.WellFormed(NoIcons)
  {
  }

  /** The atlas of the default icons alone, as `initDeck` first builds it. */
  method BuildDefaultAtlas(rasterize: string -> Option<IA.Size>, hasContext: bool) returns (r: Result<IA.AtlasLayout>)
    ensures r == IA.AtlasResult(DefaultSvgIcons, rasterize, hasContext)
  {
    DefaultIconsWellFormed();
    r := IA.BuildIconAtlas(DefaultSvgIcons, rasterize, hasContext);
  }

  /** `{...DEFAULT_SVG_ICONS, ...extraSvgIcons}`. */
  function MergedIcons(extra: IA.Dict): IA.Dict
    requires IA.WellFormed(extra)
  {
    DefaultIconsWellFormed();
    IA.Spread(DefaultSvgIcons, extra)
  }

  /**
   * The rebuilt atlas has the three defaults first, in order, then the
   * extra keys; an extra icon overrides a default of the same key.
   */
  lemma MergedIconsEffect(extra: IA.Dict)
    requires IA.WellFormed(extra)
    ensures IA.WellFormed(MergedIcons(extra))
    ensures MergedIcons(extra).values == DefaultSvgIcons.values + extra.values
    ensures |MergedIcons(extra).keys| >= 3 && MergedIcons(extra).keys[..3] == ["circle", "star", "diamond"]
  {
    DefaultIconsWellFormed();
    IA.SpreadEffect(DefaultSvgIcons, extra);
  }

  /** Registering `a` then `b` leaves each key with its latest value. */
  lemma RegisterTwice(extra: IA.Dict, a: IA.Dict, b: IA.Dict)
    requires IA.WellFormed(extra) && IA.WellFormed(a) && IA.WellFormed(b)
    ensures IA.Spread(IA.Spread(extra, a), b).values == extra.values + a.values + b.values
  {
    IA.SpreadEffect(extra, a);
    IA.SpreadEffect(IA.Spread(extra, a), b);
  }

  /** The opaque layer objects the controller registers, by their slot ids. */
  function LayerObject(ctor: string, id: string): LayerLike
  {
    Instance(ctor, map["id" := PStr(id)])
  }

  const GeoLayer: LayerLike := LayerObject("GeoJsonLayer", "geojson-layer")
  const PointLayer: LayerLike := LayerObject("IconLayer", "point-layer")
  const ArcLayer: LayerLike := LayerObject("ArcLayer", "line-layer")
  const CurveLayer: LayerLike := LayerObject("PathLayer", "line-layer")
  const TrailLayer: LayerLike := LayerObject("ScatterplotLayer", "line-trail-layer")

  /** The registered layers handed to the Deck: the four slots without the empty ones. */
  function Present(slots: seq<Option<LayerLike>>): (r: seq<LayerLike>)
    ensures |r| <= |slots|
    ensures forall l :: l in r <==> Some(l) in slots
  {
    if |slots| == 0 then []
    else
      var front := Present(slots[..|slots| - 1]);
      assert forall o :: o in slots <==> o in slots[..|slots| - 1] || o == slots[|slots| - 1];
      if slots[|slots| - 1].Some? then front + [slots[|slots| - 1].value] else front
  }

  class DeckglMap {
    const instanceId: string
    const mode: DI.Mode
    /** The shared layer registry. */
    const layerManager: MapLayerManager
    const renderer2D: L2.LineRenderer2D

    var currentTime: nat
    var selectedPointId: Option<string>
    var points: seq<MapPoint>
    var lines: seq<MapLine>
    var extraSvgIcons: IA.Dict
    var iconAtlas: Option<IA.AtlasLayout>
    var animationRunning: bool

    /** What the current layers were built from. */
    var geoLayerData: Option<FeatureCollection>
    var iconData: seq<IconPoint>
    var iconSizes: seq<real>
    var arcData: Option<ArcData>
    var curveData: seq<L2.FullPath>
    var dotsData: seq<L2.DotPoint>
    /** The layers last pushed to the Deck. */
    var deckLayers: seq<LayerLike>

    ghost predicate Valid()
      reads this
    {
      IA.WellFormed(extraSvgIcons) && ClockValue(currentTime)
    }

    constructor (instanceId: string, mode: DI.Mode, layerManager: MapLayerManager)
      ensures Valid()
      ensures this.instanceId == instanceId && this.mode == mode && this.layerManager == layerManager
      ensures currentTime == 0 && selectedPointId.None? && points == [] && lines == []
      ensures extraSvgIcons == NoIcons && iconAtlas.None? && !animationRunning
      ensures renderer2D.calculator.memo == map[]
    {
      this.instanceId := instanceId;
      this.mode := mode;
      this.layerManager := layerManager;
      var calculator := new CurvatureCalc.CurvatureCalculator();
      renderer2D := new L2.LineRenderer2D(calculator);
      currentTime := 0;
      selectedPointId := None;
      points := [];
      lines := [];
      extraSvgIcons := NoIcons;
      iconAtlas := None;
      animationRunning := false;
      geoLayerData := None;
      iconData := [];
      iconSizes := [];
      arcData := None;
      curveData := [];
      dotsData := [];
      deckLayers := [];
      DefaultIconsWellFormed();
    }

    /** `updateLayer()`: hands the registered layers, in slot order, to the Deck. */
    method PushLayers()
      modifies this`deckLayers
      ensures deckLayers == Present(layerManager.GetLayers())
    {
      deckLayers := Present(layerManager.GetLayers());
    }

    /** Rebuilds the point layer from the points and the selection. */
    method UpdateSelectionOverlay()
      modifies this, layerManager
      ensures iconData == IconLayerData(points) && iconSizes == DisplaySizes(selectedPointId, iconData)
      ensures layerManager.layers == Updated(old(layerManager.layers), "point-layer", PointLayer)
      ensures deckLayers == Present(layerManager.GetLayers())
      ensures unchanged(this`currentTime, this`selectedPointId, this`points, this`lines, this`extraSvgIcons)
      ensures unchanged(this`iconAtlas, this`animationRunning, this`geoLayerData)
      ensures unchanged(this`arcData, this`curveData, this`dotsData)
    {
      iconData := IconLayerData(points);
      iconSizes := DisplaySizes(selectedPointId, iconData);
      layerManager.UpdateLayer("point-layer", PointLayer);
      PushLayers();
    }

    /** A click on the map view clears a truthy selection unless a point-layer object was hit. */
    method HandleClickMapView(pick: Pick)
      modifies this, layerManager
      ensures selectedPointId == MapClickSelection(old(selectedPointId), pick)
      ensures !OnPointLayer(pick) && SelectionSet(old(selectedPointId)) ==>
                iconData == IconLayerData(points) && iconSizes == DisplaySizes(None, iconData)
                && layerManager.layers == Updated(old(layerManager.layers), "point-layer", PointLayer)
      ensures !(!OnPointLayer(pick) && SelectionSet(old(selectedPointId))) ==>
                unchanged(this) && unchanged(layerManager)
      ensures unchanged(this`currentTime, this`points, this`lines, this`extraSvgIcons, this`iconAtlas)
    {
      if !OnPointLayer(pick) {
        if SelectionSet(selectedPointId) {
          selectedPointId := None;
          UpdateSelectionOverlay();
        }
      }
    }

    /** A click on a point selects its id, or nothing, and rebuilds the point layer. */
    method HandleClickPoint(pick: Pick)
      modifies this, layerManager
      ensures selectedPointId == PointClickSelection(pick)
      ensures iconData == IconLayerData(points) && iconSizes == DisplaySizes(selectedPointId, iconData)
      ensures layerManager.layers == Updated(old(layerManager.layers), "point-layer", PointLayer)
      ensures unchanged(this`currentTime, this`points, this`lines, this`extraSvgIcons, this`iconAtlas)
    {
      selectedPointId := PointClickSelection(pick);
      UpdateSelectionOverlay();
    }

    method SetPoints(ps: seq<MapPoint>)
      modifies this, layerManager
      ensures points == ps
      ensures iconData == IconLayerData(ps) && iconSizes == DisplaySizes(selectedPointId, iconData)
      ensures layerManager.layers == Updated(old(layerManager.layers), "point-layer", PointLayer)
      ensures unchanged(this`currentTime, this`selectedPointId, this`lines, this`extraSvgIcons, this`iconAtlas)
    {
      points := ps;
      UpdateSelectionOverlay();
    }

    method SetLines(ls: seq<MapLine>)
      modifies this
      ensures lines == ls
      ensures unchanged(this`currentTime, this`selectedPointId, this`points, this`extraSvgIcons, this`iconAtlas)
    {
      lines := ls;
    }

    /** Registers the base map layer in its slot and pushes the layers. */
    method SetGEOData(data: FeatureCollection)
      modifies this, layerManager
      ensures geoLayerData == Some(data)
      ensures layerManager.layers == Added(old(layerManager.layers), "geojson-layer", GeoLayer)
      ensures deckLayers == Present(layerManager.GetLayers())
      ensures unchanged(this`currentTime, this`selectedPointId, this`points, this`lines, this`extraSvgIcons)
      ensures unchanged(this`iconAtlas, this`iconData)
    {
      geoLayerData := Some(data);
      layerManager.AddLayer("geojson-layer", GeoLayer);
      PushLayers();
    }

    /**
     * One animation tick: the clock advances; in 3D the arc layer is
     * rebuilt over the new window; in 2D the resident curves and the
     * trailing dots are rebuilt at the new progress.
     */
    method UpdateArcAnimation(hypot: (real, real) -> real, pow: (real, real) -> real)
      requires Valid()
      modifies this`currentTime, this`arcData, this`curveData, this`dotsData, this`deckLayers
      modifies layerManager, renderer2D.calculator
      ensures Valid()
      ensures Ticked(mode, lines, old(currentTime), currentTime, arcData, old(layerManager.layers), layerManager.layers,
                     old(renderer2D.calculator.memo), renderer2D.calculator.memo, curveData, dotsData, hypot, pow)
      ensures deckLayers == Present(layerManager.GetLayers())
    {
      AdvanceFrame(hypot, pow);
      PushLayers();
    }

    /** A tick before the layers are pushed. */
    method AdvanceFrame(hypot: (real, real) -> real, pow: (real, real) -> real)
      requires Valid()
      modifies this`currentTime, this`arcData, this`curveData, this`dotsData, layerManager, renderer2D.calculator
      ensures Valid()
      ensures Ticked(mode, lines, old(currentTime), currentTime, arcData, old(layerManager.layers), layerManager.layers,
                     old(renderer2D.calculator.memo), renderer2D.calculator.memo, curveData, dotsData, hypot, pow)
    {
      TickKeepsClock(currentTime);
      currentTime := Tick(currentTime);
      if mode == DI.Mode3D {
        UpdateArcs3D();
      } else {
        UpdateLines2D(hypot, pow);
      }
    }

    /** The 3D half of a tick: the arcs over the clock's window, in the line slot. */
    method UpdateArcs3D()
      modifies this`arcData, layerManager
      ensures arcData == Some(ArcData(lines, TimeRange(currentTime), ArcTimestamps(|lines|)))
      ensures layerManager.layers == Updated(old(layerManager.layers), "line-layer", ArcLayer)
    {
      arcData := Some(ArcData(lines, TimeRange(currentTime), ArcTimestamps(|lines|)));
      layerManager.UpdateLayer("line-layer", ArcLayer);
    }

    /** The 2D half of a tick: rebuild the curves and the dots, and put both layers in their slots. */
    method UpdateLines2D(hypot: (real, real) -> real, pow: (real, real) -> real)
      modifies this`curveData, this`dotsData, layerManager, renderer2D.calculator
      ensures renderer2D.calculator.memo == L2.MemoAfter(old(renderer2D.calculator.memo), lines)
      ensures Lines2DBuilt(lines, renderer2D.calculator.memo, curveData, dotsData, currentTime, hypot, pow)
      ensures layerManager.layers ==
              Updated(Updated(old(layerManager.layers), "line-layer", CurveLayer), "line-trail-layer", TrailLayer)
    {
      var data := renderer2D.BuildFullCurveData(lines, hypot);
      ghost var memo := renderer2D.calculator.memo;
      var dots := renderer2D.BuildMovingDotsData(lines, Progress(currentTime), None, hypot, pow);
      MemoAfterTwice(old(renderer2D.calculator.memo), lines);
      assert renderer2D.calculator.memo == memo;
      curveData := data;
      dotsData := dots;
      assert Lines2DBuilt(lines, memo, curveData, dotsData, currentTime, hypot, pow);
      layerManager.UpdateLayer("line-layer", CurveLayer);
      layerManager.UpdateLayer("line-trail-layer", TrailLayer);
    }

    /**
     * Merges the new icons over the earlier extras, later keys winning;
     * the atlas is rebuilt only when one exists. `None`, or the message the
     * rebuild throws.
     */
    method RegisterExtraSvgIcons(icons: IA.Dict, rasterize: string -> Option<IA.Size>, hasContext: bool)
      returns (error: Option<string>)
      requires Valid() && IA.WellFormed(icons)
      modifies this, layerManager
      ensures Valid()
      ensures extraSvgIcons == IA.Spread(old(extraSvgIcons), icons)
      ensures old(iconAtlas).None? ==> error.None? && iconAtlas.None? && unchanged(layerManager)
      ensures old(iconAtlas).Some? ==>
                var r := IA.AtlasResult(MergedIcons(extraSvgIcons), rasterize, hasContext);
                if r.Ok? then error.None? && iconAtlas == Some(r.value)
                else error == Some(r.message) && iconAtlas == old(iconAtlas)
      ensures unchanged(this`currentTime, this`selectedPointId, this`points, this`lines)
    {
      extraSvgIcons := IA.Spread(extraSvgIcons, icons);
      error := None;
      if iconAtlas.Some? {
        error := RebuildIconAtlas(rasterize, hasContext);
      }
    }

    /** Builds the atlas from the defaults and the extras, then rebuilds the point layer. */
    method RebuildIconAtlas(rasterize: string -> Option<IA.Size>, hasContext: bool) returns (error: Option<string>)
      requires Valid()
      modifies this, layerManager
      ensures Valid()
      ensures var r := IA.AtlasResult(MergedIcons(extraSvgIcons), rasterize, hasContext);
              if r.Ok? then error.None? && iconAtlas == Some(r.value)
                            && iconData == IconLayerData(points)
                            && layerManager.layers == Updated(old(layerManager.layers), "point-layer", PointLayer)
              else error == Some(r.message) && iconAtlas == old(iconAtlas) && unchanged(layerManager)
      ensures unchanged(this`currentTime, this`selectedPointId, this`points, this`lines, this`extraSvgIcons)
    {
      var merged := MergedIcons(extraSvgIcons);
      MergedIconsEffect(extraSvgIcons);
      var r := IA.BuildIconAtlas(merged, rasterize, hasContext);
      if r.Err? {
        return Some(r.message);
      }
      iconAtlas := Some(r.value);
      UpdateSelectionOverlay();
      error := None;
    }

    /** Starts the animation timer, replacing a running one. */
    method StartArcAnimation()
      modifies this
      ensures animationRunning
      ensures unchanged(this`currentTime, this`selectedPointId, this`points, this`lines, this`extraSvgIcons, this`iconAtlas)
    {
      animationRunning := true;
    }

    /** Stops the animation timer; the Deck instance stays registered. */
    method Destroy()
      modifies this
      ensures !animationRunning
      ensures unchanged(this`currentTime, this`selectedPointId, this`points, this`lines, this`extraSvgIcons, this`iconAtlas)
    {
      animationRunning := false;
    }

    /**
     * `initDeck`: registers the Deck (zoom `minZoom` clamped to [0, 20],
     * centred on 0°, 30°), adds the base map when the navigation state
     * holds one, builds the atlas from the defaults, rebuilds it when
     * extras were registered meanwhile, and starts the animation. Stops at
     * the first error, with its message.
     */
    method InitDeck(table: DI.DeckInstanceTable, canvas: string, minZoom: real,
                    stateGeoData: Option<FeatureCollection>, rasterize: string -> Option<IA.Size>, hasContext: bool)
      returns (error: Option<string>)
      requires Valid()
      modifies table, this, layerManager
      ensures Valid()
      ensures var r := DI.Registered(old(table.instances), instanceId, canvas, InitialZoomView(minZoom),
                                      Some(DI.DeckProps(Some(mode), None)));
              if r.Err? then error == Some(r.message) && table.instances == old(table.instances)
              else table.instances == r.value
      ensures error.None? ==> animationRunning && iconAtlas.Some?
      ensures unchanged(this`currentTime, this`selectedPointId, this`points, this`lines, this`extraSvgIcons)
    {
      var view := InitialZoomView(minZoom);
      error := table.SetInstance(instanceId, canvas, view, Some(DI.DeckProps(Some(mode), None)));
      if error.Some? {
        return;
      }
      if stateGeoData.Some? {
        SetGEOData(stateGeoData.value);
      }
      error := LoadAtlasAndAnimate(rasterize, hasContext);
    }

    /**
     * The second half of `initDeck`: the atlas from the defaults, rebuilt
     * when extras were registered meanwhile, then the animation.
     */
    method LoadAtlasAndAnimate(rasterize: string -> Option<IA.Size>, hasContext: bool) returns (error: Option<string>)
      requires Valid()
      modifies this, layerManager
      ensures Valid()
      ensures error.None? <==>
                (IA.AtlasResult(DefaultSvgIcons, rasterize, hasContext).Ok?
                 && (|extraSvgIcons.keys| > 0 ==> IA.AtlasResult(MergedIcons(extraSvgIcons), rasterize, hasContext).Ok?))
      ensures error.None? ==> animationRunning && iconAtlas.Some?
      ensures unchanged(this`currentTime, this`selectedPointId, this`points, this`lines, this`extraSvgIcons)
    {
      error := None;
      var r := BuildDefaultAtlas(rasterize, hasContext);
      if r.Err? {
        return Some(r.message);
      }
      iconAtlas := Some(r.value);
      if |extraSvgIcons.keys| > 0 {
        error := RebuildIconAtlas(rasterize, hasContext);
        if error.Some? {
          return;
        }
      }
      StartArcAnimation();
    }
  }

  /**
   * What one animation tick leaves behind: the clock advanced; in 3D the
   * arc data over the new window in the line slot and the memo untouched;
   * in 2D the memo extended by the lines, the curves and dots rebuilt, and
   * both line layers in their slots.
   */
  ghost predicate Ticked(mode: DI.Mode, lines: seq<MapLine>, time0: nat, time: nat, arcData: Option<ArcData>,
                         layers0: map<string, LayerLike>, layers: map<string, LayerLike>,
                         memo0: map<string, real>, memo: map<string, real>,
                         curveData: seq<L2.FullPath>, dotsData: seq<L2.DotPoint>,
                         hypot: (real, real) -> real, pow: (real, real) -> real)
  {
    && time == Tick(time0)
    && (mode == DI.Mode3D ==>
          arcData == Some(ArcData(lines, TimeRange(time), ArcTimestamps(|lines|)))
          && layers == Updated(layers0, "line-layer", ArcLayer)
          && memo == memo0)
    && (mode == DI.Mode2D ==>
          memo == L2.MemoAfter(memo0, lines)
          && Lines2DBuilt(lines, memo, curveData, dotsData, time, hypot, pow)
          && layers == Updated(Updated(layers0, "line-layer", CurveLayer), "line-trail-layer", TrailLayer))
  }

  /**
   * The 2D layers match the lines: one resident curve per line, in order,
   * and every line's dots at the clock's progress, each line with its
   * memoised curvature.
   */
  ghost predicate Lines2DBuilt(lines: seq<MapLine>, memo: map<string, real>, curveData: seq<L2.FullPath>,
                               dotsData: seq<L2.DotPoint>, time: nat, hypot: (real, real) -> real, pow: (real, real) -> real)
  {
    (forall k :: 0 <= k < |lines| ==> lines[k].id in memo)
    && curveData == L2.FullPaths(lines, L2.CurvaturesOf(lines, memo), hypot)
    && dotsData == L2.AllDots(lines, L2.CurvaturesOf(lines, memo), Progress(time), L2.ResolveTrail(None), hypot, pow)
  }

  /** The initial view `initDeck` passes: zoom clamped into [0, 20], latitude 30, longitude 0. */
  function InitialZoomView(minZoom: real): (r: DI.PartialView)
    ensures r.zoom.Some? && 0.0 <= r.zoom.value <= 20.0
    ensures 0.0 <= minZoom <= 20.0 ==> r.zoom == Some(minZoom)
    ensures r.latitude == Some(30.0) && r.longitude == Some(0.0) && r.pitch.None? && r.bearing.None?
  {
    var z := if 20.0 <= minZoom then 20.0 else minZoom;
    DI.PartialView(Some(0.0), Some(30.0), Some(if 0.0 >= z then 0.0 else z), None, None)
  }

  /** Lines whose ids are all memoised add nothing to the memo. */
  lemma {:induction false} MemoAfterKnown(memo: map<string, real>, lines: seq<MapLine>)
    requires forall k :: 0 <= k < |lines| ==> lines[k].id in memo
    ensures L2.MemoAfter(memo, lines) == memo
  {
    if |lines| > 0 {
      var init := lines[..|lines| - 1];
      assert forall k :: 0 <= k < |init| ==> init[k] == lines[k];
      MemoAfterKnown(memo, init);
    }
  }

  /** Computing the memo over the same lines a second time adds nothing. */
  lemma MemoAfterTwice(memo: map<string, real>, lines: seq<MapLine>)
    ensures L2.MemoAfter(L2.MemoAfter(memo, lines), lines) == L2.MemoAfter(memo, lines)
  {
    L2.MemoAfterCovers(memo, lines);
    MemoAfterKnown(L2.MemoAfter(memo, lines), lines);
  }
}
