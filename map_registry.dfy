// The map registry (packages/core/src/map-registry.ts): the one registry of
// map data, which hands each map to ECharts and keeps its own record of
// what it has registered, in insertion order.
module MapRegistry {
  import opened Wrappers
  import opened GeoTypes
  import OM = OrderedMaps

  /** The ECharts module, as far as the registry uses it: its table of registered maps. */
  class ECharts {
    var maps: map<string, FeatureCollection>

    constructor ()
      ensures maps == map[]
    {
      maps := map[];
    }

    /** `echarts.registerMap`: the map stored under its name. */
    method RegisterMap(name: string, data: FeatureCollection)
      modifies this
      ensures maps == old(maps)[name := data]
    {
      maps := maps[name := data];
    }
  }

  /** Every entry set in turn, a later one for the same name winning. */
  function SetAll(m: OM.OrderedMap<string, FeatureCollection>, entries: seq<(string, FeatureCollection)>): OM.OrderedMap<string, FeatureCollection>
  {
    if |entries| == 0 then m
    else
      var last := entries[|entries| - 1];
      OM.Set(SetAll(m, entries[..|entries| - 1]), last.0, last.1)
  }

  /** Registering every entry keeps the record well formed. */
  lemma {:induction false} SetAllValid(m: OM.OrderedMap<string, FeatureCollection>, entries: seq<(string, FeatureCollection)>)
    requires OM.Valid(m)
    ensures OM.Valid(SetAll(m, entries))
  {
    if |entries| > 0 {
      var last := entries[|entries| - 1];
      SetAllValid(m, entries[..|entries| - 1]);
      OM.SetValid(SetAll(m, entries[..|entries| - 1]), last.0, last.1);
    }
  }

  /** The names entries carry. */
  function Names(entries: seq<(string, FeatureCollection)>): set<string>
  {
    set i | 0 <= i < |entries| :: entries[i].0
  }

  /**
   * After registering every entry, exactly the names registered before and
   * the entries' names are registered; a name no entry carries keeps its data.
   */
  lemma {:induction false} SetAllRegisters(m: OM.OrderedMap<string, FeatureCollection>, entries: seq<(string, FeatureCollection)>)
    ensures forall n :: n in SetAll(m, entries).entries <==> n in m.entries || n in Names(entries)
    ensures forall n :: n !in Names(entries) ==> OM.Get(SetAll(m, entries), n) == OM.Get(m, n)
  {
    if |entries| > 0 {
      var init := entries[..|entries| - 1];
      SetAllRegisters(m, init);
      assert Names(entries) == Names(init) + {entries[|entries| - 1].0} by {
        forall n | n in Names(entries)
          ensures n in Names(init) + {entries[|entries| - 1].0}
        {
          var i :| 0 <= i < |entries| && entries[i].0 == n;
          if i < |entries| - 1 {
            assert init[i].0 == n;
          }
        }
        forall n | n in Names(init)
          ensures n in Names(entries)
        {
          var i :| 0 <= i < |init| && init[i].0 == n;
          assert entries[i].0 == n;
        }
      }
    }
  }

  /** The last entry for a name decides its data. */
  lemma LastEntryWins(m: OM.OrderedMap<string, FeatureCollection>, entries: seq<(string, FeatureCollection)>, name: string,
                      data: FeatureCollection)
    requires |entries| > 0 && entries[|entries| - 1] == (name, data)
    ensures OM.Get(SetAll(m, entries), name) == Some(data)
  {
  }

  /** The same entries, applied to ECharts' own table. */
  function EChartsAll(maps: map<string, FeatureCollection>, entries: seq<(string, FeatureCollection)>): map<string, FeatureCollection>
  {
    if |entries| == 0 then maps
    else
      var last := entries[|entries| - 1];
      EChartsAll(maps, entries[..|entries| - 1])[last.0 := last.1]
  }

  /** ECharts and the registry's own record agree on every name the entries register. */
  lemma {:induction false} EChartsAgrees(m: OM.OrderedMap<string, FeatureCollection>, maps: map<string, FeatureCollection>,
                                          entries: seq<(string, FeatureCollection)>)
    ensures forall n :: n in Names(entries) ==>
              n in EChartsAll(maps, entries) && OM.Get(SetAll(m, entries), n) == Some(EChartsAll(maps, entries)[n])
  {
    if |entries| > 0 {
      var init := entries[..|entries| - 1];
      EChartsAgrees(m, maps, init);
      forall n | n in Names(entries)
        ensures n in EChartsAll(maps, entries) && OM.Get(SetAll(m, entries), n) == Some(EChartsAll(maps, entries)[n])
      {
        if n != entries[|entries| - 1].0 {
          var i :| 0 <= i < |entries| && entries[i].0 == n;
          assert init[i].0 == n;
        }
      }
    }
  }

  class MapRegistry {
    var registeredMaps: OM.OrderedMap<string, FeatureCollection>
    var echartsInstance: ECharts?

    ghost predicate Valid()
      reads this
    {
      OM.Valid(registeredMaps)
    }

    /** Nothing registered, and no ECharts module yet. */
    constructor ()
      ensures Valid()
      ensures registeredMaps == OM.Empty() && echartsInstance == null
    {
      registeredMaps := OM.Empty();
      echartsInstance := null;
    }

    method SetEChartsInstance(echarts: ECharts?)
      modifies this`echartsInstance
      ensures echartsInstance == echarts
    {
      echartsInstance := echarts;
    }

    /**
     * `registerMap`: without an ECharts module, `loaded` (what importing
     * 'echarts' yields) becomes it; the map goes to ECharts, then into the
     * registry's record.
     */
    method RegisterMap(mapName: string, mapData: FeatureCollection, loaded: ECharts)
      requires Valid()
      modifies this, echartsInstance, loaded
      ensures Valid()
      ensures echartsInstance == if old(echartsInstance) == null then loaded else old(echartsInstance)
      ensures echartsInstance.maps == old(if echartsInstance == null then loaded.maps else echartsInstance.maps)[mapName := mapData]
      ensures registeredMaps == OM.Set(old(registeredMaps), mapName, mapData)
      ensures IsMapRegistered(mapName) && GetMapData(mapName) == Some(mapData)
      ensures GetRegisteredMapNames() ==
                old(GetRegisteredMapNames()) + (if old(IsMapRegistered(mapName)) then [] else [mapName])
    {
      if echartsInstance == null {
        echartsInstance := loaded;
      }
      echartsInstance.RegisterMap(mapName, mapData);
      OM.SetValid(registeredMaps, mapName, mapData);
      registeredMaps := OM.Set(registeredMaps, mapName, mapData);
    }

    function IsMapRegistered(mapName: string): (r: bool)
      reads this
      ensures r <==> OM.Get(registeredMaps, mapName).Some?
    {
      mapName in registeredMaps.entries
    }

    function GetMapData(mapName: string): (r: Option<FeatureCollection>)
      reads this
      ensures r.Some? <==> IsMapRegistered(mapName)
    {
      OM.Get(registeredMaps, mapName)
    }

    /** The registered names, in the order they were first registered. */
    function GetRegisteredMapNames(): (r: seq<string>)
      requires Valid()
      reads this
      ensures forall n :: n in r <==> IsMapRegistered(n)
    {
      registeredMaps.keys
    }

    /** `unregisterMap`: only that name is dropped from the record; ECharts keeps the map. */
    method UnregisterMap(mapName: string)
      requires Valid()
      modifies this`registeredMaps
      ensures Valid()
      ensures registeredMaps == OM.Delete(old(registeredMaps), mapName)
      ensures !IsMapRegistered(mapName)
      ensures forall n :: n != mapName ==> GetMapData(n) == old(GetMapData(n))
    {
      registeredMaps := OM.Delete(registeredMaps, mapName);
    }

    /** `clear`: the record emptied; ECharts keeps its maps. */
    method Clear()
      modifies this`registeredMaps
      ensures Valid()
      ensures registeredMaps == OM.Empty()
      ensures GetRegisteredMapNames() == [] && forall n :: !IsMapRegistered(n)
    {
      registeredMaps := OM.Empty();
    }

    /**
     * `registerMaps`: every entry registered. The registrations run
     * together, but each finishes in the order the entries are given, so
     * the effect is registering them one after the other; without entries
     * no ECharts module is loaded.
     */
    method RegisterMaps(entries: seq<(string, FeatureCollection)>, loaded: ECharts)
      requires Valid()
      modifies this, echartsInstance, loaded
      ensures Valid()
      ensures registeredMaps == SetAll(old(registeredMaps), entries)
      ensures |entries| == 0 ==> echartsInstance == old(echartsInstance)
      ensures |entries| > 0 ==> echartsInstance == if old(echartsInstance) == null then loaded else old(echartsInstance)
      ensures |entries| > 0 ==>
                echartsInstance.maps == EChartsAll(old(if echartsInstance == null then loaded.maps else echartsInstance.maps), entries)
    {
      ghost var startMaps := if echartsInstance == null then loaded.maps else echartsInstance.maps;
      ghost var target := if echartsInstance == null then loaded else echartsInstance;
      ghost var start := registeredMaps;
      var i := 0;
      while i < |entries|
        invariant 0 <= i <= |entries|
        invariant Valid()
        invariant registeredMaps == SetAll(start, entries[..i])
        invariant i == 0 ==> echartsInstance == old(echartsInstance)
        invariant i > 0 ==> echartsInstance == target && target.maps == EChartsAll(startMaps, entries[..i])
        invariant i == 0 ==> target.maps == startMaps
      {
        assert entries[..i + 1][..i] == entries[..i];
        RegisterMap(entries[i].0, entries[i].1, loaded);
        i := i + 1;
      }
      assert entries[..i] == entries;
    }
  }

  /** The class's static `instance` field, created on first use. */
  class MapRegistryHolder {
    var instance: MapRegistry?

    constructor ()
      ensures instance == null
    {
      instance := null;
    }

    /** `getInstance`: the registry made on the first call, and that same one on every later call. */
    method GetInstance() returns (r: MapRegistry)
      modifies this
      ensures instance == r
      ensures old(instance) != null ==> r == old(instance)
      ensures old(instance) == null ==> fresh(r) && r.Valid() && r.registeredMaps == OM.Empty() && r.echartsInstance == null
    {
      if instance == null {
        instance := new MapRegistry();
      }
      r := instance;
    }
  }

  /** Two calls of `getInstance` give the same registry. */
  method SameInstance(h: MapRegistryHolder) returns (a: MapRegistry, b: MapRegistry)
    modifies h
    ensures a == b
  {
    a := h.GetInstance();
    b := h.GetInstance();
  }
}
