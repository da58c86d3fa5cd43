// Which GeoJSON file each drill-down step loads, and the clean-up applied to
// the China country map (packages/core/src/utils/geoDataService.ts).
module GeoDataService {
  import opened Wrappers
  import opened GeoTypes
  import opened MapTypes

  const WorldWgs84: string := "world/wgs84_world.geo.json"
  const WorldWgs84ForUs: string := "world/wgs84_world_for_US.geo.json"
  const ChinaCountryPath: string := "china/100000-2.json"

  /**
   * The detail file for a level and region. `mapVersion` is read from the
   * state manager, which declares no such field, so as the source stands it
   * is always None and the world map is always `WorldWgs84`.
   */
  function GetDetailDataPath(level: MapLevel, region: string, country: string, mapVersion: Option<string>): (r: string)
    ensures level == World ==> (r == WorldWgs84ForUs <==> mapVersion == Some("standard"))
    ensures level == World && mapVersion != Some("standard") ==> r == WorldWgs84
    ensures level == Country && region == "100000" ==> r == ChinaCountryPath
    ensures level == Country && region != "100000" ==> r == "world/countries/" + region + "-all.geo.json"
    ensures level == Province ==> r == (if country == "100000" then "china/" + region + "_full.json" else "")
    ensures level in {City, County} ==> r == (if country == "100000" then "china/" + region + ".json" else "")
  {
    match level
    case World => if mapVersion == Some("standard") then WorldWgs84ForUs else WorldWgs84
    case Country => if region == "100000" then ChinaCountryPath else "world/countries/" + region + "-all.geo.json"
    case Province => if country == "100000" then "china/" + region + "_full.json" else ""
    case City => if country == "100000" then "china/" + region + ".json" else ""
    case County => if country == "100000" then "china/" + region + ".json" else ""
  }

  /** There is no detail file exactly below country level outside China. */
  lemma DetailPathEmptyIff(level: MapLevel, region: string, country: string, mapVersion: Option<string>)
    ensures GetDetailDataPath(level, region, country, mapVersion) == "" <==>
            (level in {Province, City, County} && country != "100000")
  {
  }

  /** Different countries load different country files. */
  lemma CountryPathInjective(r1: string, r2: string, mapVersion: Option<string>)
    requires r1 != r2
    ensures GetDetailDataPath(Country, r1, "", mapVersion) != GetDetailDataPath(Country, r2, "", mapVersion)
  {
    var pre, suf := "world/countries/", "-all.geo.json";
    if r1 != "100000" && r2 != "100000" {
      var p1, p2 := pre + r1 + suf, pre + r2 + suf;
      assert |p1| == |p2| ==> p1[|pre|..|pre| + |r1|] == r1 && p2[|pre|..|pre| + |r2|] == r2;
    } else if r1 == "100000" {
      assert (pre + r2 + suf)[0] == 'w';
    } else {
      assert (pre + r1 + suf)[0] == 'w';
    }
  }

  /**
   * Drops every feature without a truthy `properties.name`, and cuts the
   * "海南省" MultiPolygon down to its first polygon (the main island).
   */
  function CleanFeature(f: Feature): Feature
  {
    if NamedAs(f, "海南省") && f.geometry.Some? && f.geometry.value.MultiPolygon? then
      var ps := f.geometry.value.polygons;
      f.(geometry := Some(MultiPolygon(if |ps| <= 1 then ps else ps[..1])))
    else f
  }

  predicate HasName(f: Feature)
  {
    TruthyProp(f.properties, "name")
  }

  function CleanChina(features: seq<Feature>): (r: seq<Feature>)
    ensures |r| <= |features|
  {
    if |features| == 0 then []
    else
      var rest := CleanChina(features[..|features| - 1]);
      var f := features[|features| - 1];
      if HasName(f) then rest + [CleanFeature(f)] else rest
  }

  /** Cleaning keeps exactly the named features, each one cleaned, in their original order. */
  lemma {:induction false} CleanChinaKeepsNamed(features: seq<Feature>)
    ensures CleanChina(features) == CleanAll(Named(features))
  {
    if |features| > 0 {
      var front := features[..|features| - 1];
      CleanChinaKeepsNamed(front);
      var f := features[|features| - 1];
      assert features == front + [f];
      NamedAppend(front, f);
      if HasName(f) {
        CleanAllAppend(Named(front), f);
      }
    }
  }

  /** The named features, in order. */
  function Named(features: seq<Feature>): (r: seq<Feature>)
    ensures forall k :: 0 <= k < |r| ==> HasName(r[k])
  {
    if |features| == 0 then []
    else if HasName(features[0]) then [features[0]] + Named(features[1..])
    else Named(features[1..])
  }

  function CleanAll(features: seq<Feature>): (r: seq<Feature>)
    ensures |r| == |features|
    ensures forall k :: 0 <= k < |r| ==> r[k] == CleanFeature(features[k])
  {
    seq(|features|, k requires 0 <= k < |features| => CleanFeature(features[k]))
  }

  lemma {:induction false} NamedAppend(s: seq<Feature>, f: Feature)
    ensures Named(s + [f]) == if HasName(f) then Named(s) + [f] else Named(s)
  {
    if |s| > 0 {
      assert (s + [f])[1..] == s[1..] + [f];
      NamedAppend(s[1..], f);
    } else {
      assert s + [f] == [f];
    }
  }

  lemma CleanAllAppend(s: seq<Feature>, f: Feature)
    ensures CleanAll(s + [f]) == CleanAll(s) + [CleanFeature(f)]
  {
  }

  /** Cleaning changes only the 海南省 MultiPolygon: every other kept feature is untouched. */
  lemma CleanFeatureOnlyHainan(f: Feature)
    requires !(NamedAs(f, "海南省") && f.geometry.Some? && f.geometry.value.MultiPolygon?)
    ensures CleanFeature(f) == f
  {
  }

  lemma CleanFeatureIdempotent(f: Feature)
    ensures CleanFeature(CleanFeature(f)) == CleanFeature(f)
  {
  }

  lemma {:induction false} NamedOfNamed(s: seq<Feature>)
    requires forall k :: 0 <= k < |s| ==> HasName(s[k])
    ensures Named(s) == s
  {
    if |s| > 0 {
      NamedOfNamed(s[1..]);
    }
  }

  /** Cleaning a cleaned collection again changes nothing. */
  lemma CleanChinaIdempotent(features: seq<Feature>)
    ensures CleanChina(CleanChina(features)) == CleanChina(features)
  {
    var once := CleanChina(features);
    CleanChinaKeepsNamed(features);
    CleanChinaKeepsNamed(once);
    forall k | 0 <= k < |once| ensures HasName(once[k]) {
      assert CleanFeature(Named(features)[k]).properties == Named(features)[k].properties;
    }
    NamedOfNamed(once);
    forall k | 0 <= k < |once| ensures CleanFeature(once[k]) == once[k] {
      CleanFeatureIdempotent(Named(features)[k]);
    }
  }

  /** A loaded GeoJSON document; `processChinaMapData` rewrites its feature list in place. */
  class GeoJsonDocument {
    var features: seq<Feature>

    constructor (fs: seq<Feature>)
      ensures features == fs
    {
      features := fs;
    }
  }

  method ProcessChinaMapData(data: GeoJsonDocument)
    modifies data
    ensures data.features == CleanChina(old(data.features))
  {
    var source := data.features;
    var kept: seq<Feature> := [];
    var i := 0;
    while i < |source|
      invariant 0 <= i <= |source|
      invariant kept == CleanChina(source[..i])
    {
      assert source[..i + 1][..i] == source[..i];
      var feature := source[i];
      if HasName(feature) {
        kept := kept + [CleanFeature(feature)];
      }
      i := i + 1;
    }
    assert source[..i] == source;
    data.features := kept;
  }

  /**
   * `fetchGeoJson` once the file has been read: `loaded` is the document the
   * loader returned for the path. An empty path throws; the clean-up runs
   * only for the China country map.
   */
  method FetchGeoJson(level: MapLevel, region: string, country: string, mapVersion: Option<string>,
                      loaded: GeoJsonDocument) returns (r: Result<GeoJsonDocument>)
    modifies loaded
    ensures GetDetailDataPath(level, region, country, mapVersion) == "" ==>
              r == Err("Detail data path not found") && loaded.features == old(loaded.features)
    ensures GetDetailDataPath(level, region, country, mapVersion) != "" ==> r == Ok(loaded)
    ensures GetDetailDataPath(level, region, country, mapVersion) != "" && level == Country && region == "100000" ==>
              loaded.features == CleanChina(old(loaded.features))
    ensures !(level == Country && region == "100000") ==> loaded.features == old(loaded.features)
  {
    var path := GetDetailDataPath(level, region, country, mapVersion);
    if path == "" {
      return Err("Detail data path not found");
    }
    if level == Country && region == "100000" {
      ProcessChinaMapData(loaded);
    }
    r := Ok(loaded);
  }
}
