// Boundary-file selection and the detail-file selection as shipped in the
// built bundle (packages/core/dist/index.mjs).
module GeoDataServiceBuilt {
  import opened MapTypes

  const WorldBoundary: string := "world/world_edge.geo"
  const ChinaBoundary: string := "china/000000_edge"
  const UsBoundary: string := "us/united-states"
  const WorldDetailBuilt: string := "world/wgs84_world_for_US.geo"

  /** The bundle compares the level as a plain string, so any string can arrive. */
  predicate IsRegionLevel(level: string)
  {
    level == LevelName(Province) || level == LevelName(City) || level == LevelName(County)
  }

  /** The outline file for a level: "" wherever no outline exists. */
  function GetBoundaryDataPath(level: string, region: string, country: string): (r: string)
    ensures level == LevelName(World) ==> r == WorldBoundary
    ensures level == LevelName(Country) ==>
              r == (if region == "100000" then ChinaBoundary else if region == "us" then UsBoundary else "")
    ensures IsRegionLevel(level) ==>
              r == (if country == "100000" then "china/" + region
                    else if country == "us" then "us/" + region + "-all.geo" else "")
    ensures level !in {"world", "country", "province", "city", "county"} ==> r == ""
  {
    if level == "world" then WorldBoundary
    else if level == "country" then
      (if region == "100000" then ChinaBoundary else if region == "us" then UsBoundary else "")
    else if level == "province" || level == "city" || level == "county" then
      (if country == "100000" then "china/" + region else if country == "us" then "us/" + region + "-all.geo" else "")
    else ""
  }

  /** An outline exists only for the world, China or the US and the regions of those two. */
  lemma BoundaryPathNonEmptyIff(level: string, region: string, country: string)
    ensures GetBoundaryDataPath(level, region, country) != "" <==>
            level == "world"
            || (level == "country" && (region == "100000" || region == "us"))
            || (IsRegionLevel(level) && (country == "100000" || country == "us"))
  {
  }

  /** The bundle's detail file: the world file ignores the map version and has no extension. */
  function GetDetailDataPathBuilt(level: string, region: string, country: string): (r: string)
    ensures level == "world" ==> r == WorldDetailBuilt
    ensures level == "country" ==> r == (if region == "100000" then "china/100000_full" else "world/countries/" + region + "-all.geo")
    ensures level == "province" ==> r == (if country == "100000" then "china/" + region + "_full" else "")
    ensures level == "city" || level == "county" ==> r == (if country == "100000" then "china/" + region else "")
    ensures level !in {"world", "country", "province", "city", "county"} ==> r == ""
  {
    if level == "world" then WorldDetailBuilt
    else if level == "country" then (if region == "100000" then "china/100000_full" else "world/countries/" + region + "-all.geo")
    else if level == "province" then (if country == "100000" then "china/" + region + "_full" else "")
    else if level == "city" || level == "county" then (if country == "100000" then "china/" + region else "")
    else ""
  }

  /** Below country level in China, the outline and the detail file of a province differ only by "_full". */
  lemma ProvinceFilesPaired(region: string)
    ensures GetDetailDataPathBuilt("province", region, "100000") == GetBoundaryDataPath("province", region, "100000") + "_full"
  {
  }
}
