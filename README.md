# orch-map, modelled in Dafny

orch-map draws administrative maps (world, country, province, city, county)
with two interchangeable renderers, ECharts and deck.gl, and lets the user
drill down from one level to the next by double-clicking a region. This
project models the logic underneath, one Dafny module per source file:

- the drill-down engine of the ECharts map (`EchartsGeo`): the next-level table,
  the descent guard, adcode resolution, hover hit-testing and series projection;
- the shared navigation state with its per-property listeners (`MapState`);
- the choice of detail and boundary data files and the cleaning of China data
  (`GeoDataService`, `GeoDataServiceBuilt`), and the adcode and level helpers
  (`GeoHelper`);
- GeoJSON geometry: ray-casting point-in-polygon, projection, polygon centre and
  bounds (`GeoJson`, `Coordinate`);
- flow lines on the deck.gl map: the 32-bit string hash and the memoised curvature
  (`CurvatureCalc`), the quadratic Bézier sampler and the trailing dots (`Line2D`),
  the animation clock, the selection and the icon data (`GlMap`), the layer
  slots (`LayerManager`), the icon atlas layout (`IconAtlas`) and the Deck
  instance table (`DeckInstance`);
- utilities: colour conversions, `throttle` and `deepClone` (`CommonUtils`),
  easing and animations (`Animation`), bounds, filters, sorts and grouping
  (`GeoUtils`, `InteractiveFeatures`), clustering and gradients
  (`DataVisualization`);
- the renderer adapters (`EChartsRenderer`, `DeckGLRenderer`, `DeckglAdapter`
  and their event tables in `EventHandlers`), the unified component and the
  renderer factory (`UnifiedMap`, `RendererFactory`);
- the theme, animation, tooltip and map registries (`ThemeManager`,
  `AnimationManager`, `TooltipManager`, `MapRegistry`).

Conventions used throughout:

- Coordinates and other numbers are `real`. JavaScript's `Math.round`, `%`,
  `| 0` and `Math.trunc` are written out in `JsMath`. `sqrt`, `hypot`, `pow`,
  `log2` and the great-circle formulas are function parameters, so nothing is
  assumed about them beyond what each contract states.
- A JavaScript `Map` whose key order can be observed (the registries, the
  presets, `groupData` and `generateColorMap`) is an
  `OrderedMaps.OrderedMap`, which keeps insertion order. The search index
  keeps its key order in a separate list. A `Map` whose order is never read
  (the curvature cache, the event-handler table, the filter cache) is a Dafny
  `map`. An ECharts option object is a `ChartOption.Fields` map from property
  name to value. Spreading a value (`ChartOption.Spread`) gives an object's
  own properties, an array's elements or a string's characters under the
  keys "0", "1", ..., and nothing for any other value.
- NaN, `undefined` and thrown errors are `Option` or `Result` values, or a
  named case such as `GeoHelper.NaNCenterZoom`. A division whose result
  would be infinite is an explicit case where it matters.
- Listeners, handlers, callbacks and rendering objects are opaque ids or
  records. A call to one is recorded in a log field of the class that makes it.
- Timers, `requestAnimationFrame` and clocks are explicit steps, each with a
  `now` parameter. A dynamic import or a constructed renderer is a parameter
  standing for what the import or constructor yields.
- Text is `seq<char>`. Lower-casing and trimming follow ASCII and the
  common white-space characters (`Text`).

Objects whose fields the source reassigns are classes with `modifies` frames:
the navigation state, the layer slots, the Deck table, the deck.gl map, the
adapters, the registries and the search index. Pure helpers are functions, and
the loops in the source become methods proved against those functions.
Lemmas beside each module connect the operations to their partners:
round trips, idempotence, what an update leaves unchanged, and reference
definitions.

## Model

| member | source | states |
|---|---|---|
| EchartsGeo.CheckMapEntryEligibility | packages/core/src/echarts-geo/index.ts:217-239 | the next level is always one level down; none at County, for "南海诸岛" on a country map, and at City level inside a municipality (index.ts:25-26), and only then |
| EchartsGeo.FindNamed | packages/core/src/echarts-geo/index.ts:257 | `find` by `properties.name`: none iff no feature has the name, otherwise the first index that has it |
| EchartsGeo.GetPostCodeByGeoFeatures | packages/core/src/echarts-geo/index.ts:256-268 | "" when no feature has the name; otherwise the code of the first such feature (adcode on the China map, the post-code property elsewhere) |
| EchartsGeo.PostCodeIgnoresLaterFeatures | packages/core/src/echarts-geo/index.ts:256-268 | features after the first one with the name never change the code |
| EchartsGeo.DescentFor | packages/core/src/echarts-geo/index.ts:270-299 | a descent happens iff the level table allows it and it is not Country→Province outside China and the US; World→China gives "100000", World→US gives "us", anything else the post code; the country is the region name or "" |
| EchartsGeo.UnsupportedCountryStops | packages/core/src/echarts-geo/index.ts:278-284 | on a country map other than China or the US no descent happens |
| EchartsGeo.ProjectSeries | packages/core/src/echarts-geo/index.ts:333-353 | a scatter or effectScatter series has every point value projected, a lines series both ends of every line, any other series is unchanged; the series type is kept |
| EchartsGeo.TransSeriesCoordinate2GeoJsonXY | packages/core/src/echarts-geo/index.ts:329-355 | the same number of series, in order, each projected on its own |
| EchartsGeo.NoTransformNoChange | packages/core/src/echarts-geo/index.ts:329-355 | without an `hc-transform` every series except lines is given back unchanged |
| EchartsGeo.SeriesForChart | packages/core/src/echarts-geo/index.ts:357-372 | unprojected series on the China map and on the US country map, projected series everywhere else |
| EchartsGeo.CheckPointInPolygon | packages/core/src/echarts-geo/index.ts:183-188 | true iff the point is inside ring 0 or outside some later ring |
| EchartsGeo.HoleDoesNotExclude | packages/core/src/echarts-geo/index.ts:183-188 | a point inside a hole of a polygon still counts as inside it |
| EchartsGeo.OutsideAHoleIncludes | packages/core/src/echarts-geo/index.ts:183-188 | a point outside the outer ring counts when it is outside a hole |
| EchartsGeo.CheckPointInFeature | packages/core/src/echarts-geo/index.ts:171-181 | polygons by the ring rule, multipolygons when any polygon holds the point, other geometry never |
| EchartsGeo.FirstScatter | packages/core/src/echarts-geo/index.ts:149 | the first series of type "scatter" (effectScatter is not looked at), none iff there is none |
| EchartsGeo.PointsInRegionOnlyFromInside | packages/core/src/echarts-geo/index.ts:156-166 | every sibling id collected comes from a point inside the hovered feature that carries sibling ids |
| EchartsGeo.CollectPointsInRegion | packages/core/src/echarts-geo/index.ts:156-166 | the loop collects the sibling ids of the points inside the hovered feature, in series order |
| EchartsGeo.GetCenterAndZoomByGeometryCoordinates | packages/core/src/echarts-geo/index.ts:755-780 | no coordinates give no centre and zoom 1; otherwise the bounding-box midpoint, and a zoom within [0.5, 6] |
| EchartsGeo.DetailFeatures | packages/core/src/echarts-geo/index.ts:89-91 | the features of the map ECharts holds under the name, and none exactly when no map of that name is registered |
| EchartsGeo.GeoRegistrationMissesDetail | packages/core/src/echarts-geo/index.ts:490-491 | registering the boundary under `detailMap + "-geo"` never changes what the `detailMap` lookup finds |
| EchartsGeo.DetailVertices | packages/core/src/echarts-geo/index.ts:118-123 | the positions of every feature in order, and none exactly when some feature has no geometry for the `in` test |
| EchartsGeo.EchartsMap.constructor | packages/core/src/echarts-geo/index.ts:44-82 | `detailMap` is "", no series, no geo option, not loading, nothing emitted |
| EchartsGeo.EchartsMap.Detail | packages/core/src/echarts-geo/index.ts:89-91 | the detail features are present exactly when ECharts has a map registered under `detailMap` |
| EchartsGeo.EchartsMap.HandleChangeArea | packages/core/src/echarts-geo/index.ts:141-169 | no parameters emit `onHoverArea()`; no scatter data, no detail features in ECharts or no feature of that name emit nothing; otherwise one `onHoverArea` with the sibling ids of the points inside the first feature of that name, in series order |
| EchartsGeo.EchartsMap.DbClick | packages/core/src/echarts-geo/index.ts:256-311 | off the geo component or without a descent, neither events nor state change; a descent that needs a post code while ECharts holds no detail map fails with the TypeError of `find` on undefined and changes nothing; otherwise `onDoubleClickArea` once, then curLevel, adcode and country written in that order with their notifications |
| EchartsGeo.EchartsMap.SetGeoData | packages/core/src/echarts-geo/index.ts:99-139 | without detail only the loading flag is cleared; otherwise the geo option names `detailMap` with zoom 1, no border and a shadow at world level, and below country level the midpoint of the box around every detail position as its centre; a feature without geometry there fails before the flag is cleared |
| EchartsGeo.EchartsMap.FindPointByData | packages/core/src/echarts-geo/index.ts:605-610 | never a point: every path ends without returning one |
| MapState.DeliveriesAt | packages/core/src/MapStateManager.ts:137-147 | one call per listener of the property, in registration order, each with the new and the old value |
| MapState.RemoveFirst | packages/core/src/MapStateManager.ts:118-121 | a listener that is absent leaves the list as it was |
| MapState.RemoveFirstRemovesOne | packages/core/src/MapStateManager.ts:118-121 | when the listener is present, the list loses exactly one occurrence of it and nothing else |
| MapState.Subscribed | packages/core/src/MapStateManager.ts:108-112 | the listener is appended to its key's list, which is created when missing; every other key is untouched |
| MapState.Unsubscribed | packages/core/src/MapStateManager.ts:115-126 | an absent key or an unregistered listener changes nothing; otherwise the first registration is dropped and the key deleted once its list is empty; other keys are untouched |
| MapState.UnsubscribeTwiceIsOnce | packages/core/src/MapStateManager.ts:115-126 | calling the returned closure a second time changes nothing when the listener was registered once |
| MapState.SubscribeThenUnsubscribe | packages/core/src/MapStateManager.ts:104-127 | subscribing a new listener and calling its closure restores the listener table exactly |
| MapState.MapStateManager.constructor | packages/core/src/MapStateManager.ts:16-23 | World level, country and adcode "100000", no geo data, no listeners |
| MapState.MapStateManager.Notify | packages/core/src/MapStateManager.ts:132-148 | every listener of the property is called with (new, old), in registration order; none when the key has none |
| MapState.MapStateManager.SetCurLevel | packages/core/src/MapStateManager.ts:33-37 | the level is stored, then its listeners hear (new, old) |
| MapState.MapStateManager.SetCountry | packages/core/src/MapStateManager.ts:44-48 | the country is stored, then its listeners hear (new, old) |
| MapState.MapStateManager.SetAdcode | packages/core/src/MapStateManager.ts:55-59 | the adcode is stored, then its listeners hear (new, old) |
| MapState.MapStateManager.SetGeoDataProperty | packages/core/src/MapStateManager.ts:66-70 | the geo data is stored, then its listeners hear (new, old) |
| MapState.MapStateManager.SetGeoData | packages/core/src/MapStateManager.ts:76-78 | the same as assigning the geoData property, notification included |
| MapState.MapStateManager.Reset | packages/core/src/MapStateManager.ts:93-99 | back to the defaults without notifying anyone; listeners kept |
| MapState.MapStateManager.OnPropertyChange | packages/core/src/MapStateManager.ts:104-112 | the listener table becomes `Subscribed` under the key `property-<name>` |
| MapState.MapStateManager.Unsubscribe | packages/core/src/MapStateManager.ts:115-126 | the listener table becomes `Unsubscribed` under the key `property-<name>` |
| MapState.MapStateManager.Destroy | packages/core/src/MapStateManager.ts:153-156 | no listeners, every property at its default, and nobody notified |
| MapState.IndexOf | packages/core/src/MapStateManager.ts:118 | -1 iff the listener is absent, otherwise the position of its first occurrence |
| MapState.RemoveFirstAt | packages/core/src/MapStateManager.ts:118-121 | removing a listener whose first occurrence is at a position drops exactly that position |
| MapState.RemoveFirstAppended | packages/core/src/MapStateManager.ts:108-121 | removing a listener appended last to a list without it gives the list back |
| MapState.DeliveriesAppend | packages/core/src/MapStateManager.ts:137-147 | the calls for a concatenated listener list are the calls for each part, in order |
| GeoDataService.GetDetailDataPath | packages/core/src/utils/geoDataService.ts:88-115 | the world file is the "for US" one iff the map version is "standard"; China's country file is fixed, other countries' files follow the region; below country level only China has files (`_full.json` for a province, `.json` for a city or county), "" elsewhere |
| GeoDataService.DetailPathEmptyIff | packages/core/src/utils/geoDataService.ts:88-115 | the path is "" exactly below country level outside China |
| GeoDataService.CountryPathInjective | packages/core/src/utils/geoDataService.ts:95-101 | different countries load different country files |
| GeoDataService.CleanChina | packages/core/src/utils/geoDataService.ts:120-139 | cleaning never adds features |
| GeoDataService.CleanChinaKeepsNamed | packages/core/src/utils/geoDataService.ts:122-136 | cleaning keeps exactly the features with a name, in their order, each cleaned |
| GeoDataService.Named | packages/core/src/utils/geoDataService.ts:123-125 | only features with a non-empty name are kept |
| GeoDataService.CleanFeatureOnlyHainan | packages/core/src/utils/geoDataService.ts:128-133 | only the 海南省 MultiPolygon is changed; every other kept feature is untouched |
| GeoDataService.CleanFeatureIdempotent | packages/core/src/utils/geoDataService.ts:128-133 | cutting Hainan to its first polygon twice is cutting it once |
| GeoDataService.CleanChinaIdempotent | packages/core/src/utils/geoDataService.ts:120-139 | cleaning a cleaned collection changes nothing |
| GeoDataService.ProcessChinaMapData | packages/core/src/utils/geoDataService.ts:120-139 | the document's features are replaced, in place, by their cleaned list |
| GeoDataService.FetchGeoJson | packages/core/src/utils/geoDataService.ts:144-158 | an empty path fails with "Detail data path not found" and touches nothing; otherwise the loaded document, cleaned only for the China country map |
| GeoDataServiceBuilt.GetBoundaryDataPath | packages/core/dist/index.mjs:55-79 | the world outline; China's and the US's country outlines and "" for other countries; region outlines for China and the US only; "" for any other level |
| GeoDataServiceBuilt.BoundaryPathNonEmptyIff | packages/core/dist/index.mjs:55-79 | an outline exists exactly for the world, China, the US and the regions of those two |
| GeoDataServiceBuilt.GetDetailDataPathBuilt | packages/core/dist/index.mjs:83-105 | the bundled paths: one world file whatever the map version, and no `.json` extensions |
| GeoDataServiceBuilt.ProvinceFilesPaired | packages/core/dist/index.mjs:55-105 | a Chinese province's detail path is its outline path plus "_full" |
| GeoDataService.CleanAll | packages/core/src/utils/geoDataService.ts:128-133 | one cleaned feature per feature, in order |
| GeoDataService.CleanAllAppend | packages/core/src/utils/geoDataService.ts:128-133 | cleaning a list with one more feature cleans that feature last |
| GeoDataService.NamedAppend | packages/core/src/utils/geoDataService.ts:123-125 | one more feature is kept exactly when it has a name |
| GeoDataService.NamedOfNamed | packages/core/src/utils/geoDataService.ts:123-125 | a list whose features all have names is kept whole |
| GeoDataService.GeoJsonDocument.constructor | packages/core/src/utils/geoDataService.ts:120 | the document holds the given features |
| GeoHelper.GetMapCenterAndZoom | packages/core/src/utils/geo.helper.ts:25-50 | no centre and zoom 1 for an empty list; a NaN centre and zoom exactly when an entry has no coordinates; otherwise the bounding-box midpoint, and a zoom never below 1 |
| GeoHelper.ZoomFiniteIffSpread | packages/core/src/utils/geo.helper.ts:43-48 | when every entry is a position, the zoom is finite exactly when the points span a non-zero width or height (a zero span divides to Infinity) |
| GeoHelper.Leaves | packages/core/src/utils/geo.helper.ts:59-65 | the positions the walk pushes for one geometry's coordinates are its vertices in order, and it pushes an entry without coordinates exactly when the coordinates hold an empty array at some level |
| GeoHelper.AllLeaves | packages/core/src/utils/geo.helper.ts:57-70 | over a list of coordinate arrays, the positions pushed are all their vertices in order, and an entry without coordinates is pushed exactly when one of the arrays holds an empty array |
| GeoHelper.FlattenCoordinate | packages/core/src/utils/geo.helper.ts:57-70 | the result is the walk over each coordinate array in turn; a position is in it iff it is a position of one of the arrays; it holds an entry without coordinates iff one of the arrays holds an empty array |
| GeoHelper.EmptyMultiPointIsNaN | packages/core/src/utils/geo.helper.ts:36-47 | a Point followed by an empty MultiPoint gives a NaN centre and zoom |
| GeoHelper.GetMapCenterAndZoomByGeometryCoordinates | packages/core/src/utils/geo.helper.ts:75-79 | the centre and zoom of the flattened list: NaN exactly when some coordinate array holds an empty array; no centre and zoom 1 for no arrays; otherwise the midpoint of the bounds of all vertices |
| GeoHelper.CorrectOne | packages/core/src/utils/geo.helper.ts:107-110 | "" for an empty code; otherwise the level's prefix of the code followed by zeros, six characters when the code is long enough |
| GeoHelper.CorrectAdCodeByLevel | packages/core/src/utils/geo.helper.ts:88-114 | two codes; ["100000", ""] at World and Country level, otherwise both codes cut to 2, 4 or 6 characters and padded |
| GeoHelper.CorrectionIdempotent | packages/core/src/utils/geo.helper.ts:88-114 | correcting a corrected code at the same level changes nothing |
| GeoHelper.MapLevelMatrix | packages/core/src/utils/geo.helper.ts:120-134 | World 0, Country 1, Province 2, City 3, County 4 |
| GeoHelper.LevelNumToLevel | packages/core/src/utils/geo.helper.ts:136-149 | any number outside 1..4 reads as World |
| GeoHelper.LevelNumberRoundTrip | packages/core/src/utils/geo.helper.ts:120-149 | numbering a level and reading the number back gives the level |
| GeoHelper.LevelNumberRoundTripBack | packages/core/src/utils/geo.helper.ts:120-149 | reading a number in 0..4 and numbering the level gives the number back |
| GeoHelper.ConvertDeviceStatus2Order | packages/core/src/utils/geo.helper.ts:155-171 | 1 iff the upper-cased status is ACTIVE or ONLINE, 2 iff it is PENDING, SUSPENDED, OFFLINE, WARNING or ERROR, 0 otherwise; upper-casing covers every character whose upper case holds an ASCII letter (ı, ſ, ß and the Latin ligatures besides a..z) |
| GeoHelper.ToUpperIdempotent | packages/core/src/utils/geo.helper.ts:156 | upper-casing twice is upper-casing once |
| GeoHelper.LigatureStatus | packages/core/src/utils/geo.helper.ts:155-171 | a status spelled with the "ffl" ligature upper-cases to OFFLINE and sorts as 2 |
| GeoHelper.DeviceStatusIgnoresCase | packages/core/src/utils/geo.helper.ts:157 | the order of a status and of its upper-cased form agree |
| GeoHelper.RemoveRegionSuffix | packages/core/src/utils/geo.helper.ts:178-180 | never longer than the name, and none of the one-character suffixes is left |
| GeoHelper.NoSuffixUnchanged | packages/core/src/utils/geo.helper.ts:178-180 | a name with no suffix character passes through unchanged |
| GeoHelper.RemoveRegionSuffixIdempotent | packages/core/src/utils/geo.helper.ts:178-180 | stripping twice is stripping once |
| GeoJson.IsPointInPolygon | packages/utils/src/geoJson.ts:13-27 | the loop's answer is the parity of the ray crossings over all edges (i, i-1), closing edge included; an empty ring holds nothing |
| GeoJson.BelowEveryVertexIsOutside | packages/utils/src/geoJson.ts:13-27 | a point strictly below every vertex of a ring is outside it |
| GeoJson.RightOfEveryVertexIsOutside | packages/utils/src/geoJson.ts:13-27 | a point at or right of every vertex of a ring is outside it |
| GeoJson.IsPointInFeature | packages/utils/src/geoJson.ts:32-46 | a polygon by its outer ring, a multipolygon when any outer ring holds the point, any other geometry never |
| GeoJson.HolesIgnored | packages/utils/src/geoJson.ts:35-37 | the holes of a polygon never change the answer |
| GeoJson.LngLatToProjected | packages/utils/src/geoJson.ts:51-66 | without a transform the input comes back; with one each axis is scaled then translated |
| GeoJson.ProjectionRoundTrip | packages/utils/src/geoJson.ts:51-66 | with non-zero scales projecting loses nothing: the inverse transform gives the point back |
| GeoJson.GetPolygonCenter | packages/utils/src/geoJson.ts:71-99 | the loop computes the outer ring's shoelace centroid; (0, 0) for no ring, an empty ring or zero area |
| GeoJson.RectangleCentroid | packages/utils/src/geoJson.ts:71-99 | the centre of an axis-aligned rectangle with non-zero sides, listed corner by corner, is the midpoint of its diagonal |
| GeoJson.BoundsOfTight | packages/utils/src/geoJson.ts:104-130 | the tightest box: it contains every vertex and each of its edges is reached by one |
| GeoJson.GetBounds | packages/utils/src/geoJson.ts:104-130 | none iff the geometry has no vertex (the source's ±Infinity box), otherwise the tightest box around its vertices |
| GeoJson.CreateFeatureCollection | packages/utils/src/geoJson.ts:135-140 | a collection of exactly the given features, empty by default |
| CurvatureCalc.HashFold | packages/core/src/utils/curvatureCalculator.ts:16-20 | every step of `(h << 5) - h + unit` followed by the 32-bit wrap stays a signed 32-bit value |
| CurvatureCalc.HashFoldIsPolynomial | packages/core/src/utils/curvatureCalculator.ts:15-20 | the folded hash equals the polynomial hash Σ 31^(n-1-i)·unit_i modulo 2^32 |
| CurvatureCalc.HashValueRange | packages/core/src/utils/curvatureCalculator.ts:15-23 | the hash value is never negative, and is at most 1 exactly when the fold does not end at -2^31 |
| CurvatureCalc.CalculateCurvatureRange | packages/core/src/utils/curvatureCalculator.ts:45-63 | one of (0.1, 0.3), (0.2, 0.5), (0.5, 1.0), and (0.1, 0.3) iff the endpoints are equal |
| CurvatureCalc.RangeBySpans | packages/core/src/utils/curvatureCalculator.ts:56-62 | for distinct endpoints, (0.5, 1.0) iff the smaller span is more than half the larger (both quotients resolved, division by zero included); a line along one axis gets (0.2, 0.5) |
| CurvatureCalc.DerivedRangeIsValid | packages/core/src/utils/curvatureCalculator.ts:45-63 | a derived range always passes the check at line 78, so only a custom range can throw |
| CurvatureCalc.Curvature | packages/core/src/utils/curvatureCalculator.ts:33-39 | a key seen before returns its stored value and stores nothing; a fresh key stores its value, which is returned |
| CurvatureCalc.RepeatedKeyKeepsFirstValue | packages/core/src/utils/curvatureCalculator.ts:33-39 | a second call with the same key returns the first value whatever bounds it passes |
| CurvatureCalc.FreshCurvatureInRange | packages/core/src/utils/curvatureCalculator.ts:33-39 | a fresh key's curvature lies in [min, max] when the hash is at most 1 |
| CurvatureCalc.RangeFor | packages/core/src/utils/curvatureCalculator.ts:77 | the custom range when given, otherwise a derived (valid) one |
| CurvatureCalc.CurvatureCalculator.constructor | packages/core/src/utils/curvatureCalculator.ts:7 | the cache starts empty |
| CurvatureCalc.CurvatureCalculator.HashString | packages/core/src/utils/curvatureCalculator.ts:15-23 | the loop computes the hash value of the string's code units |
| CurvatureCalc.CurvatureCalculator.CurvatureOf | packages/core/src/utils/curvatureCalculator.ts:33-39 | the result and the new cache are those of the `Curvature` function |
| CurvatureCalc.CurvatureCalculator.CalculateCurvatureByCoordinates | packages/core/src/utils/curvatureCalculator.ts:69-82 | an invalid range in force throws the range message and leaves the cache alone; otherwise the memoised curvature for that range |
| CurvatureCalc.CurvatureCalculator.ClearCache | packages/core/src/utils/curvatureCalculator.ts:85-87 | the cache is empty |
| CurvatureCalc.CurvatureCalculator.GetCacheMap | packages/core/src/utils/curvatureCalculator.ts:90-92 | a copy equal to the cache |
| Line2D.ChordLength | packages/core/src/deckgl/line2d.ts:64 | the chord length, falling back to 1 when zero, is never zero |
| Line2D.ControlPointOffset | packages/core/src/deckgl/line2d.ts:60-71 | the chord length cancels: the control point is the midpoint moved by 0.3·curvature times the chord turned a quarter anticlockwise; equal ends put it on them |
| Line2D.BezierEnds | packages/core/src/deckgl/line2d.ts:75-78 | the curve passes through the start at t = 0 and the end at t = 1 |
| Line2D.BezierPathShape | packages/core/src/deckgl/line2d.ts:73-81 | `segments + 1` points, the first the start and the last exactly the end |
| Line2D.BuildQuadraticBezierPath | packages/core/src/deckgl/line2d.ts:50-82 | the loop produces the sampled curve, point i at t = i / segments |
| Line2D.MemoAfterCovers | packages/core/src/deckgl/line2d.ts:104-110 | after drawing, every line's id has a curvature and earlier entries keep theirs |
| Line2D.ResolveTrail | packages/core/src/deckgl/line2d.ts:162-168 | absent options take 12 dots, radii 1 and 0.5, alphas 255 and 60, span 0.01; a given dot count is used |
| Line2D.Gap | packages/core/src/deckgl/line2d.ts:169 | the spacing divisor `max(1, dotsPerLine - 1)` is at least 1 |
| Line2D.DotParameterInUnit | packages/core/src/deckgl/line2d.ts:201-202 | `((t % 1) + 1) % 1` is the fractional part of the raw parameter, in [0, 1) |
| Line2D.BaseRgb | packages/core/src/deckgl/line2d.ts:195-197 | three components, each the line's own or 255 |
| Line2D.LineDots | packages/core/src/deckgl/line2d.ts:199-209 | `dotsPerLine` dots per line |
| Line2D.AllDotsCount | packages/core/src/deckgl/line2d.ts:171-210 | exactly `dotsPerLine` dots for each line |
| Line2D.AllDotsLayout | packages/core/src/deckgl/line2d.ts:171-210 | line-major order: dot j of line i is at index i·dotsPerLine + j |
| Line2D.RadiusEnds | packages/core/src/deckgl/line2d.ts:200-206 | the weight is 1 at the head and 0 at the last dot, so their radii are round(head) and round(tail) |
| Line2D.DotColor | packages/core/src/deckgl/line2d.ts:207-208 | the line's RGB followed by the alpha for the dot's weight |
| Line2D.LineRenderer2D.constructor | packages/core/src/deckgl/line2d.ts:94-96 | the renderer uses the calculator it is given |
| Line2D.LineRenderer2D.LineCurvature | packages/core/src/deckgl/line2d.ts:105-109 | the memoised curvature for the line's id over its derived range |
| Line2D.FullPathsAt | packages/core/src/deckgl/line2d.ts:103-113 | the resident-curve data has one entry per line, entry k being line k drawn with curvature k |
| Line2D.LineRenderer2D.BuildFullCurveData | packages/core/src/deckgl/line2d.ts:103-113 | one 64-segment curve per line, in order, each with the line's memoised curvature |
| Line2D.LineRenderer2D.BuildLineDots | packages/core/src/deckgl/line2d.ts:180-209 | the inner loop yields the line's dots, head first |
| Line2D.LineRenderer2D.BuildMovingDotsData | packages/core/src/deckgl/line2d.ts:150-210 | every line's dots at the shared progress, line after line, each with its memoised curvature |
| LayerManager.Replacement | packages/core/src/deckgl/layerManager.ts:49-63 | an incoming instance is rebuilt with its own class and `id` = the slot when its string id differs, and stored as given otherwise |
| LayerManager.Patched | packages/core/src/deckgl/layerManager.ts:67-73 | a patch rebuilds the old layer's class from its props, then the patch, then `id` = the slot, later ones winning; no other prop appears |
| LayerManager.Updated | packages/core/src/deckgl/layerManager.ts:31-74 | corrected form (see "## Findings"): an empty slot takes an instance and ignores a patch; an occupied slot takes the replacement of an instance or the merge of a patch; other slots untouched |
| LayerManager.UpdatedAsWritten | packages/core/src/deckgl/layerManager.ts:32-36 | with the guard as written every object counts as an instance, so a patch is stored as if it were a layer |
| LayerManager.PatchReplacesLayerAsWritten | packages/core/src/deckgl/layerManager.ts:32-63 | as written, the patch `{visible: false}` on the path layer throws the layer away |
| LayerManager.InstancesUnaffected | packages/core/src/deckgl/layerManager.ts:32-36 | for real layer instances both guards give the same registry |
| LayerManager.PatchMergesIntoLayer | packages/core/src/deckgl/layerManager.ts:66-73 | a patch on an existing layer keeps its class, overrides the old props and pins the slot id |
| LayerManager.Added | packages/core/src/deckgl/layerManager.ts:17-23 | a fresh id stores the layer; a taken one is an update, with the corrected instance guard (see "## Findings") |
| LayerManager.UpdateKeepsSlotId | packages/core/src/deckgl/layerManager.ts:31-74 | after an update of an occupied slot, a string id on the stored layer is the slot's id |
| LayerManager.RemoveIdempotent | packages/core/src/deckgl/layerManager.ts:79-83 | only that slot is removed, and removing twice is removing once |
| LayerManager.MapLayerManager.constructor | packages/core/src/deckgl/layerManager.ts:12 | no layers |
| LayerManager.MapLayerManager.AddLayer | packages/core/src/deckgl/layerManager.ts:17-23 | the registry becomes `Added`, which updates a taken id with the corrected instance guard (see "## Findings") |
| LayerManager.MapLayerManager.UpdateLayer | packages/core/src/deckgl/layerManager.ts:31-74 | the registry becomes `Updated` (the intended guard) |
| LayerManager.MapLayerManager.RemoveLayer | packages/core/src/deckgl/layerManager.ts:79-83 | the slot is removed, nothing else |
| LayerManager.MapLayerManager.GetLayers | packages/core/src/deckgl/layerManager.ts:90-92 | four entries in the fixed slot order, undefined exactly where a slot is empty |
| IconAtlas.Entries | packages/core/src/deckgl/iconAtlas.ts:57 | `Object.entries`: one pair per key, in property order |
| IconAtlas.Assign | packages/core/src/deckgl/index.ts:339 | assigning a property: an existing key keeps its place and takes the new value, a new key goes last |
| IconAtlas.SpreadEffect | packages/core/src/deckgl/index.ts:339-349 | `{...a, ...b}`: every key of `b` takes its value from `b`, every other key from `a`; `a`'s keys keep their places and `b`'s new keys follow in `b`'s order |
| IconAtlas.SpreadValues | packages/core/src/deckgl/index.ts:339-349 | the spread's lookup is `a`'s overridden by `b`'s |
| IconAtlas.LayoutOf | packages/core/src/deckgl/iconAtlas.ts:57-68 | the layout exists iff every icon loads |
| IconAtlas.SizesOf | packages/core/src/deckgl/iconAtlas.ts:58 | one size per icon, the loaded image's |
| IconAtlas.LayoutSize | packages/core/src/deckgl/iconAtlas.ts:53-68 | the canvas is as wide as all icons together and as tall as the tallest |
| IconAtlas.LayoutKeys | packages/core/src/deckgl/iconAtlas.ts:59-65 | the mapping holds exactly the icons' keys |
| IconAtlas.LayoutRects | packages/core/src/deckgl/iconAtlas.ts:59-67 | with distinct keys each icon sits at x = the widths before it, y = 0, at its own size, masked |
| IconAtlas.RectsDisjointAndInside | packages/core/src/deckgl/iconAtlas.ts:59-67 | rectangles of different icons do not overlap, and each lies inside the canvas |
| IconAtlas.BuildIconAtlas | packages/core/src/deckgl/iconAtlas.ts:51-91 | the loop's layout; a load failure rejects, and a canvas without a 2D context throws after the layout |
| IconAtlas.EntriesDistinct | packages/core/src/deckgl/iconAtlas.ts:57 | a dictionary's entries have distinct keys, so the layout lemmas apply to every atlas built |
| DeckInstance.Overlay | packages/core/src/deckgl/deckInstance.ts:56-62 | object spread over view states: a field the later object has wins, every other field comes from the earlier one |
| DeckInstance.ModeOf | packages/core/src/deckgl/deckInstance.ts:41 | the mode given in the props, "2d" when there is none |
| DeckInstance.InitialViewFields | packages/core/src/deckgl/deckInstance.ts:14-60 | every view field the caller gives wins, the others are the defaults (0, 30, 1, 0), and pitch defaults to 45 in 3D |
| DeckInstance.ClampLatitude | packages/core/src/deckgl/deckInstance.ts:68 | the latitude clamped into [-30, 30]: unchanged inside, the nearer bound outside |
| DeckInstance.ViewStateChange | packages/core/src/deckgl/deckInstance.ts:63-71 | the same view state with only its latitude clamped |
| DeckInstance.ViewStateChangeIdempotent | packages/core/src/deckgl/deckInstance.ts:63-71 | clamping twice is clamping once, and an in-range view passes unchanged |
| DeckInstance.Registered | packages/core/src/deckgl/deckInstance.ts:26-75 | a taken id throws "already exists"; otherwise exactly that id is added, with the canvas, the merged initial view and the mode |
| DeckInstance.Lookup | packages/core/src/deckgl/deckInstance.ts:81-87 | the registered Deck iff the id is registered, otherwise "does not exist" |
| DeckInstance.Removed | packages/core/src/deckgl/deckInstance.ts:92-98 | only a registered id is removed; otherwise "does not exist" |
| DeckInstance.TableLifecycle | packages/core/src/deckgl/deckInstance.ts:26-98 | a registered id can be looked up, cannot be registered twice, and once removed can be neither looked up nor removed; the table returns to what it was |
| DeckInstance.DeckInstanceTable.constructor | packages/core/src/deckgl/deckInstance.ts:11 | no instances |
| DeckInstance.DeckInstanceTable.SetInstance | packages/core/src/deckgl/deckInstance.ts:26-75 | the table becomes `Registered` on success; on a taken id the message is thrown and the table is unchanged |
| DeckInstance.DeckInstanceTable.GetInstance | packages/core/src/deckgl/deckInstance.ts:81-87 | the `Lookup` of the id |
| DeckInstance.DeckInstanceTable.RemoveInstance | packages/core/src/deckgl/deckInstance.ts:92-98 | the table becomes `Removed` on success; otherwise the message is thrown and the table is unchanged |
| GlMap.TickKeepsClock | packages/core/src/deckgl/index.ts:54-306 | a tick keeps the clock inside the six-hour loop and on a whole tick |
| GlMap.TicksFromZero | packages/core/src/deckgl/index.ts:306 | after n ticks from 0 the clock reads 60·n mod 21600 |
| GlMap.TimeRange | packages/core/src/deckgl/index.ts:307-308 | the window ends at the clock, is never longer than the one-hour trail, and starts at 0 early in the loop |
| GlMap.ProgressInUnit | packages/core/src/deckgl/index.ts:315 | the 2D progress lies in [0, 1) |
| GlMap.ArcTimestamps | packages/core/src/deckgl/line3d.ts:46-47 | line i's arc runs from i·300 for 1000 |
| GlMap.MapClickSelection | packages/core/src/deckgl/index.ts:152-161 | a click on a point-layer object keeps the selection; any other click leaves no selection |
| GlMap.PointClickSelection | packages/core/src/deckgl/index.ts:204-210 | the picked object's id, or null when there is none |
| GlMap.IconLayerData | packages/core/src/deckgl/index.ts:216-233 | one datum per point, in order, at height 50, size 24, icon "star" and opaque white unless the point has its own |
| GlMap.DisplaySizes | packages/core/src/deckgl/index.ts:257 | one size per datum |
| GlMap.OnlySelectedEnlarged | packages/core/src/deckgl/index.ts:257 | exactly the points with the selected id are drawn at 38.4 (24 × 1.6); all others at 24 |
| GlMap.MapClickOffPointsShrinksAll | packages/core/src/deckgl/index.ts:152-257 | after a click off the point layer no point is enlarged |
| GlMap.MergedIconsEffect | packages/core/src/deckgl/index.ts:349 | the rebuilt atlas has the three default icons first, then the extras; an extra overrides a default with its key |
| GlMap.RegisterTwice | packages/core/src/deckgl/index.ts:339 | registering twice leaves each key with its latest SVG |
| GlMap.Present | packages/core/src/deckgl/index.ts:292-299 | the registered layers without the empty slots |
| GlMap.DeckglMap.constructor | packages/core/src/deckgl/index.ts:38-81 | clock 0, no selection, points, lines, extra icons or atlas, timer stopped, empty curvature cache |
| GlMap.DeckglMap.PushLayers | packages/core/src/deckgl/index.ts:292-299 | the Deck receives the present layers in slot order; nothing else changes |
| GlMap.DeckglMap.UpdateSelectionOverlay | packages/core/src/deckgl/index.ts:327-332 | the point layer is rebuilt from the points and the selection, put in its slot and pushed |
| GlMap.DeckglMap.HandleClickMapView | packages/core/src/deckgl/index.ts:152-161 | the selection becomes `MapClickSelection`; the point layer is rebuilt only when a selection was cleared |
| GlMap.DeckglMap.HandleClickPoint | packages/core/src/deckgl/index.ts:204-210 | the selection becomes the picked id and the point layer is rebuilt |
| GlMap.DeckglMap.SetPoints | packages/core/src/deckgl/index.ts:273-276 | the points are stored and the point layer rebuilt |
| GlMap.DeckglMap.SetLines | packages/core/src/deckgl/index.ts:281-283 | the lines are stored and nothing is redrawn |
| GlMap.DeckglMap.SetGEOData | packages/core/src/deckgl/index.ts:167-199 | the base map layer is added in its slot and the layers pushed |
| GlMap.DeckglMap.UpdateArcAnimation | packages/core/src/deckgl/index.ts:305-321 | the clock ticks; in 3D the arc layer is rebuilt over the new window; in 2D the curves and dots are rebuilt at the new progress; then the layers are pushed |
| GlMap.DeckglMap.UpdateArcs3D | packages/core/src/deckgl/index.ts:310-312 | in 3D the arc data covers the clock's trailing window and the arc layer replaces the line slot, nothing else in the layer list changes |
| GlMap.DeckglMap.UpdateLines2D | packages/core/src/deckgl/index.ts:313-318 | the curve and dot layers are rebuilt with the memoised curvatures and put in their slots |
| GlMap.DeckglMap.RegisterExtraSvgIcons | packages/core/src/deckgl/index.ts:338-343 | the new icons are spread over the extras; the atlas is rebuilt only when one exists |
| GlMap.DeckglMap.RebuildIconAtlas | packages/core/src/deckgl/index.ts:348-352 | the atlas is built from the defaults and the extras, then the point layer rebuilt; a build failure leaves the old atlas |
| GlMap.DeckglMap.StartArcAnimation | packages/core/src/deckgl/index.ts:358-369 | the timer runs, replacing any running one |
| GlMap.DeckglMap.Destroy | packages/core/src/deckgl/index.ts:375-380 | the timer is stopped; the Deck stays registered |
| GlMap.DeckglMap.InitDeck | packages/core/src/deckgl/index.ts:93-129 | the Deck is registered with the clamped zoom (or the registration error is raised), the base map added when the state has one, the atlas built and rebuilt for extras, and the timer started |
| GlMap.DeckglMap.LoadAtlasAndAnimate | packages/core/src/deckgl/index.ts:118-128 | an error is reported exactly when the default atlas, or the rebuild with registered extras, fails; otherwise an atlas is held and the animation runs |
| GlMap.InitialZoomView | packages/core/src/deckgl/index.ts:99-107 | zoom clamped into [0, 20], latitude 30, longitude 0 |
| GlMap.MemoAfterKnown | packages/core/src/deckgl/index.ts:314-316 | lines whose ids are memoised add nothing to the curvature cache |
| GlMap.MemoAfterTwice | packages/core/src/deckgl/index.ts:314-316 | the second of the two passes in a 2D tick adds nothing to the cache |
| Coordinate.BoundsTight | packages/utils/src/coordinate.ts:74-92 | the box of a non-empty list has min ≤ max, holds every coordinate, and each of its four edges is reached by one |
| Coordinate.GetBounds | packages/utils/src/coordinate.ts:74-92 | the loop gives the zero box for no coordinates and the tight box otherwise |
| Coordinate.BoundsCenter | packages/utils/src/coordinate.ts:97-100 | the centre is equidistant from both edges on each axis, and inside any box with min ≤ max |
| Coordinate.ZoomFromBounds | packages/utils/src/coordinate.ts:105-117 | never above 18, and exactly 18 for a box of one point |
| Coordinate.GenerateBezierPath | packages/utils/src/coordinate.ts:122-154 | with curvature 0.3 and 64 segments by default, the loop samples the same curve as the 2D flow lines |
| Coordinate.DefaultPathShape | packages/utils/src/coordinate.ts:122-154 | with the default segments, 65 points from the start exactly to the end |
| Coordinate.DistanceCurvature | packages/utils/src/coordinate.ts:159-164 | within [0, 0.5] for a distance ≥ 0, 0.5 from 1000 km up, and distance / 2e6 below |
| Coordinate.DistanceCurvatureMonotone | packages/utils/src/coordinate.ts:159-164 | a longer distance never gives a smaller curvature |
| Coordinate.CurvatureCalculator.constructor | packages/utils/src/coordinate.ts:171 | an empty cache |
| Coordinate.CurvatureCalculator.CalculateCurvatureByCoordinates | packages/utils/src/coordinate.ts:176-188 | a cached id returns its first value whatever the coordinates; a new id gets the distance curvature, which is cached |
| Coordinate.CurvatureCalculator.ClearCache | packages/utils/src/coordinate.ts:193-195 | an empty cache |
| CommonUtils.DefIsNotUndef | packages/utils/src/common.ts:7-23 | `isDef` and `isUndef` are each other's negation |
| CommonUtils.EmptyArrayCases | packages/utils/src/common.ts:14-16 | anything that is not an array counts as empty; an array is empty iff it has no items |
| CommonUtils.DeepCloneEqual | packages/utils/src/common.ts:28-42 | the copy is structurally equal to the original at every depth |
| CommonUtils.Fired | packages/utils/src/common.ts:61-73 | the runs of a throttled function are among its calls |
| CommonUtils.FiredSpacing | packages/utils/src/common.ts:61-73 | consecutive runs are at least `delay` apart, the first at least `delay` after time 0 |
| CommonUtils.Throttle.constructor | packages/utils/src/common.ts:65 | no calls, no runs, `lastTime` 0 |
| CommonUtils.Throttle.Call | packages/utils/src/common.ts:66-72 | a call runs `fn` iff `now - lastTime >= delay`, and only a run moves `lastTime` |
| CommonUtils.HexValueOfDigit | packages/utils/src/common.ts:91-93 | each hex digit reads back as its value |
| CommonUtils.RgbaToHexShape | packages/utils/src/common.ts:100-103 | for byte components, "#" and two lowercase hex digits per component |
| CommonUtils.RgbaToHexDigits | packages/utils/src/common.ts:100-103 | seven characters, all but the "#" hex digits |
| CommonUtils.HexRoundTrip | packages/utils/src/common.ts:90-103 | `hexToRgba(rgbaToHex(c), a)` gives back c's components with the alpha a |
| CommonUtils.InterpolateColor | packages/utils/src/common.ts:108-121 | t = 0 gives the first colour, t = 1 the second, and t in [0, 1] keeps every component between the two |
| CommonUtils.MixBetween | packages/utils/src/common.ts:116 | one rounded component at t lies between its two ends for t in [0, 1] |
| Animation.EasingByName | packages/utils/src/animation.ts:9-127 | each name in the table selects its easing |
| Animation.UnknownEasingIsLinear | packages/utils/src/animation.ts:127 | a name not in the table falls back to linear |
| Animation.EasingEnds | packages/utils/src/animation.ts:9-17 | every easing maps 0 to 0 and 1 to 1 |
| Animation.Resolve | packages/utils/src/animation.ts:102-111 | enabled, 1000 ms, easeInOutQuad, no delay and fadeIn by default; each given field is kept, and the rest of the config passes through |
| Animation.EffectiveDuration | packages/utils/src/animation.ts:122 | the duration, falling back to 1000 when zero, is never zero |
| Animation.UpdateCompletion | packages/utils/src/animation.ts:116-146 | an update completes iff the elapsed time reached the duration and the animation does not loop; a looping one restarts at `now` |
| Animation.ZeroStartIsUnset | packages/utils/src/animation.ts:117-119 | a start time of 0 is treated as not started, and the first update starts at `now` |
| Animation.FirstUpdate | packages/utils/src/animation.ts:116-146 | the first update of a positive-duration animation reports progress 0 and the `from` value and does not complete |
| Animation.CompletionReachesTarget | packages/utils/src/animation.ts:124-131 | once the duration has elapsed the progress is 1 and the value is `to` |
| Animation.Animation.constructor | packages/utils/src/animation.ts:102-111 | the resolved config, not started |
| Animation.Animation.Update | packages/utils/src/animation.ts:116-146 | progress, value, completion and the new start are those of `Advance` |
| Animation.SetEntry | packages/utils/src/animation.ts:34 | `Map.set`: an existing id keeps its place and takes the new animation, a new id goes last; ids stay distinct |
| Animation.DeleteEntry | packages/utils/src/animation.ts:45 | `Map.delete`: exactly the other entries remain, and distinct ids stay distinct |
| Animation.DeleteEntryKeepsOrder | packages/utils/src/animation.ts:45 | the remaining entries keep their order: deleting from two parts joined is deleting from each, and one entry stays exactly when its id is another |
| Animation.DeleteEntryIdempotent | packages/utils/src/animation.ts:45 | deleting removes the id, and deleting again changes nothing |
| Animation.CallsOf | packages/utils/src/animation.ts:132-141 | each update calls `onUpdate`, then `onComplete` exactly when it completes and has one |
| Animation.FrameSnoc | packages/utils/src/animation.ts:69-89 | a frame over one more entry extends the frame by that entry's update and callbacks |
| Animation.FrameKeepsIncomplete | packages/utils/src/animation.ts:69-82 | every animation that did not complete remains, with its updated state |
| Animation.FrameOnlyIncomplete | packages/utils/src/animation.ts:69-82 | everything that remains is the updated state of an animation that did not complete |
| Animation.FrameDropsComplete | packages/utils/src/animation.ts:80-82 | a completed animation is gone after the frame |
| Animation.FrameKeepsDistinct | packages/utils/src/animation.ts:69-82 | a frame keeps only ids it was given, so distinct ids stay distinct |
| Animation.AnimationManager.constructor | packages/utils/src/animation.ts:23-24 | no animations, no frame scheduled, no callbacks |
| Animation.AnimationManager.Create | packages/utils/src/animation.ts:29-39 | the new animation is set under the id and frames are scheduled |
| Animation.AnimationManager.Stop | packages/utils/src/animation.ts:44-51 | the id is deleted, and frames stop once nothing is left |
| Animation.AnimationManager.StopAll | packages/utils/src/animation.ts:56-63 | no animations and no frames |
| Animation.AnimationManager.AnimateFrame | packages/utils/src/animation.ts:69-89 | the animations and callbacks become those of one `Frame`, ids stay distinct, and frames continue iff animations remain |
| DeckglAdapter.DigitRun | packages/core/src/adapters/DeckglMapAdapter.ts:214 | the maximal run of decimal digits at the start of the string |
| DeckglAdapter.DigitRuns | packages/core/src/adapters/DeckglMapAdapter.ts:214 | `match(/\d+/g)`: non-empty runs of digits only, none for a string without digits |
| DeckglAdapter.ParseColor | packages/core/src/adapters/DeckglMapAdapter.ts:199-222 | no colour, "" or a string starting with neither "#" nor "rgb" is opaque white |
| DeckglAdapter.ParseSixDigitHex | packages/core/src/adapters/DeckglMapAdapter.ts:203-209 | `#rrggbb` gives those channels and alpha 255 |
| DeckglAdapter.ParseEightDigitHex | packages/core/src/adapters/DeckglMapAdapter.ts:203-209 | `#rrggbbaa` takes its alpha from the last pair |
| DeckglAdapter.ParseRgbRuns | packages/core/src/adapters/DeckglMapAdapter.ts:213-221 | an "rgb…" string reads its channels from its digit runs, alpha 255 unless a fourth run exists; without digits it is white |
| DeckglAdapter.Normalize | packages/core/src/adapters/DeckglMapAdapter.ts:157-169 | a FeatureCollection comes back as it is; anything else is wrapped as one around its features, or none |
| DeckglAdapter.NormalizeIdempotent | packages/core/src/adapters/DeckglMapAdapter.ts:157-169 | normalising twice is normalising once |
| DeckglAdapter.IconOrStar | packages/core/src/adapters/DeckglMapAdapter.ts:191 | the point's icon unless it is missing or "", then "star" |
| DeckglAdapter.ConvertPoints | packages/core/src/adapters/DeckglMapAdapter.ts:183-194 | one point per point, in order, keeping id, coordinate and size, with the icon defaulted and the colour parsed from `style.color` |
| DeckglAdapter.WidthOrTwo | packages/core/src/adapters/DeckglMapAdapter.ts:248 | the line's width unless it is missing or 0, then 2 |
| DeckglAdapter.LineColorAlwaysWhite | packages/core/src/adapters/DeckglMapAdapter.ts:247 | as written, the text of a colour array starts with neither "#" nor "rgb", so every line is white |
| DeckglAdapter.LineColor | packages/core/src/adapters/DeckglMapAdapter.ts:247 | corrected: a four-channel colour array is kept, no colour is white |
| DeckglAdapter.ConvertLine | packages/core/src/adapters/DeckglMapAdapter.ts:237-249 | a line converts iff both ends are present (reading an end of `undefined` throws), keeping id, ends, colour and width |
| DeckglAdapter.RedLineExample | packages/core/src/adapters/DeckglMapAdapter.ts:247 | the line [255, 0, 0, 255] stays red under the corrected conversion and turns white as written |
| DeckglAdapter.ConvertLines | packages/core/src/adapters/DeckglMapAdapter.ts:236-250 | fails iff some line is missing an end; otherwise one converted line per line, in order |
| DeckglAdapter.DeckglMapAdapter.constructor | packages/core/src/adapters/DeckglMapAdapter.ts:20-24 | a map exists, nothing destroyed, container not cleared |
| DeckglAdapter.DeckglMapAdapter.Destroy | packages/core/src/adapters/DeckglMapAdapter.ts:297-312 | without a map nothing happens; otherwise the map is destroyed once, dropped, and the container emptied |
| DeckglAdapter.DeckglMapAdapter.GetType | packages/core/src/adapters/DeckglMapAdapter.ts:317-319 | "deckgl" |
| EChartsRenderer.AreaGuardCases | packages/core/src/adapters/EChartsRenderer.ts:23-27 | the area-event guard rejects non-objects and null, and accepts an object exactly when its region is missing, falsy or an object |
| EChartsRenderer.PointPayload | packages/core/src/adapters/EChartsRenderer.ts:48-55 | a point event's payload carries the coordinate when the guard passes and it is set, the origin otherwise, and the event's data as the feature |
| EChartsRenderer.AreaPayload | packages/core/src/adapters/EChartsRenderer.ts:66-72 | an area event's payload is the origin, the params themselves as the feature, and the region only when the guard passes |
| EChartsRenderer.ColorText | packages/core/src/adapters/EChartsRenderer.ts:137 | a colour array becomes an `rgba(...)` string, a missing colour the default blue |
| EChartsRenderer.SymbolOf | packages/core/src/adapters/EChartsRenderer.ts:135 | a point's symbol is its icon when that is non-empty, "circle" otherwise |
| EChartsRenderer.PointSeries | packages/core/src/adapters/EChartsRenderer.ts:127-142 | a scatter series with exactly one item per point, in order, carrying its id, coordinate, raw point, symbol and colour |
| EChartsRenderer.LineSeries | packages/core/src/adapters/EChartsRenderer.ts:147-165 | a lines series with one item per line from its start to its end, with its colour, width 2, opacity 1 and curveness 0 |
| EChartsRenderer.SeriesOf | packages/core/src/adapters/EChartsRenderer.ts:102-117 | render collects at most one series per layer |
| EChartsRenderer.GeoOf | packages/core/src/adapters/EChartsRenderer.ts:113-115 | render hands over at most one geography per layer |
| EChartsRenderer.OtherLayersIgnored | packages/core/src/adapters/EChartsRenderer.ts:105-116 | a layer of an unknown kind adds neither a series nor geography |
| EChartsRenderer.SeriesOfAppend | packages/core/src/adapters/EChartsRenderer.ts:105-117 | rendering a concatenation of layers collects each part's series, in order |
| EChartsRenderer.GeoOfAppend | packages/core/src/adapters/EChartsRenderer.ts:105-117 | and each part's geography, in order |
| EChartsRenderer.EChartsMapRenderer.constructor | packages/core/src/adapters/EChartsRenderer.ts:35-39 | a new renderer has no handlers, has called nothing and has sent the map nothing |
| EChartsRenderer.EChartsMapRenderer.Render | packages/core/src/adapters/EChartsRenderer.ts:102-122 | geography goes to the map layer by layer, and the collected series go over in one update only when there are any; handlers are untouched |
| EChartsRenderer.EChartsMapRenderer.SetPoints | packages/core/src/adapters/EChartsRenderer.ts:196-202 | exactly one series update holding the points' scatter series, and nothing else changes |
| EChartsRenderer.EChartsMapRenderer.SetLines | packages/core/src/adapters/EChartsRenderer.ts:207-213 | exactly one series update holding the lines series, and nothing else changes |
| EChartsRenderer.EChartsMapRenderer.SetGeoData | packages/core/src/adapters/EChartsRenderer.ts:219-222 | the data is handed to the map |
| EChartsRenderer.EChartsMapRenderer.On | packages/core/src/adapters/EChartsRenderer.ts:227-232 | the handler table becomes EventHandlers.On of the old one |
| EChartsRenderer.EChartsMapRenderer.Off | packages/core/src/adapters/EChartsRenderer.ts:237-245 | the handler table becomes EventHandlers.Off of the old one |
| EChartsRenderer.EChartsMapRenderer.Emit | packages/core/src/adapters/EChartsRenderer.ts:250-255 | the calls made are exactly the event's handlers in registration order |
| EChartsRenderer.EChartsMapRenderer.OnClickPoint | packages/core/src/adapters/EChartsRenderer.ts:48-56 | a point click emits "click" with the point payload |
| EChartsRenderer.EChartsMapRenderer.OnHoverPoint | packages/core/src/adapters/EChartsRenderer.ts:57-65 | a point hover emits "hover" with the point payload |
| EChartsRenderer.EChartsMapRenderer.OnClickArea | packages/core/src/adapters/EChartsRenderer.ts:66-73 | an area click emits "click" with the area payload |
| EChartsRenderer.EChartsMapRenderer.OnDoubleClickArea | packages/core/src/adapters/EChartsRenderer.ts:74-82 | an area double-click writes the next level to the navigation state, then emits "doubleClick" with the area payload |
| EChartsRenderer.EChartsMapRenderer.OnHoverArea | packages/core/src/adapters/EChartsRenderer.ts:83-90 | an area hover emits "hover" with the area payload |
| EChartsRenderer.EChartsMapRenderer.Destroy | packages/core/src/adapters/EChartsRenderer.ts:269-274 | the map is destroyed once and every handler is forgotten |
| EventHandlers.On | packages/core/src/adapters/EChartsRenderer.ts:227-232 | the event's list is the old list plus the handler at its end, and no other event's list changes |
| EventHandlers.Off | packages/core/src/adapters/EChartsRenderer.ts:237-245 | the first registration of the handler is removed from that event's list, the set of events is unchanged, and no other list changes |
| EventHandlers.OffAbsentIsNoOp | packages/core/src/adapters/DeckGLRenderer.ts:150-158 | off for a handler that is not registered for the event changes nothing |
| EventHandlers.OnThenOff | packages/core/src/adapters/DeckGLRenderer.ts:140-158 | off undoes on for a handler not yet registered: every event's handlers are as before |
| EventHandlers.OnTwiceOffOnce | packages/core/src/adapters/EChartsRenderer.ts:227-245 | after registering a handler twice, one off leaves exactly one registration |
| EventHandlers.Emit | packages/core/src/adapters/DeckGLRenderer.ts:163-168 | emit calls the event's handlers once each, in registration order, with the data, and calls none for an unknown event |
| DeckGLRenderer.ForwardOf | packages/core/src/adapters/DeckGLRenderer.ts:52-92 | a point or line layer forwards its data to the map, a geo layer forwards only when it holds a FeatureCollection, and any other layer forwards nothing |
| DeckGLRenderer.Forwards | packages/core/src/adapters/DeckGLRenderer.ts:52-66 | render makes at most one call per layer |
| DeckGLRenderer.NothingToForward | packages/core/src/adapters/DeckGLRenderer.ts:53-65 | layers that forward nothing make no call, however many there are |
| DeckGLRenderer.ForwardsCover | packages/core/src/adapters/DeckGLRenderer.ts:53-65 | every layer that forwards appears among render's calls |
| DeckGLRenderer.DeckGLMapRenderer.constructor | packages/core/src/adapters/DeckGLRenderer.ts:19-42 | the renderer is created without a map, with no handlers and no calls made |
| DeckGLRenderer.DeckGLMapRenderer.WithMap | packages/core/src/adapters/DeckGLRenderer.ts:16 | the same renderer with a map attached, which the field declaration promises |
| DeckGLRenderer.DeckGLMapRenderer.Render | packages/core/src/adapters/DeckGLRenderer.ts:52-66 | with a map, the layers' calls are forwarded in order; without one, the first call throws, nothing is forwarded, and an error occurs exactly when some layer forwards |
| DeckGLRenderer.DeckGLMapRenderer.SetGeoData | packages/core/src/adapters/DeckGLRenderer.ts:130-135 | only a FeatureCollection reaches the map; anything else is ignored; without a map it throws |
| DeckGLRenderer.DeckGLMapRenderer.SetPointsData | packages/core/src/adapters/DeckGLRenderer.ts:114-117 | the points go straight to the map; without a map it throws and nothing is forwarded |
| DeckGLRenderer.DeckGLMapRenderer.SetLinesData | packages/core/src/adapters/DeckGLRenderer.ts:122-125 | the lines go straight to the map; without a map it throws and nothing is forwarded |
| DeckGLRenderer.DeckGLMapRenderer.On | packages/core/src/adapters/DeckGLRenderer.ts:140-145 | the handler table becomes EventHandlers.On of the old one |
| DeckGLRenderer.DeckGLMapRenderer.Off | packages/core/src/adapters/DeckGLRenderer.ts:150-158 | the handler table becomes EventHandlers.Off of the old one |
| DeckGLRenderer.DeckGLMapRenderer.Destroy | packages/core/src/adapters/DeckGLRenderer.ts:179-184 | an attached map is destroyed once, and every handler is forgotten |
| DeckGLRenderer.RenderWithoutMap | packages/core/src/adapters/DeckGLRenderer.ts:16-73 | as written, rendering a point layer throws, because no map is ever assigned |
| DeckGLRenderer.RenderWithMap | packages/core/src/adapters/DeckGLRenderer.ts:52-73 | with a map attached, the same render forwards the points |
| RendererFactory.CreateRenderer | packages/core/src/factory/MapRendererFactory.ts:19-30 | "echarts" builds the ECharts map and "deckgl" the adapter, each failing only when its constructor fails; any other type fails with the "Unsupported renderer type" message |
| RendererFactory.SupportedIffBuildable | packages/core/src/factory/MapRendererFactory.ts:19-39 | a type is supported exactly when createRenderer builds it |
| RendererFactory.SupportedTypes | packages/core/src/factory/MapRendererFactory.ts:37-47 | the list holds exactly the types isSupported accepts: the core's renderer-type enumeration has just those two values |
| RendererFactory.SupportedTypesBuild | packages/core/src/factory/MapRendererFactory.ts:19-47 | every listed type is one createRenderer builds |
| RendererFactory.RecommendedType | packages/core/src/factory/MapRendererFactory.ts:54-71 | 3D mode gives deck.gl; otherwise deck.gl exactly when WebGL is available, else ECharts; the result is always supported |
| UnifiedMap.ChosenType | packages/core/src/adapters/UnifiedMapComponent.ts:44 | a given non-empty renderer type is used; a missing or empty one defers to the factory's recommendation |
| UnifiedMap.Alternative | packages/core/src/adapters/UnifiedMapComponent.ts:80 | the fallback type is always supported and always differs from the failed one |
| UnifiedMap.UnifiedMapComponent.constructor | packages/core/src/adapters/UnifiedMapComponent.ts:40-92 | the chosen renderer is built and the component becomes ready; on failure, without fallback it stays not ready and records the error, and with fallback it builds the alternative or fails with "Failed to initialize any available renderer"; custom icons go only to a deck.gl adapter |
| UnifiedMap.UnifiedMapComponent.IsReady | packages/core/src/adapters/UnifiedMapComponent.ts:234-236 | ready is exactly the initialised flag |
| UnifiedMap.UnifiedMapComponent.SwitchRenderer | packages/core/src/adapters/UnifiedMapComponent.ts:105-126 | the same type changes nothing; another type destroys the current renderer, takes the new type and builds it, and becomes ready only if that build succeeds |
| UnifiedMap.UnifiedMapComponent.SetGeoData | packages/core/src/adapters/UnifiedMapComponent.ts:150-156 | without a renderer it throws "Renderer not initialized"; with one, the boundary is written to the navigation state |
| UnifiedMap.UnifiedMapComponent.RequireRenderer | packages/core/src/adapters/UnifiedMapComponent.ts:161-218 | the shared guard throws exactly when there is no renderer |
| UnifiedMap.UnifiedMapComponent.RegisterExtraIcons | packages/core/src/adapters/UnifiedMapComponent.ts:198-208 | without a renderer it throws; otherwise the icons are registered only when the renderer is the deck.gl adapter |
| UnifiedMap.UnifiedMapComponent.Destroy | packages/core/src/adapters/UnifiedMapComponent.ts:223-229 | the renderer, if any, is destroyed once and dropped, and the component is no longer ready |
| UnifiedMap.DestroyTwice | packages/core/src/adapters/UnifiedMapComponent.ts:223-229 | a second destroy destroys nothing more |
| UnifiedMap.FallbackFromDeckgl | packages/core/src/adapters/UnifiedMapComponent.ts:64-92 | with fallback on, a failed deck.gl build still leaves a ready ECharts map |
| GeoUtils.PointsOf | packages/core/src/geo-utils.ts:27 | one `[lng, lat]` per item, in order |
| GeoUtils.CalculateBounds | packages/core/src/geo-utils.ts:11-35 | the box seeded with the first item and widened by each item is the bounding box of the items' coordinates, and all zeros for no data |
| GeoUtils.BoundsHoldData | packages/core/src/geo-utils.ts:21-34 | every item lies inside the bounds of the data |
| GeoUtils.CalculateCenter | packages/core/src/geo-utils.ts:40-50 | `[0, 0]` for no data, the bounding box's midpoint otherwise |
| GeoUtils.CenterInside | packages/core/src/geo-utils.ts:45-49 | the centre of non-empty data lies inside its bounding box |
| GeoUtils.ZoomForSpan | packages/core/src/geo-utils.ts:64-76 | the zoom lies between 1 and 10: 1 above a span of 50, 10 at a span of 0.1 or less |
| GeoUtils.ZoomNonIncreasing | packages/core/src/geo-utils.ts:67-76 | a wider span never gives a closer zoom |
| GeoUtils.CalculateZoom | packages/core/src/geo-utils.ts:55-77 | the zoom is 1 for no data and always lies between 1 and 10 |
| GeoUtils.ZoomOfOnePlace | packages/core/src/geo-utils.ts:55-77 | items all at one place get the closest zoom, 10 |
| GeoUtils.AutoConfigGeo | packages/core/src/geo-utils.ts:82-90 | the configuration is the data's centre and zoom |
| GeoUtils.Filter | packages/core/src/geo-utils.ts:95-114 | the result is no longer than the input |
| GeoUtils.FilterMembers | packages/core/src/geo-utils.ts:95-114 | the result holds exactly the items the criterion keeps |
| GeoUtils.FilterAppend | packages/core/src/geo-utils.ts:95-114 | filtering keeps the input order: filtering a concatenation filters each part |
| GeoUtils.FilterIdempotent | packages/core/src/geo-utils.ts:95-114 | filtering twice by the same criterion is filtering once |
| GeoUtils.Insert | packages/core/src/geo-utils.ts:120 | inserting adds exactly the element to the multiset |
| GeoUtils.InsertSorted | packages/core/src/geo-utils.ts:120 | inserting into a sorted list keeps it sorted |
| GeoUtils.SortBy | packages/core/src/geo-utils.ts:119-136 | the sort is a permutation of its input |
| GeoUtils.SortBySorted | packages/core/src/geo-utils.ts:119-136 | the sort's result is ordered by the comparator |
| GeoUtils.SortUnorderedKeeps | packages/core/src/interactive-features.ts:179 | the sort is stable: when every pair compares equal the order is kept |
| GeoUtils.SortByStable | packages/core/src/geo-utils.ts:119-136 | the sort is stable: for every key, the items with that key come out in their input order |
| GeoUtils.SortByValue | packages/core/src/geo-utils.ts:119-125 | the value sort returns a permutation of a copy of the data |
| GeoUtils.SortByValueSorted | packages/core/src/geo-utils.ts:119-125 | the value sort orders the values ascending, or descending when asked |
| GeoUtils.SortByDistance | packages/core/src/geo-utils.ts:130-136 | the distance sort returns a permutation of a copy of the data |
| GeoUtils.SortByDistanceSorted | packages/core/src/geo-utils.ts:130-145 | the distance sort orders the items by their distance from the centre |
| GeoUtils.RegionOf | packages/core/src/geo-utils.ts:154 | an item's region is never empty: "unknown" stands in for a missing or empty property |
| GeoUtils.RegionKey | packages/core/src/geo-utils.ts:154 | the grouping key of each item is its region |
| GeoUtils.ItemsWith | packages/core/src/geo-utils.ts:153-159 | exactly the items whose key is the given one |
| GeoUtils.ItemsWithAbsent | packages/core/src/geo-utils.ts:153-159 | a key no item has gets no items |
| GeoUtils.GroupedPartition | packages/core/src/geo-utils.ts:150-162 | the groups' keys are exactly the keys that occur, and each key's list is its items in input order |
| GeoUtils.GroupBy | packages/core/src/geo-utils.ts:153-159 | the grouping loop builds exactly the partition, its keys listed in the order each was first met |
| GeoUtils.GroupedInOrderValid | packages/core/src/interactive-features.ts:261-293 | the grouping lists each key once, exactly the keys that have items, and a key listed earlier has its first item earlier in the data |
| GeoUtils.AggregateByRegion | packages/core/src/geo-utils.ts:150-162 | the record maps each region to its items, the regions in the order first met |
| GeoUtils.AggregatePartitions | packages/core/src/geo-utils.ts:150-162 | every item lands in its own region's list and in no other, and no list is empty |
| GeoUtils.MinValue | packages/core/src/geo-utils.ts:169 | the smallest value: no larger than any item's value, and equal to one of them |
| GeoUtils.MaxValue | packages/core/src/geo-utils.ts:170 | the largest value: no smaller than any item's value, and equal to one of them |
| GeoUtils.ValuesOf | packages/core/src/interactive-features.ts:238 | the items' values, in order |
| GeoUtils.TotalIsSum | packages/core/src/interactive-features.ts:239 | the total is the sum of the values |
| GeoUtils.TotalRemove | packages/core/src/interactive-features.ts:238-239 | taking one item out takes its value out of the total |
| GeoUtils.TotalPermutation | packages/core/src/interactive-features.ts:238-239 | the total does not depend on the order of the items |
| GeoUtils.MinMaxPermutation | packages/core/src/interactive-features.ts:238-242 | the smallest and the largest value do not depend on the order of the items |
| GeoUtils.SortedValues | packages/core/src/interactive-features.ts:238 | the values of the items sorted by value ascending are ascending and are the items' values |
| GeoUtils.ValuesPermutation | packages/core/src/interactive-features.ts:238 | the values of a permutation of the items are a permutation of their values |
| GeoUtils.AscendingUnique | packages/core/src/interactive-features.ts:238 | two ascending lists of the same values are equal, so the sorted values do not depend on how they were sorted |
| GeoUtils.TotalBounds | packages/core/src/interactive-features.ts:239 | the total lies between n times a lower bound and n times an upper bound on the values |
| GeoUtils.MeanBetween | packages/core/src/interactive-features.ts:240-242 | the mean lies between the smallest and the largest value |
| GeoUtils.MeanWithin | packages/core/src/interactive-features.ts:240 | the mean lies within any bounds on the values |
| GeoUtils.SquaredDeviations | packages/core/src/interactive-features.ts:247 | one squared deviation per value |
| GeoUtils.ColorFor | packages/core/src/geo-utils.ts:176-179 | a value's colour comes from the scheme; it is the first entry when the range is zero; there is none only when the scheme is empty |
| GeoUtils.ColorMapMembers | packages/core/src/geo-utils.ts:173-181 | the map's keys are exactly the items' values, and each is mapped to its colour |
| GeoUtils.GenerateColorMap | packages/core/src/geo-utils.ts:167-184 | no data gives an empty map; otherwise each value is coloured over the range from the smallest to the largest value, with the five-colour scheme as the default, and the values are listed in the order first met |
| GeoUtils.ColorMapInOrderValid | packages/core/src/geo-utils.ts:173-180 | the colour map lists each value once, exactly the items' values, and a value listed earlier first occurs earlier in the data |
| GeoUtils.ColorMapFromScheme | packages/core/src/geo-utils.ts:167-184 | every colour handed out comes from the scheme, and when all values are equal each gets the first colour |
| InteractiveFeatures.PinyinChar | packages/core/src/interactive-features.ts:204-220 | a listed city character gives its upper-case initial, and any other character stands for itself |
| InteractiveFeatures.PinyinInitials | packages/core/src/interactive-features.ts:202-221 | one character out per character in, each through the table |
| InteractiveFeatures.PinyinIdempotent | packages/core/src/interactive-features.ts:202-221 | taking the initials of initials changes nothing more |
| InteractiveFeatures.AddEffect | packages/core/src/interactive-features.ts:47-52 | the item is appended under its key, a new key going last with the order of the others kept, and no other key changes |
| InteractiveFeatures.AddKeys | packages/core/src/interactive-features.ts:31-40 | adding an item under several keys keeps the index well formed |
| InteractiveFeatures.AddKeysSnoc | packages/core/src/interactive-features.ts:38-40 | adding under one more key is one more addToIndex |
| InteractiveFeatures.AddKeysContents | packages/core/src/interactive-features.ts:31-40 | afterwards a key holds an item exactly when it held it before or the item was added under that key |
| InteractiveFeatures.Suffixes | packages/core/src/interactive-features.ts:38-40 | every suffix of the name, longest first |
| InteractiveFeatures.KeysAsWritten | packages/core/src/interactive-features.ts:28-40 | as written, an item's keys are its lowered name, its pinyin initials as they come (upper case) and every suffix of its lowered name |
| InteractiveFeatures.KeysFor | packages/core/src/interactive-features.ts:28-40 | corrected form (see "## Findings"): an item's keys are its lowered name, its lowered initials and every suffix of its lowered name |
| InteractiveFeatures.Built | packages/core/src/interactive-features.ts:24-42 | the index built from the data is well formed |
| InteractiveFeatures.BuiltItems | packages/core/src/interactive-features.ts:24-42 | a key holds an item exactly when the item is in the data and files under that key |
| InteractiveFeatures.BuiltKeys | packages/core/src/interactive-features.ts:24-42 | the index's keys are exactly the keys some item files under |
| InteractiveFeatures.BuiltSnoc | packages/core/src/interactive-features.ts:24-42 | building over one more item is filing that item under its keys |
| InteractiveFeatures.BuiltHolds | packages/core/src/interactive-features.ts:24-42 | every item is filed under each of its keys |
| InteractiveFeatures.BuiltOnlyData | packages/core/src/interactive-features.ts:24-42 | nothing but the data is filed anywhere |
| InteractiveFeatures.AddAll | packages/core/src/interactive-features.ts:61-71 | adding to a Set keeps what was there in front, adds each new item once and keeps the items distinct |
| InteractiveFeatures.Fuzzy | packages/core/src/interactive-features.ts:69-73 | the fuzzy pass keeps the result free of duplicates |
| InteractiveFeatures.FuzzyMembers | packages/core/src/interactive-features.ts:69-73 | the fuzzy pass adds exactly the items of the keys that include the term |
| InteractiveFeatures.SearchOf | packages/core/src/interactive-features.ts:60-75 | a search returns each item at most once |
| InteractiveFeatures.SearchOfMembers | packages/core/src/interactive-features.ts:63-75 | a search finds exactly the items under some key that includes the term |
| InteractiveFeatures.IncludesFromSuffix | packages/core/src/interactive-features.ts:38-70 | a string includes whatever one of its suffixes includes |
| InteractiveFeatures.SearchBuiltMembers | packages/core/src/interactive-features.ts:24-75 | over a built index, a search finds exactly the items with some key that includes the term |
| InteractiveFeatures.KeyOfNameIncludes | packages/core/src/interactive-features.ts:28-40 | a key among a name, its initials and the name's suffixes that includes a term makes the name or the initials include it |
| InteractiveFeatures.KeyIncludesCase | packages/core/src/interactive-features.ts:28-40 | a key that includes a term makes the lowered name or the lowered initials include it too |
| InteractiveFeatures.KeysForIncludes | packages/core/src/interactive-features.ts:28-40 | some key of an item includes a term exactly when its lowered name or its lowered initials do |
| InteractiveFeatures.SearchFinds | packages/core/src/interactive-features.ts:24-75 | over the built index, a term finds exactly the items whose lowered name or lowered initials include it |
| InteractiveFeatures.BeijingKeysAsWritten | packages/core/src/interactive-features.ts:34-35 | as written, none of the keys filed for 北京 includes "bj" |
| InteractiveFeatures.AddAllKeeps | packages/core/src/interactive-features.ts:61-71 | adding items already in the set changes nothing |
| InteractiveFeatures.AddAllSame | packages/core/src/interactive-features.ts:61-65 | copies of one item add it once |
| InteractiveFeatures.FuzzyKeeps | packages/core/src/interactive-features.ts:69-73 | a fuzzy pass whose matching keys hold nothing new changes nothing |
| InteractiveFeatures.PinyinQueryAsWritten | packages/core/src/interactive-features.ts:34-60 | as written, the query "bj" finds nothing for 北京, because the initials are filed upper-case and the query is lowered |
| InteractiveFeatures.BeijingKeyFor | packages/core/src/interactive-features.ts:34-35 | with the initials lowered, "bj" is one of 北京's keys |
| InteractiveFeatures.SearchSingle | packages/core/src/interactive-features.ts:24-75 | over the index of one item, a search for one of its keys finds that item, once |
| InteractiveFeatures.PinyinQueryCorrected | packages/core/src/interactive-features.ts:24-75 | with the initials lowered, the query "bj" finds 北京, once |
| InteractiveFeatures.FilterByValue | packages/core/src/interactive-features.ts:81-90 | exactly the items whose value lies between the bounds, edges included |
| InteractiveFeatures.FilterByBounds | packages/core/src/interactive-features.ts:95-109 | exactly the items inside the box, edges included |
| InteractiveFeatures.FilterByRegion | packages/core/src/interactive-features.ts:114-119 | exactly the items whose name is listed |
| InteractiveFeatures.MultiFilterMeaning | packages/core/src/interactive-features.ts:124-157 | everything kept passes every given criterion; without a search, exactly the items passing every criterion are kept |
| InteractiveFeatures.MultiFilterEmptyRegions | packages/core/src/interactive-features.ts:152-154 | an empty list of regions filters nothing |
| InteractiveFeatures.SortData | packages/core/src/interactive-features.ts:162-188 | the sort returns a permutation of the data, and a distance sort without a centre keeps the order |
| InteractiveFeatures.SortDataSorted | packages/core/src/interactive-features.ts:162-188 | the result is ordered by the chosen field and direction |
| InteractiveFeatures.CreateDataStats | packages/core/src/interactive-features.ts:226-251 | all zeros for no data; otherwise the total is the sum of the values, the average is the total over the count, min and max are the extreme values, the median is the middle of the ascending values, and the median and the average lie between min and max |
| InteractiveFeatures.MedianOfSortedValues | packages/core/src/interactive-features.ts:238-245 | the median is the middle entry (or the mean of the two middle entries) of any ascending arrangement of the items' values |
| InteractiveFeatures.GroupKey | packages/core/src/interactive-features.ts:266-287 | the value bands split at 500 and 200, and the area groups split at longitude 110 and latitude 30 |
| InteractiveFeatures.GroupKeyFn | packages/core/src/interactive-features.ts:266-287 | the key function is GroupKey for each item |
| InteractiveFeatures.GroupData | packages/core/src/interactive-features.ts:256-296 | the groups partition the data by key, each in input order, and the groups are listed in the order first met |
| InteractiveFeatures.GroupByValuePartitions | packages/core/src/interactive-features.ts:266-296 | grouping by value gives at most the three bands, each holding exactly its band's items, in order |
| InteractiveFeatures.ExportCsv | packages/core/src/interactive-features.ts:308-313 | the CSV is the header, then one row per item, joined by newlines |
| InteractiveFeatures.ImportCsv | packages/core/src/interactive-features.ts:346-359 | one item per line after the first |
| InteractiveFeatures.CsvRoundTrip | packages/core/src/interactive-features.ts:308-359 | importing exported non-empty data gives every item back, when no name holds a comma or a newline and the number reader inverts the writer |
| InteractiveFeatures.CsvRowRoundTrip | packages/core/src/interactive-features.ts:311-358 | one row, split at its commas, gives the item back |
| InteractiveFeatures.JoinAvoids | packages/core/src/interactive-features.ts:312 | a joined text holds a character only if a part or the separator does |
| InteractiveFeatures.CsvEmptyRoundTrip | packages/core/src/interactive-features.ts:309-359 | exporting nothing leaves a trailing newline, so importing it gives one item with an empty name and no coordinates |
| InteractiveFeatures.InteractiveFeaturesInstance.constructor | packages/core/src/interactive-features.ts:9-12 | the index and the cache start empty |
| InteractiveFeatures.InteractiveFeaturesInstance.AddToIndex | packages/core/src/interactive-features.ts:47-52 | the index becomes Add of the old index |
| InteractiveFeatures.InteractiveFeaturesInstance.IndexItem | packages/core/src/interactive-features.ts:28-40 | corrected form (see "## Findings"): the item is filed under each of its `KeysFor` keys in turn |
| InteractiveFeatures.InteractiveFeaturesInstance.IndexUnder | packages/core/src/interactive-features.ts:31-40 | the name, then the initials, then each suffix of the name, longest first, is one more addToIndex |
| InteractiveFeatures.InteractiveFeaturesInstance.BuildSearchIndex | packages/core/src/interactive-features.ts:24-42 | corrected form (see "## Findings"): the index is exactly the one built from the data with `KeysFor` |
| InteractiveFeatures.InteractiveFeaturesInstance.AddItems | packages/core/src/interactive-features.ts:65-71 | the result set gains the new items, in order |
| InteractiveFeatures.InteractiveFeaturesInstance.FuzzyPass | packages/core/src/interactive-features.ts:69-73 | the loop over the keys computes the fuzzy pass |
| InteractiveFeatures.InteractiveFeaturesInstance.Search | packages/core/src/interactive-features.ts:57-76 | a blank query returns the data itself; any other query returns the exact key's items, then every including key's items, each once |
| InteractiveFeatures.InteractiveFeaturesInstance.MultiFilter | packages/core/src/interactive-features.ts:124-157 | the result is the search, then the value, box and region filters applied in that order |
| InteractiveFeatures.InteractiveFeaturesInstance.ClearCache | packages/core/src/interactive-features.ts:382-385 | the index and the cache are emptied |
| DataVisualization.ColorStops | packages/core/src/data-visualization.ts:53-153 | one stop per scheme colour, in order, carrying that colour |
| DataVisualization.ColorStopsSpread | packages/core/src/data-visualization.ts:53-56 | with two colours or more the stops run from offset 0 to offset 1, strictly increasing |
| DataVisualization.DefaultStops | packages/core/src/data-visualization.ts:34-131 | the default heatmap and contour schemes start at offset 0 with their first colour and end at offset 1 with their last |
| DataVisualization.FlowValue | packages/core/src/data-visualization.ts:100 | a flow's value is never zero: a zero value counts as 1, any other is kept |
| DataVisualization.FlowData | packages/core/src/data-visualization.ts:93-102 | one flow per origin; reading the first destination of an empty list throws, exactly when there are origins but no destinations |
| DataVisualization.FlowPairing | packages/core/src/data-visualization.ts:93-102 | each origin keeps its place and its value (a zero value becomes 1) and pairs with the destination of the same index, or with the first once past the end |
| DataVisualization.FlowToSelf | packages/core/src/data-visualization.ts:316 | the combined configuration's lines start and end at the same place |
| DataVisualization.CenterOf | packages/core/src/data-visualization.ts:397-404 | a single point is its own centre |
| DataVisualization.SumLngBounds | packages/core/src/data-visualization.ts:400 | the longitude sum lies between n times any lower and any upper bound |
| DataVisualization.SumLatBounds | packages/core/src/data-visualization.ts:401 | the latitude sum lies between n times any lower and any upper bound |
| DataVisualization.CenterInBox | packages/core/src/data-visualization.ts:397-404 | the centre of some points lies in any box that holds them all |
| DataVisualization.FirstNear | packages/core/src/data-visualization.ts:357-371 | the first cluster within the radius, with none before it within the radius, or none at all |
| DataVisualization.LargeMembers | packages/core/src/data-visualization.ts:382 | the filter keeps a cluster exactly when it has at least the minimum number of points, and returns no more clusters than it was given |
| DataVisualization.PlaceConsistent | packages/core/src/data-visualization.ts:354-380 | placing a point keeps every cluster's count equal to its points and its centre at their mean |
| DataVisualization.ClusteredConsistent | packages/core/src/data-visualization.ts:354-380 | every cluster formed counts exactly its points and is centred on their mean |
| DataVisualization.AllPointsAppend | packages/core/src/data-visualization.ts:373-379 | a new cluster adds exactly its points |
| DataVisualization.AllPointsReplace | packages/core/src/data-visualization.ts:364-367 | replacing a cluster by one with one more point adds exactly that point |
| DataVisualization.PlaceAddsPoint | packages/core/src/data-visualization.ts:354-380 | placing a point adds exactly that point to the clusters |
| DataVisualization.ClusteredPartition | packages/core/src/data-visualization.ts:354-380 | before the small clusters are dropped, every point is in exactly one cluster, once |
| DataVisualization.ClusterDataLarge | packages/core/src/data-visualization.ts:330-383 | every cluster returned is consistent and has at least minPoints points, 2 by default |
| DataVisualization.ClusterData | packages/core/src/data-visualization.ts:330-383 | the loops compute the greedy clustering, then drop the small clusters |
| DataVisualization.PlacePoint | packages/core/src/data-visualization.ts:355-379 | the inner loop places the point in the first near cluster, or starts a cluster |
| DataVisualization.KeepLarge | packages/core/src/data-visualization.ts:382 | the filter keeps exactly the large clusters |
| DataVisualization.DropHash | packages/core/src/data-visualization.ts:429-430 | a text without `#` is unchanged, and a leading `#` is removed |
| DataVisualization.PadTwo | packages/core/src/data-visualization.ts:444 | the padding gives at least two characters and leaves longer texts alone |
| DataVisualization.PaddedByte | packages/core/src/data-visualization.ts:444 | a byte written and padded is its two lowercase hex digits |
| DataVisualization.ComponentsRead | packages/core/src/data-visualization.ts:429-438 | the components of a colour written by rgbaToHex are read back |
| DataVisualization.InterpolateAgrees | packages/core/src/data-visualization.ts:428-445 | between two byte colours, interpolating the hex texts gives the hex of the mixed colour |
| DataVisualization.InterpolateEnds | packages/core/src/data-visualization.ts:428-445 | ratio 0 gives back the start colour and ratio 1 the end colour |
| DataVisualization.GradientAsWritten | packages/core/src/data-visualization.ts:409-423 | as written, the gradient has one colour per step, none for a non-positive count |
| DataVisualization.InterpolateNaN | packages/core/src/data-visualization.ts:432-444 | a NaN ratio makes every component NaN |
| DataVisualization.OneStepGradientAsWritten | packages/core/src/data-visualization.ts:416-418 | as written, a one-step gradient is "#NaNNaNNaN" rather than the start colour |
| DataVisualization.Ratio | packages/core/src/data-visualization.ts:417 | each step's ratio lies in [0, 1], is 0 at the first step and 1 at the last of two or more; a single step is taken at ratio 0 |
| DataVisualization.GradientAt | packages/core/src/data-visualization.ts:409-423 | colour `i` of the gradient is the interpolation at ratio `i / (steps - 1)` (0 for a single step) |
| DataVisualization.GradientAsWrittenAgrees | packages/core/src/data-visualization.ts:409-423 | the corrected and the as-written gradient agree on every count but 1 |
| DataVisualization.GradientEnds | packages/core/src/data-visualization.ts:409-445 | each colour is the hex of the mix at its step's ratio; the first is the start colour and, with two steps or more, the last is the end colour |
| DataVisualization.GenerateColorGradient | packages/core/src/data-visualization.ts:409-423 | the loop computes the corrected gradient |
| ThemeManager.PresetsValid | packages/core/src/theme-manager.ts:26-151 | the five presets form a valid registry that holds 'default' |
| ThemeManager.Customised | packages/core/src/theme-manager.ts:303-320 | a custom theme carries the new name |
| ThemeManager.CustomisedWithoutOverrides | packages/core/src/theme-manager.ts:303-320 | without overrides a custom theme is its base under the new name |
| ThemeManager.CustomisedOverridesWin | packages/core/src/theme-manager.ts:307-317 | a value an override gives wins, and one it leaves out is the base's |
| ThemeManager.CustomisedTwice | packages/core/src/theme-manager.ts:303-320 | customising a custom theme again with the same overrides changes nothing |
| ThemeManager.ApplyTheme | packages/core/src/theme-manager.ts:212-298 | the option keeps its properties; everything but geo, tooltip and legend is untouched, and a missing geo stays missing |
| ThemeManager.ApplyThemeGeoItem | packages/core/src/theme-manager.ts:216-295 | the geo item style becomes the themed version of the old one |
| ThemeManager.ThemedItemColours | packages/core/src/theme-manager.ts:219-295 | the themed item style has the theme's area and border colours, and its colour is the gradient when the theme has one, the primary colour otherwise |
| ThemeManager.ThemedItemShadow | packages/core/src/theme-manager.ts:264-275 | the shadow is set exactly when the theme has one, and left as it was otherwise |
| ThemeManager.ThemedItemKeeps | packages/core/src/theme-manager.ts:216-239 | every item-style property the theme does not set is kept |
| ThemeManager.ApplyThemeGeo | packages/core/src/theme-manager.ts:216-295 | with a geo component, its item style takes the theme's colours and effects |
| ThemeManager.ApplyThemeHighlight | packages/core/src/theme-manager.ts:225-238 | hovered and selected areas take the theme's emphasis and select colours |
| ThemeManager.ApplyThemeText | packages/core/src/theme-manager.ts:242-261 | the theme's text style reaches the option's tooltip and legend |
| ThemeManager.WithTextStyleTwice | packages/core/src/theme-manager.ts:242-261 | setting the same text style twice is setting it once |
| ThemeManager.ApplyThemeAt | packages/core/src/theme-manager.ts:212-298 | what applyTheme puts under each property of the option |
| ThemeManager.ApplyThemeTwice | packages/core/src/theme-manager.ts:212-298 | applying a theme twice is applying it once |
| ThemeManager.ThemedGeoTwice | packages/core/src/theme-manager.ts:216-239 | theming a geo component twice is theming it once |
| ThemeManager.WithAreaColorTwice | packages/core/src/theme-manager.ts:225-238 | setting the same highlight colour twice is setting it once |
| ThemeManager.ThemedItemStyleTwice | packages/core/src/theme-manager.ts:219-295 | theming an item style twice is theming it once |
| ThemeManager.ThemeManagerInstance.constructor | packages/core/src/theme-manager.ts:9-14 | a new manager holds the five presets, and 'default' is current |
| ThemeManager.ThemeManagerInstance.InitializeDefaultThemes | packages/core/src/theme-manager.ts:26-151 | registering the presets into the empty registry gives the preset table |
| ThemeManager.ThemeManagerInstance.RegisterLaterPresets | packages/core/src/theme-manager.ts:26-151 | registering the presets after 'default' and 'dark' gives the preset table |
| ThemeManager.ThemeManagerInstance.RegisterTheme | packages/core/src/theme-manager.ts:156-158 | the theme is stored under its name, a new name going last and a known name keeping its place |
| ThemeManager.ThemeManagerInstance.GetTheme | packages/core/src/theme-manager.ts:163-165 | the theme is found exactly when its name is registered |
| ThemeManager.ThemeManagerInstance.SetCurrentTheme | packages/core/src/theme-manager.ts:177-183 | the current theme switches, answering true, exactly when the name is registered; otherwise nothing changes |
| ThemeManager.ThemeManagerInstance.RemoveTheme | packages/core/src/theme-manager.ts:202-207 | 'default' is refused and kept; any other name is deleted, answering whether it was there |
| ThemeManager.ThemeManagerInstance.CreateCustomTheme | packages/core/src/theme-manager.ts:303-320 | the named base, or 'default' when there is no such theme, customised and registered under the new name |
| ThemeManager.RemoveCurrent | packages/core/src/theme-manager.ts:188-207 | removing the current theme leaves no current theme, while its name stays current |
| AnimationManager.PresetsValid | packages/core/src/animation-manager.ts:25-85 | the six presets form a valid registry that holds 'fadeIn' |
| AnimationManager.PresetEasingsListed | packages/core/src/animation-manager.ts:25-286 | getEasingFunctions lists thirty-one easings, and every preset's easing is among them |
| AnimationManager.Customised | packages/core/src/animation-manager.ts:233-247 | a custom animation carries the new name |
| AnimationManager.CustomisedOverridesWin | packages/core/src/animation-manager.ts:233-247 | an override wins, what it leaves out is the base's, and without overrides only the name changes |
| AnimationManager.AnimationType | packages/core/src/animation-manager.ts:151-164 | only zoomIn is renamed, to scale; a known type keeps its name, and any other type, or none, means fadeIn |
| AnimationManager.AnimationTypeDistinct | packages/core/src/animation-manager.ts:151-164 | distinct known types keep distinct ECharts names |
| AnimationManager.AnimatedAll | packages/core/src/animation-manager.ts:119-128 | one animated series per series, in order |
| AnimationManager.AnimatedAllTwice | packages/core/src/animation-manager.ts:119-128 | animating the series twice is animating them once |
| AnimationManager.ApplyAnimation | packages/core/src/animation-manager.ts:111-146 | a disabled animation returns the option itself; the only failure is a series that cannot be mapped; otherwise the option keeps its properties and all but series, geo and tooltip are untouched |
| AnimationManager.ApplyAnimationFields | packages/core/src/animation-manager.ts:119-143 | every series keeps its place and takes the animation's fields over its own, and the geo component and the tooltip take theirs |
| AnimationManager.ApplyAnimationAt | packages/core/src/animation-manager.ts:111-146 | what applyAnimation puts under each property of the option |
| AnimationManager.ApplyAnimationTwice | packages/core/src/animation-manager.ts:111-146 | applying an animation twice is applying it once |
| AnimationManager.DataLoading | packages/core/src/animation-manager.ts:169-180 | one item per datum; a disabled animation returns the data itself; otherwise the i-th item is an object holding exactly the datum's own properties and the three animation properties: delay (animation delay or 0) + 50·i, the duration and the easing, every other property keeping the datum's value |
| AnimationManager.DataLoadingStaggered | packages/core/src/animation-manager.ts:169-180 | the i-th item's delay is the animation's delay (0 when unset) plus 50 ms per place, so two items' delays differ by 50 ms per place between them |
| AnimationManager.RegionSwitch | packages/core/src/animation-manager.ts:185-206 | nothing when disabled; otherwise the animation's fields and a transition |
| AnimationManager.RegionSwitchTransition | packages/core/src/animation-manager.ts:193-205 | the transition runs from the first region to the second, with the animation's own duration and easing |
| AnimationManager.DataUpdate | packages/core/src/animation-manager.ts:211-228 | the new data, plus the animation's fields and the type 'update' when enabled |
| AnimationManager.DataUpdateIgnoresOld | packages/core/src/animation-manager.ts:211-228 | the old data plays no part in the update |
| AnimationManager.AnimationManagerInstance.constructor | packages/core/src/animation-manager.ts:9-13 | a new manager holds the six presets |
| AnimationManager.AnimationManagerInstance.InitializeDefaultAnimations | packages/core/src/animation-manager.ts:25-85 | registering the presets into the empty registry gives the preset table |
| AnimationManager.AnimationManagerInstance.RegisterLaterPresets | packages/core/src/animation-manager.ts:25-85 | registering the last three presets after the first three gives the preset table |
| AnimationManager.AnimationManagerInstance.RegisterAnimation | packages/core/src/animation-manager.ts:90-92 | the animation is stored under its name, a new name going last |
| AnimationManager.AnimationManagerInstance.GetAnimation | packages/core/src/animation-manager.ts:97-99 | the animation is found exactly when its name is registered |
| AnimationManager.AnimationManagerInstance.CreateCustomAnimation | packages/core/src/animation-manager.ts:233-247 | the named base, or 'fadeIn' when there is no such animation, customised and registered under the new name |
| TooltipManager.PresetsValid | packages/core/src/tooltip-manager.ts:25-82 | the four presets form a valid registry that holds 'default' |
| TooltipManager.DefaultFormatter | packages/core/src/tooltip-manager.ts:135-157 | the default formatter is set exactly for item tooltips, and is the empty text otherwise |
| TooltipManager.FormatterOf | packages/core/src/tooltip-manager.ts:126 | a set formatter is kept, and an empty one falls back to the default for the trigger |
| TooltipManager.ApplyTooltip | packages/core/src/tooltip-manager.ts:109-130 | the option gains a tooltip and nothing else in it changes; a disabled tooltip becomes one that is only hidden |
| TooltipManager.ApplyTooltipShown | packages/core/src/tooltip-manager.ts:117-129 | an enabled tooltip is shown with its own trigger and formatter, the default formatter filling an empty one, and the option's other tooltip settings are kept |
| TooltipManager.ApplyTooltipTwice | packages/core/src/tooltip-manager.ts:109-130 | applying a tooltip twice is applying it once |
| TooltipManager.OrElse | packages/core/src/tooltip-manager.ts:170-184 | `v || fallback`: a truthy value is shown, any falsy one gives the fallback (the empty text here, 'N/A' in the region tooltip) |
| TooltipManager.UnlessMissing | packages/core/src/tooltip-manager.ts:182-184 | the corrected placeholder text: only a missing value shows as nothing, and any other value is displayed |
| TooltipManager.Placeholder | packages/core/src/tooltip-manager.ts:175 | a field's placeholder is the field wrapped in braces |
| TooltipManager.FormatWith | packages/core/src/tooltip-manager.ts:166-188 | the formatter throws exactly when the value is set but is not an array |
| TooltipManager.Format | packages/core/src/tooltip-manager.ts:162-189 | the formatter returned, applied to params, is the corrected custom format |
| TooltipManager.ReplaceAbsent | packages/core/src/tooltip-manager.ts:170 | replacing a pattern whose first character the text lacks leaves the text unchanged |
| TooltipManager.ReplaceMiss | packages/core/src/tooltip-manager.ts:170 | a text that does not start with the pattern and lacks its first character after that is left unchanged |
| TooltipManager.ReplaceFieldsPlain | packages/core/src/tooltip-manager.ts:174-178 | a text without '{' comes through every data field's replacement unchanged |
| TooltipManager.JoinPlain | packages/core/src/tooltip-manager.ts:171 | joining texts without '{' by a text without '{' gives a text without '{' |
| TooltipManager.NamePlaceholders | packages/core/src/tooltip-manager.ts:166-188 | without a value, every `{name}` placeholder in the template shows the name, whatever the data fields |
| TooltipManager.ReplaceJoinMiss | packages/core/src/tooltip-manager.ts:170-184 | replacing one placeholder leaves the other placeholders in the template untouched |
| TooltipManager.ValuePlaceholders | packages/core/src/tooltip-manager.ts:166-188 | every `{value}` placeholder shows the joined value, whatever the data fields |
| TooltipManager.FormatWithArray | packages/core/src/tooltip-manager.ts:170-185 | with an array value, the formatter runs its steps in order: name, value, data fields, coordinates |
| TooltipManager.CoordinatesPlain | packages/core/src/tooltip-manager.ts:181-185 | a text without '{' has no coordinate placeholders to replace |
| TooltipManager.FormatFailsOnScalarValue | packages/core/src/tooltip-manager.ts:171 | a value that is set but is not an array makes the formatter throw |
| TooltipManager.ZeroDataAsWritten | packages/core/src/tooltip-manager.ts:171-184 | as written, `{data}` shows nothing for a data value of zero; corrected, the zero shows |
| TooltipManager.ReplaceData | packages/core/src/tooltip-manager.ts:182-184 | a lone `{data}` is missed by the coordinate placeholders and replaced by its own |
| TooltipManager.Largest | packages/core/src/tooltip-manager.ts:248 | the largest value: no smaller than any value, and one of them |
| TooltipManager.Smallest | packages/core/src/tooltip-manager.ts:249 | the smallest value: no larger than any value, and one of them |
| TooltipManager.SumBounds | packages/core/src/tooltip-manager.ts:246 | the sum lies between n times any lower and any upper bound on the values |
| TooltipManager.ThirdValues | packages/core/src/tooltip-manager.ts:245 | one value per item |
| TooltipManager.CalculateDataStats | packages/core/src/tooltip-manager.ts:235-252 | all zeros without data; otherwise the total is the sum of the third values (a missing one counting as 0), the average is the total over the count, max and min are values that occur, and every value lies between them |
| TooltipManager.StatsOrdered | packages/core/src/tooltip-manager.ts:235-252 | the smallest value, the mean and the largest value are in that order |
| TooltipManager.StatsMissingAsZero | packages/core/src/tooltip-manager.ts:245 | a missing value counts as zero, so data with no values has all-zero statistics |
| TooltipManager.DataStatsTooltip | packages/core/src/tooltip-manager.ts:194-230 | an enabled item tooltip with a formatter, built over the data's statistics |
| TooltipManager.RegionInfo | packages/core/src/tooltip-manager.ts:275-284 | the region's code, type, population and area are each shown when set and as 'N/A' otherwise |
| TooltipManager.RegionInfoTooltip | packages/core/src/tooltip-manager.ts:257-290 | an enabled item tooltip whose formatter shows the region's details |
| TooltipManager.CustomisedOverridesWin | packages/core/src/tooltip-manager.ts:300-304 | an override wins, what it leaves out is the base's, no overrides change nothing, and customising twice is customising once |
| TooltipManager.TooltipManagerInstance.constructor | packages/core/src/tooltip-manager.ts:9-13 | a new manager holds the four presets |
| TooltipManager.TooltipManagerInstance.RegisterTooltip | packages/core/src/tooltip-manager.ts:87-90 | the configuration is stored under its name, a new name going last |
| TooltipManager.TooltipManagerInstance.GetTooltip | packages/core/src/tooltip-manager.ts:95-97 | the tooltip is found exactly when its name is registered |
| TooltipManager.TooltipManagerInstance.CreateCustomTooltip | packages/core/src/tooltip-manager.ts:295-308 | the named base, or 'default' when there is no such tooltip, with the overrides over it, registered under the name |
| MapRegistry.SetAllValid | packages/core/src/map-registry.ts:77-82 | registering every entry keeps the record valid |
| MapRegistry.SetAllRegisters | packages/core/src/map-registry.ts:77-82 | afterwards exactly the earlier names and the entries' names are registered, and a name no entry carries keeps its data |
| MapRegistry.LastEntryWins | packages/core/src/map-registry.ts:77-82 | the last entry for a name decides its data |
| MapRegistry.EChartsAgrees | packages/core/src/map-registry.ts:29-82 | ECharts and the registry's record agree on every name the entries register |
| MapRegistry.ECharts.constructor | packages/core/src/map-registry.ts:30-32 | ECharts starts with no maps |
| MapRegistry.ECharts.RegisterMap | packages/core/src/map-registry.ts:34 | ECharts stores the map under its name |
| MapRegistry.MapRegistry.constructor | packages/core/src/map-registry.ts:7-10 | a new registry records nothing and has no ECharts module |
| MapRegistry.MapRegistry.SetEChartsInstance | packages/core/src/map-registry.ts:22-24 | the ECharts module is the one given |
| MapRegistry.MapRegistry.RegisterMap | packages/core/src/map-registry.ts:29-37 | ECharts is loaded when missing, and the map goes both to ECharts and into the record; afterwards it is registered with that data, and a new name is appended to the names while a known one keeps its place |
| MapRegistry.MapRegistry.IsMapRegistered | packages/core/src/map-registry.ts:42-44 | a name is registered exactly when the record holds data for it |
| MapRegistry.MapRegistry.GetMapData | packages/core/src/map-registry.ts:49-51 | there is data exactly for a registered name |
| MapRegistry.MapRegistry.GetRegisteredMapNames | packages/core/src/map-registry.ts:56-58 | the names listed are exactly the registered ones |
| MapRegistry.MapRegistry.UnregisterMap | packages/core/src/map-registry.ts:63-65 | only that name leaves the record, and every other name keeps its data |
| MapRegistry.MapRegistry.Clear | packages/core/src/map-registry.ts:70-72 | the record is empty, with no names and nothing registered |
| MapRegistry.MapRegistry.RegisterMaps | packages/core/src/map-registry.ts:77-82 | every entry is registered in turn, in both the record and ECharts; without entries, ECharts is not loaded |
| MapRegistry.MapRegistryHolder.constructor | packages/core/src/map-registry.ts:12-17 | no registry before the first call |
| MapRegistry.MapRegistryHolder.GetInstance | packages/core/src/map-registry.ts:12-17 | the first call makes an empty registry, and every later call returns that same one |
| MapRegistry.SameInstance | packages/core/src/map-registry.ts:12-17 | two calls return the same registry |
| OrderedMaps.Set | packages/core/src/map-registry.ts:36 | `Map.set`: the key then holds the value, every other key keeps its own, and a new key goes last while a known one keeps its place |
| OrderedMaps.Get | packages/core/src/map-registry.ts:50 | `Map.get`: a value exactly for a stored key, and it is the stored one |
| OrderedMaps.Delete | packages/core/src/map-registry.ts:64 | `Map.delete`: the key is gone, every other key keeps its value, and the remaining keys keep their order |
| OrderedMaps.DeleteUndoesSet | packages/core/src/map-registry.ts:36-64 | deleting a key just set restores a map that did not hold it |
| OrderedMaps.SetTwice | packages/core/src/map-registry.ts:36 | setting the same value twice is setting it once |
| OrderedMaps.FirstSeenOrder | packages/core/src/interactive-features.ts:261-293 | a `Map` given its keys in turn lists each distinct key once, exactly the keys given, in the order each was first given |
| JsMath.Wrap32 | packages/core/src/utils/curvatureCalculator.ts:19 | the bitwise or with 0: the result is a signed 32-bit integer congruent to x modulo 2^32, and x itself when already in range |
| JsMath.Round | packages/core/src/deckgl/line2d.ts:206-207 | `Math.round`: the nearest integer, halves going up |
| JsMath.Rem1 | packages/core/src/deckgl/line2d.ts:201-202 | `x % 1` keeps the sign of x: in [0,1) for x ≥ 0 and in (-1,0] below |
| Text.Lower | packages/core/src/interactive-features.ts:60 | `toLowerCase` keeps the length and lowers each character |
| Text.LowerIdempotent | packages/core/src/interactive-features.ts:60 | lowering twice is lowering once |
| Text.Trim | packages/core/src/interactive-features.ts:58-60 | `trim` leaves no white space at either end |
| Text.TrimIsSlice | packages/core/src/interactive-features.ts:58-60 | `trim` gives a slice of its input, with only white space cut off before and after it |
| Text.TrimEmptyIffBlank | packages/core/src/interactive-features.ts:58 | a string trims to nothing exactly when it is all white space |
| Text.ReplaceJoin | packages/core/src/tooltip-manager.ts:169-170 | a global replace of a placeholder replaces every occurrence in a template built around it |
| Text.SplitJoin | packages/core/src/interactive-features.ts:312-350 | splitting a text joined by a separator that none of its parts holds gives the parts back |
| Text.SplitAvoids | packages/core/src/interactive-features.ts:347-350 | no piece of a split holds the separator |
| ChartOption.Spread | packages/core/src/animation-manager.ts:175 | `{...v}`: an object's own properties; an array's elements or a string's characters under the keys "0", "1", ...; nothing for any other value |

## Left out

- Network and file I/O: `GeoDataService.getMapData` with its fetch and cache, `clearCache`, `getPublicBasePath`, `MapStateManager.getGeoJsonData` and the data loading in `initChart`/`initDeck`. Only the path choice and the empty-path guard of `fetchGeoJson` are modelled; the fetch is a parameter.
- Timers and scheduling: `debounce`, the `requestAnimationFrame` loop, `waitForReady`, `waitForBoundaryLoadingToBeFalse` and the animation interval. Each tick or call is an explicit step, and `Promise.all` in `registerMaps` runs its registrations one after the other.
- Trigonometry and logarithms: great-circle distance, bearing and midpoint in `coordinate.ts`, and the `log2` zoom formulas. They are parameters or omitted; only the clamps and bounding boxes around them are modelled.
- Floating point: all arithmetic is exact over the reals. Rounding error, infinities and NaN exist only where a contract names them as explicit cases.
- Rendering and the DOM: deck.gl layers and views, ECharts `init`/`setOption`/`dispatchAction`, canvas drawing, `svgToImage`, `toDataURL`, container sizing and `resize`. The rasteriser of the icon atlas is a parameter giving each icon's size.
- Randomness: `generateId` and the random instance ids. Ids are parameters.
- JSON: export and import through `JSON.stringify`/`JSON.parse`, and `deepClone` beyond JSON-like values. CSV export and its parsing back are modelled.
- HTML formatter templates and the statistics text that uses `sqrt` and `toFixed`.
- Theme, animation, tooltip and interactive-features singletons: their `getInstance` is not modelled. The registry behind each is modelled; `MapRegistry`'s singleton is modelled.
- `_detailGeoData` and the `mapVersion` field read by `getDetailDataPath`: `MapStateManager.ts` does not declare `mapVersion`, so it is a parameter that is `None` as the code stands.
- The deck.gl adapter's `updateMapLevel`, `setPointStyle` and `resize` are no-ops in the source. `setMapLevel` in both renderers fetches data asynchronously. None of these is modelled.
- `filterCache` in the interactive features is modelled only as a field that the constructor creates empty and `clearCache` empties. The source never fills or reads it, so no lookup through it is modelled.
- GeometryCollection geometries are not modelled. They have no coordinates of their own, and `getBounds` would fail on them.
- Object identity: a JavaScript `Set` of items deduplicates by reference, while the model compares values. Two equal items that are different objects are kept once here.
- Aliasing: `applyTheme` and `applyAnimation` write through the shallow copy into the caller's `geo` and `tooltip` objects. The model returns the new option value and does not capture that the caller's object changes too.
- Option fields explicitly set to `undefined`, a truthy non-object `geo` or `tooltip`, and series given as strings or arrays are not modelled.
- `createCustomFormatter`: field names holding regular-expression metacharacters, replacement strings holding `$` patterns, and function-valued fields are not modelled. Fields are plain names, and values are shown through a `show` parameter.
- `toLowerCase` and `trim` act only on ASCII letters and the common white-space characters. `toFixed` is omitted.
- InteractiveFeatures.Suffixes: suffixes are taken per character, while `substring` counts UTF-16 code units. A name holding a character outside the Basic Multilingual Plane (an emoji, say) gets whole-character suffixes here, and in the source also suffixes that start in the middle of such a character.
- GeoHelper.ConvertDeviceStatus2Order: characters other than a..z, ı, ſ, ß and the Latin ligatures are kept, not upper-cased. Their real upper case always keeps a non-ASCII character, so the order returned is the same; a status that is not a string is not modelled.
- `sortData` by name: it orders with `localeCompare`, whose collation is locale-dependent, so only the value and distance sorts are modelled.
- `calculateDataStats` and `createDataStats`: non-numeric values, items without a value array and the argument limit of `Math.max(...)` are not modelled. The standard deviation goes through `sqrt`, a parameter, so nothing is proved about it.
- `value[2] || 0` on a NaN value: there is no NaN among the modelled values.
- EchartsGeo.TransSeriesCoordinate2GeoJsonXY: requires scatter series to carry point data and line series to carry two coordinates per line. On other shapes the source reads missing entries and fails.
- EchartsGeo.EchartsMap.HandleChangeArea: requires every detail feature to carry a geometry. The source would fail reading a missing one.
- EchartsGeo.EchartsMap.SetGeoData: the option's fixed boundary styling, and the skip of `setOption` before `initChart` has created the chart, are not modelled. The option is recorded as if the chart existed.
- The registration half of `initChart` (the boundary stored in ECharts under `detailMap + "-geo"`) runs after an awaited fetch, so the constructor does not perform it. EchartsGeo.GeoRegistrationMissesDetail states what it means for the detail lookup.
- LayerManager.Added and LayerManager.MapLayerManager.AddLayer: a taken id goes through `Updated`, the corrected guard, so a plain patch is merged. As written it is stored in place of the layer, as LayerManager.UpdatedAsWritten states.
- LayerManager.MapLayerManager.UpdateLayer: the registry follows the corrected guard; LayerManager.UpdatedAsWritten and LayerManager.InstancesUnaffected state where the code as written differs.
- InteractiveFeatures.InteractiveFeaturesInstance.IndexItem and InteractiveFeatures.InteractiveFeaturesInstance.BuildSearchIndex: items are filed under `KeysFor`, with lowered initials. As written the initials stay upper case (InteractiveFeatures.KeysAsWritten), and a lowered query never reaches them.
- GlMap.DeckglMap.InitDeck: the `onClick` handler passed to the Deck, which forwards clicks to `handleClickMapView`, and the completion `callback()` called before the animation starts are not recorded. The props hold only the mode.
- GeoUtils.RegionOf: a property whose value is not text, such as the `value` array, is grouped in the source under its string form ("116.4,39.9,0"). The model reads text properties and `name` only, so other keys give "unknown".
- Tables kept in plain objects list their keys in insertion order here. Names that an object literal inherits, such as `constructor` or `__proto__`, behave differently in the source and are not modelled.
- IconAtlas.Entries: a JavaScript object lists keys that read as array indices ("0", "12") first, in numeric order, and only then the other keys in insertion order. The model lists every key in insertion order, which agrees for the icon names used ("marker", "warning", "error" and named extras) but not for numeric names.
- IconAtlas.Assign: a new key that reads as an array index takes its numeric place among such keys in the source, not the last place. The model puts every new key last.
- IconAtlas.SpreadEffect: the key order of `{...a, ...b}` is stated for keys that do not read as array indices; such keys come first in numeric order in the source.
- GlMap.MergedIconsEffect: the defaults-then-extras order holds only when no icon name reads as an array index; an extra named "7", say, would be listed first by the source.
- GeoUtils.AggregateByRegion: the record lists its regions in the order first met; a region name that reads as an array index would come first, in numeric order, in the source.
- GeoJson.IsPointInFeature: requires every polygon to have an outer ring. The source reads ring 0 unconditionally.
- Line2D.BuildQuadraticBezierPath: requires a nonzero segment count. With 0 segments the source divides by zero and yields NaN points.
- Coordinate.GenerateBezierPath: requires a nonzero segment count, for the same reason.
- CurvatureCalc.FreshCurvatureInRange: excludes the one fold value -2^31. For it the hash is 2^31 / (2^31 - 1), slightly above 1, and the curvature then lies just outside the range.
- DataVisualization.GenerateColorGradient: a non-integer `steps` is not modelled; steps is an `int`.
- `maxZoom` in the zoom helpers is unused by the source and not modelled.
- UnifiedMap.UnifiedMapComponent.constructor and UnifiedMap.UnifiedMapComponent.SwitchRenderer: `isInitialized` is set as if the awaited `registerExtraIcons` (UnifiedMapComponent.ts:59-61) and `restoreState` (UnifiedMapComponent.ts:123) had already settled. Code that reads the flag before they settle sees `false` in the source. Icon registration is taken to succeed, so a rejected registration, which takes the catch and fallback path, is not modelled.
- UnifiedMap.UnifiedMapComponent.GetCurrentRendererType, and the theme, tooltip and animation name lists, return a field as it is. They carry no contract of their own; the methods that set the field state it.

## Findings

| source | as written | input that shows it | evidently intended | confidence | as-written member | corrected member |
|---|---|---|---|---|---|---|
| packages/core/src/adapters/DeckglMapAdapter.ts:247 | the line colour goes through `toString` before `parseColor`, so an array colour becomes text such as "255,0,0,255" that starts with neither "#" nor "rgb" | a line with colour [255, 0, 0, 255] | the array's components are the colour | high; not executed | DeckglAdapter.LineColorAlwaysWhite | DeckglAdapter.RedLineExample |
| packages/core/src/adapters/DeckGLRenderer.ts:16-42 | `glMap` is declared but `initDeckGL` never assigns it, so `render` calls a method on `undefined` | rendering one point layer | `initDeckGL` creates the map and keeps it in `glMap` | high; not executed | DeckGLRenderer.RenderWithoutMap | DeckGLRenderer.RenderWithMap |
| packages/core/src/deckgl/layerManager.ts:32-36 | the instance test holds for any non-null object, since every object inherits a function-valued `constructor` | `updateLayer` on an existing slot with the plain patch `{visible: false}` | only layer objects count as instances, so a plain patch is merged into the layer's props | high; not executed | LayerManager.PatchReplacesLayerAsWritten | LayerManager.PatchMergesIntoLayer |
| packages/core/src/interactive-features.ts:34-60 | pinyin initials are indexed upper-case, but the query is lower-cased before matching | the query "bj" over an index holding 北京 | initials are lower-cased when indexed, so "bj" finds 北京 | high; not executed | InteractiveFeatures.PinyinQueryAsWritten | InteractiveFeatures.PinyinQueryCorrected |
| packages/core/src/data-visualization.ts:416-418 | the ratio is `i / (steps - 1)`, which is 0/0 when there is one step | `generateColorGradient(c1, c2, 1)` | a one-step gradient is the start colour | high; not executed | DataVisualization.OneStepGradientAsWritten | DataVisualization.GradientEnds |
| packages/core/src/tooltip-manager.ts:183-185 | `{lng}`, `{lat}` and `{data}` fall back to the empty string for every falsy value, so a zero disappears, while `{value}` at line 171 shows it | params value [116.4, 39.9, 0] with the template "{data}" | a zero coordinate or data value is shown as 0 | medium; not executed | TooltipManager.ZeroDataAsWritten | TooltipManager.Format |
