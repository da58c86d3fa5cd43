// Map levels, renderer kinds, points and lines (packages/types/src/map.interface.ts),
// and the data items of the ECharts-facing utilities (packages/types/src/index.ts).
module MapTypes {
  import opened Wrappers
  import opened GeoTypes

  /** The drill-down levels, from the whole world down to a county. */
  datatype MapLevel = World | Country | Province | City | County

  /** The string value of each level. */
  function LevelName(l: MapLevel): string
  {
    match l
    case World => "world"
    case Country => "country"
    case Province => "province"
    case City => "city"
    case County => "county"
  }

  datatype RendererType = ECharts | DeckGL | Leaflet | Mapbox

  /** The string value of each renderer kind. */
  function RendererName(t: RendererType): string
  {
    match t
    case ECharts => "echarts"
    case DeckGL => "deckgl"
    case Leaflet => "leaflet"
    case Mapbox => "mapbox"
  }

  /**
   * A point marker. `color` is the JavaScript array as given, which may be
   * shorter than four entries.
   */
  datatype MapPoint = MapPoint(id: string, coordinate: Pt, icon: Option<string>,
                               color: Option<seq<int>>, size: Option<real>)

  /** A flow line between two coordinates. */
  datatype MapLine = MapLine(id: string, start: Pt, end: Pt,
                             color: Option<seq<int>>, width: Option<real>)

  /**
   * A data item of the ECharts-facing utilities: its name, `value` as
   * `[lng, lat, value]`, and its other properties that hold text.
   */
  datatype GeoData = GeoData(name: string, lng: real, lat: real, value: real, fields: map<string, string>)
}
