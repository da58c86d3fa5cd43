// GeoJSON values shared by the whole model (packages/types/src/geo.interface.ts).
module GeoTypes {
  import opened Wrappers

  /** A [lng, lat] or projected [x, y] pair. */
  datatype Pt = Pt(x: real, y: real)

  /** A linear ring or line: a sequence of positions. */
  type Ring = seq<Pt>

  /** The coordinate-carrying GeoJSON geometries. */
  datatype Geometry =
    | Point(pos: Pt)
    | MultiPoint(points: seq<Pt>)
    | LineString(line: seq<Pt>)
    | MultiLineString(lines: seq<seq<Pt>>)
    | Polygon(rings: seq<Ring>)
    | MultiPolygon(polygons: seq<seq<Ring>>)

  /** The type string GeoJSON writes for a geometry. */
  function GeometryType(g: Geometry): string
  {
    match g
    case Point(_) => "Point"
    case MultiPoint(_) => "MultiPoint"
    case LineString(_) => "LineString"
    case MultiLineString(_) => "MultiLineString"
    case Polygon(_) => "Polygon"
    case MultiPolygon(_) => "MultiPolygon"
  }

  function Concat<T>(ss: seq<seq<T>>): (r: seq<T>)
    ensures |ss| == 0 ==> r == []
  {
    if |ss| == 0 then [] else ss[0] + Concat(ss[1..])
  }

  function ConcatRings(polys: seq<seq<Ring>>): seq<Pt>
  {
    if |polys| == 0 then [] else Concat(polys[0]) + ConcatRings(polys[1..])
  }

  /**
   * Every position of a geometry, in the depth-first order in which a walk
   * over its nested coordinate arrays meets them.
   */
  function Vertices(g: Geometry): seq<Pt>
  {
    match g
    case Point(p) => [p]
    case MultiPoint(ps) => ps
    case LineString(ps) => ps
    case MultiLineString(ls) => Concat(ls)
    case Polygon(rs) => Concat(rs)
    case MultiPolygon(ps) => ConcatRings(ps)
  }

  /** A value found in a feature's `properties` record. */
  datatype PropVal = PStr(s: string) | PInt(i: int) | PBool(b: bool) | PNull

  /** JavaScript truthiness of a property value. */
  predicate Truthy(v: PropVal)
  {
    match v
    case PStr(s) => s != ""
    case PInt(i) => i != 0
    case PBool(b) => b
    case PNull => false
  }

  /** An absent property reads as `undefined`, which is falsy. */
  predicate TruthyProp(props: map<string, PropVal>, key: string)
  {
    key in props && Truthy(props[key])
  }

  datatype Feature = Feature(properties: map<string, PropVal>, geometry: Option<Geometry>, id: Option<PropVal>)

  /** Whether `properties.name` is the string `name`. */
  predicate NamedAs(f: Feature, name: string)
  {
    "name" in f.properties && f.properties["name"] == PStr(name)
  }

  datatype FeatureCollection = FeatureCollection(features: seq<Feature>)

  function DigitChar(d: nat): char
    requires d < 10
  {
    "0123456789"[d]
  }

  function NatToString(n: nat): (s: string)
    ensures |s| >= 1
    ensures forall k :: 0 <= k < |s| ==> '0' <= s[k] <= '9'
    decreases n
  {
    if n < 10 then [DigitChar(n)] else NatToString(n / 10) + [DigitChar(n % 10)]
  }

  lemma DigitCharValue(d: nat)
    requires d < 10
    ensures DigitChar(d) as int == '0' as int + d
  {
    if d == 0 {} else if d == 1 {} else if d == 2 {} else if d == 3 {} else if d == 4 {}
    else if d == 5 {} else if d == 6 {} else if d == 7 {} else if d == 8 {}
  }

  /** Distinct numbers have distinct decimal texts. */
  lemma {:induction false} NatToStringInjective(a: nat, b: nat)
    requires NatToString(a) == NatToString(b)
    ensures a == b
    decreases a
  {
    if a < 10 && b < 10 {
      DigitCharValue(a);
      DigitCharValue(b);
    } else if 10 <= a && 10 <= b {
      var s := NatToString(a);
      assert s[..|s| - 1] == NatToString(a / 10) && s[|s| - 1] == DigitChar(a % 10);
      assert s[..|s| - 1] == NatToString(b / 10) && s[|s| - 1] == DigitChar(b % 10);
      DigitCharValue(a % 10);
      DigitCharValue(b % 10);
      NatToStringInjective(a / 10, b / 10);
    }
  }

  /** JavaScript `String(v)` of an integer. */
  function IntToString(i: int): string
  {
    if i < 0 then "-" + NatToString(-i) else NatToString(i)
  }

  /** JavaScript `String(v)` of a property value. */
  function PropToString(v: PropVal): string
  {
    match v
    case PStr(s) => s
    case PInt(i) => IntToString(i)
    case PBool(b) => if b then "true" else "false"
    case PNull => "null"
  }
}
