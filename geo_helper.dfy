// Map centring, adcode correction, level numbering, device-status order and
// region-name suffix stripping (packages/core/src/utils/geo.helper.ts).
module GeoHelper {
  import opened Wrappers
  import opened GeoTypes
  import opened MapTypes
  import GeoJson

  /** Span of the projected world map along each axis. */
  const WorldDeltaLng: real := 11000.0
  const WorldDeltaLat: real := 5200.0

  /**
   * A JavaScript number that may have become +Infinity through a division by zero.
   */
  datatype ExtReal = Fin(r: real) | PosInf

  function Div(k: real, d: real): ExtReal
    requires k > 0.0 && d >= 0.0
  {
    if d == 0.0 then PosInf else Fin(k / d)
  }

  function MinExt(a: ExtReal, b: ExtReal): ExtReal
  {
    match (a, b)
    case (PosInf, _) => b
    case (_, PosInf) => a
    case (Fin(x), Fin(y)) => Fin(if x <= y then x else y)
  }

  function Abs(x: real): real { if x < 0.0 then -x else x }

  predicate AtLeastOne(z: ExtReal)
  {
    z.PosInf? || z.r >= 1.0
  }

  /**
   * The `{center, zoom}` result. `NaNCenterZoom` is `{center: [NaN, NaN], zoom: NaN}`:
   * an entry of the list with no coordinates reads `undefined`, `Math.min` and
   * `Math.max` over a list holding `undefined` give NaN, and `NaN < 1` is false,
   * so the NaN zoom is returned as it is.
   */
  datatype CenterZoom = CenterZoom(center: Option<Pt>, zoom: ExtReal) | NaNCenterZoom

  /**
   * What the flattening walk pushes: a position, or an empty coordinate array,
   * which it cannot tell from a position because its first entry is not an array.
   */
  datatype Leaf = Pos(p: Pt) | Hollow

  /** The positions of a flattened list, the empty arrays dropped. */
  function Positions(l: seq<Leaf>): (r: seq<Pt>)
    ensures |r| <= |l|
    ensures Hollow !in l ==> |r| == |l|
  {
    if |l| == 0 then []
    else Emitted(l[0]) + Positions(l[1..])
  }

  function Emitted(x: Leaf): seq<Pt>
  {
    if x.Pos? then [x.p] else []
  }

  lemma {:induction false} PositionsAppend(a: seq<Leaf>, b: seq<Leaf>)
    ensures Positions(a + b) == Positions(a) + Positions(b)
  {
    if |a| == 0 {
      assert a + b == b;
    } else {
      calc {
        Positions(a + b);
        Emitted(a[0]) + Positions((a + b)[1..]);
        { assert (a + b)[1..] == a[1..] + b; }
        Emitted(a[0]) + Positions(a[1..] + b);
        { PositionsAppend(a[1..], b); }
        Emitted(a[0]) + (Positions(a[1..]) + Positions(b));
      }
    }
  }

  /** The midpoint of a box. */
  function Middle(b: GeoJson.Box): Pt
  {
    Pt((b.min.x + b.max.x) / 2.0, (b.min.y + b.max.y) / 2.0)
  }

  /** Midpoint of the bounds and max(1, 0.8 * min(11000 / |dLng|, 5200 / |dLat|)), a zero span dividing to +Infinity. */
  function Framing(pts: seq<Pt>): CenterZoom
    requires |pts| > 0
  {
    var b := GeoJson.BoundsOf(pts);
    var lngScale := Div(WorldDeltaLng, Abs(b.max.x - b.min.x));
    var latScale := Div(WorldDeltaLat, Abs(b.max.y - b.min.y));
    var zoom := match MinExt(lngScale, latScale)
      case PosInf => PosInf
      case Fin(z) => Fin(z * 0.8);
    CenterZoom(Some(Middle(b)), if zoom.Fin? && zoom.r < 1.0 then Fin(1.0) else zoom)
  }

  /**
   * Centre and zoom for a list of coordinates: no centre and zoom 1 for an
   * empty list; NaN centre and zoom when an entry has no coordinates;
   * otherwise the bounding-box midpoint and a zoom of at least 1.
   */
  function GetMapCenterAndZoom(coordinateList: seq<Leaf>): (r: CenterZoom)
    ensures |coordinateList| == 0 ==> r == CenterZoom(None, Fin(1.0))
    ensures r.NaNCenterZoom? <==> Hollow in coordinateList
    ensures |coordinateList| > 0 && Hollow !in coordinateList ==>
              r.CenterZoom? && r.center == Some(Middle(GeoJson.BoundsOf(Positions(coordinateList))))
    ensures r.CenterZoom? ==> AtLeastOne(r.zoom)
  {
    if |coordinateList| == 0 then CenterZoom(None, Fin(1.0))
    else if Hollow in coordinateList then NaNCenterZoom
    else Framing(Positions(coordinateList))
  }

  /** With every entry a position, the zoom is finite exactly when the points span a non-zero width or height. */
  lemma ZoomFiniteIffSpread(coordinateList: seq<Leaf>)
    requires |coordinateList| > 0 && Hollow !in coordinateList
    ensures var b := GeoJson.BoundsOf(Positions(coordinateList));
            var r := GetMapCenterAndZoom(coordinateList);
            r.CenterZoom? && (r.zoom.Fin? <==> (b.min.x != b.max.x || b.min.y != b.max.y))
  {
    var pts := Positions(coordinateList);
    assert GetMapCenterAndZoom(coordinateList) == Framing(pts);
  }

  /** An array of positions walks to its positions; an empty one is pushed itself. */
  function PositionLeaves(ps: seq<Pt>): (r: seq<Leaf>)
    ensures Positions(r) == ps
    ensures Hollow in r <==> ps == []
  {
    if |ps| == 0 then [Hollow] else PosAll(ps)
  }

  function PosAll(ps: seq<Pt>): (r: seq<Leaf>)
    ensures Positions(r) == ps
    ensures Hollow !in r
  {
    if |ps| == 0 then [] else [Pos(ps[0])] + PosAll(ps[1..])
  }

  /** An array of position arrays holds an empty array at some level. */
  predicate HollowLines(ls: seq<seq<Pt>>)
  {
    ls == [] || [] in ls
  }

  function EachLine(ls: seq<seq<Pt>>): (r: seq<Leaf>)
    ensures Positions(r) == Concat(ls)
    ensures Hollow in r <==> [] in ls
  {
    if |ls| == 0 then []
    else
      PositionsAppend(PositionLeaves(ls[0]), EachLine(ls[1..]));
      assert ls == [ls[0]] + ls[1..];
      PositionLeaves(ls[0]) + EachLine(ls[1..])
  }

  /** An array of position arrays walks to each array's leaves; an empty one is pushed itself. */
  function LineLeaves(ls: seq<seq<Pt>>): (r: seq<Leaf>)
    ensures Positions(r) == Concat(ls)
    ensures Hollow in r <==> HollowLines(ls)
  {
    if |ls| == 0 then [Hollow] else EachLine(ls)
  }

  function EachPolygon(ps: seq<seq<Ring>>): (r: seq<Leaf>)
    ensures Positions(r) == ConcatRings(ps)
    ensures Hollow in r <==> exists p :: p in ps && HollowLines(p)
  {
    if |ps| == 0 then []
    else
      PositionsAppend(LineLeaves(ps[0]), EachPolygon(ps[1..]));
      HollowPolygonsCons(ps);
      LineLeaves(ps[0]) + EachPolygon(ps[1..])
  }

  lemma HollowPolygonsCons(ps: seq<seq<Ring>>)
    requires |ps| > 0
    ensures (exists p :: p in ps && HollowLines(p)) <==>
            HollowLines(ps[0]) || exists p :: p in ps[1..] && HollowLines(p)
  {
    assert ps == [ps[0]] + ps[1..];
  }

  /** A geometry's coordinates hold an empty array at some level. */
  predicate HasEmptyArray(g: Geometry)
  {
    match g
    case Point(_) => false
    case MultiPoint(ps) => ps == []
    case LineString(ps) => ps == []
    case MultiLineString(ls) => HollowLines(ls)
    case Polygon(rs) => HollowLines(rs)
    case MultiPolygon(ps) => ps == [] || exists p :: p in ps && HollowLines(p)
  }

  /**
   * What the flattening walk pushes for one geometry's coordinates: the
   * geometry's vertices in order, with an extra entry for each empty array.
   */
  function Leaves(g: Geometry): (r: seq<Leaf>)
    ensures Positions(r) == Vertices(g)
    ensures Hollow in r <==> HasEmptyArray(g)
  {
    match g
    case Point(p) => [Pos(p)]
    case MultiPoint(ps) => PositionLeaves(ps)
    case LineString(ps) => PositionLeaves(ps)
    case MultiLineString(ls) => LineLeaves(ls)
    case Polygon(rs) => LineLeaves(rs)
    case MultiPolygon(ps) =>
      if |ps| == 0 then [Hollow] else EachPolygon(ps)
  }

  /** Every position under a list of coordinate arrays, in depth-first order. */
  function AllVertices(geoms: seq<Geometry>): seq<Pt>
  {
    if |geoms| == 0 then [] else AllVertices(geoms[..|geoms| - 1]) + Vertices(geoms[|geoms| - 1])
  }

  /** The flattening walk over a list of coordinate arrays. */
  function AllLeaves(geoms: seq<Geometry>): (r: seq<Leaf>)
    ensures Positions(r) == AllVertices(geoms)
    ensures Hollow in r <==> exists k :: 0 <= k < |geoms| && HasEmptyArray(geoms[k])
  {
    if |geoms| == 0 then []
    else
      var front := geoms[..|geoms| - 1];
      PositionsAppend(AllLeaves(front), Leaves(geoms[|geoms| - 1]));
      EmptyArraySnoc(geoms);
      AllLeaves(front) + Leaves(geoms[|geoms| - 1])
  }

  lemma EmptyArraySnoc(geoms: seq<Geometry>)
    requires |geoms| > 0
    ensures var n := |geoms| - 1;
            (exists k :: 0 <= k < |geoms| && HasEmptyArray(geoms[k])) <==>
            (exists k :: 0 <= k < n && HasEmptyArray(geoms[..n][k])) || HasEmptyArray(geoms[n])
  {
    var n := |geoms| - 1;
    assert forall k :: 0 <= k < n ==> geoms[..n][k] == geoms[k];
  }

  /** An empty MultiPoint among the coordinates makes the centre and zoom NaN. */
  lemma EmptyMultiPointIsNaN(p: Pt)
    ensures GetMapCenterAndZoom(AllLeaves([Point(p), MultiPoint([])])) == NaNCenterZoom
  {
    assert HasEmptyArray([Point(p), MultiPoint([])][1]);
  }

  /** Collects every leaf, one coordinate array after another. */
  method FlattenCoordinate(arr: seq<Geometry>) returns (result: seq<Leaf>)
    ensures result == AllLeaves(arr)
    ensures forall v :: v in Positions(result) <==> exists k :: 0 <= k < |arr| && v in Vertices(arr[k])
    ensures Hollow in result <==> exists k :: 0 <= k < |arr| && HasEmptyArray(arr[k])
  {
    result := [];
    var i := 0;
    while i < |arr|
      invariant 0 <= i <= |arr|
      invariant result == AllLeaves(arr[..i])
    {
      assert arr[..i + 1][..i] == arr[..i];
      result := result + Leaves(arr[i]);
      i := i + 1;
    }
    assert arr[..i] == arr;
    AllVerticesMembers(arr);
  }

  lemma {:induction false} AllVerticesMembers(arr: seq<Geometry>)
    ensures forall v :: v in AllVertices(arr) <==> exists k :: 0 <= k < |arr| && v in Vertices(arr[k])
  {
    if |arr| > 0 {
      var front := arr[..|arr| - 1];
      AllVerticesMembers(front);
      forall v | v in AllVertices(arr)
        ensures exists k :: 0 <= k < |arr| && v in Vertices(arr[k])
      {
        if v in AllVertices(front) {
          var k :| 0 <= k < |front| && v in Vertices(front[k]);
          assert arr[k] == front[k];
        } else {
          assert v in Vertices(arr[|arr| - 1]);
        }
      }
      forall v | exists k :: 0 <= k < |arr| && v in Vertices(arr[k])
        ensures v in AllVertices(arr)
      {
        var k :| 0 <= k < |arr| && v in Vertices(arr[k]);
        if k < |arr| - 1 {
          assert front[k] == arr[k];
        }
      }
    }
  }

  /** `getMapCenterAndZoomByGeometryCoordinates`: flatten, then centre and zoom. */
  method GetMapCenterAndZoomByGeometryCoordinates(geometryCoordinates: seq<Geometry>) returns (r: CenterZoom)
    ensures r == GetMapCenterAndZoom(AllLeaves(geometryCoordinates))
    ensures r.NaNCenterZoom? <==> exists k :: 0 <= k < |geometryCoordinates| && HasEmptyArray(geometryCoordinates[k])
    ensures |geometryCoordinates| == 0 ==> r == CenterZoom(None, Fin(1.0))
    ensures (forall k :: 0 <= k < |geometryCoordinates| ==> !HasEmptyArray(geometryCoordinates[k])) &&
            |AllVertices(geometryCoordinates)| > 0 ==>
              r.CenterZoom? && r.center == Some(Middle(GeoJson.BoundsOf(AllVertices(geometryCoordinates))))
  {
    var coordinateData := FlattenCoordinate(geometryCoordinates);
    r := GetMapCenterAndZoom(coordinateData);
  }

  /** JavaScript `s.slice(0, n)`. */
  function Take(s: string, n: nat): (r: string)
    ensures |r| == if |s| < n then |s| else n
    ensures r <= s
  {
    if |s| <= n then s else s[..n]
  }

  function Zeros(n: nat): (r: string)
    ensures |r| == n && forall k :: 0 <= k < n ==> r[k] == '0'
  {
    if n == 0 then "" else Zeros(n - 1) + "0"
  }

  /** How many leading adcode digits identify a region at each level; 0 means "no correction". */
  function AdcodeDigits(level: MapLevel): nat
  {
    match level
    case Province => 2
    case City => 4
    case County => 6
    case _ => 0
  }

  /** One slot of the correction: the level's prefix padded with zeros, or "" for an empty code. */
  function CorrectOne(code: string, bit: nat): (r: string)
    requires 0 < bit <= 6
    ensures code == "" ==> r == ""
    ensures code != "" ==> |r| == |Take(code, bit)| + 6 - bit && r[..|Take(code, bit)|] == Take(code, bit)
    ensures code != "" && |code| >= bit ==> |r| == 6 && r[..bit] == code[..bit]
    ensures forall k :: |Take(code, bit)| <= k < |r| ==> r[k] == '0'
  {
    if code == "" then "" else Take(code, bit) + Zeros(6 - bit)
  }

  /**
   * Start and end adcodes cut to the level's prefix length and padded with
   * "0" to six characters; World and Country give ["100000", ""] whatever the input.
   */
  function CorrectAdCodeByLevel(start: string, end: string, level: MapLevel): (r: seq<string>)
    ensures |r| == 2
    ensures AdcodeDigits(level) == 0 ==> r == ["100000", ""]
    ensures AdcodeDigits(level) > 0 ==> r == [CorrectOne(start, AdcodeDigits(level)), CorrectOne(end, AdcodeDigits(level))]
  {
    var bit := AdcodeDigits(level);
    if bit != 0 then [CorrectOne(start, bit), CorrectOne(end, bit)] else ["100000", ""]
  }

  /** Correcting an already corrected code at the same level changes nothing. */
  lemma CorrectionIdempotent(code: string, level: MapLevel)
    requires AdcodeDigits(level) > 0 && |code| >= AdcodeDigits(level)
    ensures var c := CorrectAdCodeByLevel(code, "", level)[0];
            CorrectAdCodeByLevel(c, "", level)[0] == c
  {
    var bit := AdcodeDigits(level);
    var c := CorrectOne(code, bit);
    assert Take(c, bit) == c[..bit];
    assert c == c[..bit] + Zeros(6 - bit);
  }

  /** Level number: World 0, Country 1, Province 2, City 3, County 4. */
  function MapLevelMatrix(level: MapLevel): (n: nat)
    ensures n <= 4
  {
    match level
    case Country => 1
    case Province => 2
    case City => 3
    case County => 4
    case World => 0
  }

  function LevelNumToLevel(n: int): (l: MapLevel)
    ensures (n < 1 || n > 4) ==> l == World
  {
    match n
    case 1 => Country
    case 2 => Province
    case 3 => City
    case 4 => County
    case _ => World
  }

  /** Numbering a level and reading the number back gives the level. */
  lemma LevelNumberRoundTrip(l: MapLevel)
    ensures LevelNumToLevel(MapLevelMatrix(l)) == l
  {
  }

  /** Reading a number in 0..4 and numbering the level gives the number back. */
  lemma LevelNumberRoundTripBack(n: int)
    requires 0 <= n <= 4
    ensures MapLevelMatrix(LevelNumToLevel(n)) == n
  {
  }

  /**
   * `toUpperCase` of one character, as far as it can produce ASCII letters:
   * 'a'..'z', the dotless i and the long s become one capital, the sharp s
   * and the Latin ligatures U+FB00..U+FB06 several. Every other character
   * is kept; its real upper case is never an ASCII letter either.
   */
  function UpperText(c: char): (r: string)
    ensures 1 <= |r| <= 3
  {
    if 'a' <= c <= 'z' then [(c as int - 32) as char]
    else if c == '\U{0131}' then "I"
    else if c == '\U{017F}' then "S"
    else if c == '\U{00DF}' then "SS"
    else if c == '\U{FB00}' then "FF"
    else if c == '\U{FB01}' then "FI"
    else if c == '\U{FB02}' then "FL"
    else if c == '\U{FB03}' then "FFI"
    else if c == '\U{FB04}' then "FFL"
    else if c == '\U{FB05}' || c == '\U{FB06}' then "ST"
    else [c]
  }

  function ToUpper(s: string): (r: string)
    ensures |r| >= |s|
  {
    if |s| == 0 then "" else UpperText(s[0]) + ToUpper(s[1..])
  }

  /** Upper-casing works character by character: the upper case of two texts joined is theirs joined. */
  lemma {:induction false} ToUpperAppend(a: string, b: string)
    ensures ToUpper(a + b) == ToUpper(a) + ToUpper(b)
  {
    if |a| > 0 {
      assert (a + b)[1..] == a[1..] + b;
      ToUpperAppend(a[1..], b);
    } else {
      assert a + b == b;
    }
  }

  /** What `UpperText` produces is left as it is by a second pass. */
  lemma UpperTextSettled(c: char)
    ensures forall k :: 0 <= k < |UpperText(c)| ==> UpperText(UpperText(c)[k]) == [UpperText(c)[k]]
  {
  }

  lemma {:induction false} ToUpperKeeps(u: string)
    requires forall k :: 0 <= k < |u| ==> UpperText(u[k]) == [u[k]]
    ensures ToUpper(u) == u
  {
    if |u| > 0 {
      assert forall k :: 0 <= k < |u| - 1 ==> u[1..][k] == u[k + 1];
      ToUpperKeeps(u[1..]);
    }
  }

  /** Upper-casing twice is upper-casing once. */
  lemma {:induction false} ToUpperIdempotent(s: string)
    ensures ToUpper(ToUpper(s)) == ToUpper(s)
  {
    if |s| > 0 {
      ToUpperIdempotent(s[1..]);
      ToUpperAppend(UpperText(s[0]), ToUpper(s[1..]));
      UpperTextSettled(s[0]);
      ToUpperKeeps(UpperText(s[0]));
    }
  }

  /**
   * Sort order of a device status, case-insensitively: ACTIVE and ONLINE
   * first (1), PENDING, SUSPENDED, OFFLINE, WARNING and ERROR next (2),
   * anything else 0.
   */
  function ConvertDeviceStatus2Order(status: string): (r: nat)
    ensures r <= 2
    ensures r == 1 <==> ToUpper(status) in {"ACTIVE", "ONLINE"}
    ensures r == 2 <==> ToUpper(status) in {"PENDING", "SUSPENDED", "OFFLINE", "WARNING", "ERROR"}
  {
    var normalized := ToUpper(status);
    if normalized == "ACTIVE" || normalized == "ONLINE" then 1
    else if normalized in {"PENDING", "SUSPENDED", "OFFLINE", "WARNING", "ERROR"} then 2
    else 0
  }

  /** Upper-casing twice is upper-casing once, so the order ignores case. */
  lemma DeviceStatusIgnoresCase(status: string)
    ensures ConvertDeviceStatus2Order(ToUpper(status)) == ConvertDeviceStatus2Order(status)
  {
    ToUpperIdempotent(status);
  }

  /** A ligature upper-cases into the letters it joins: "oﬄine" is an offline status. */
  lemma LigatureStatus()
    ensures ConvertDeviceStatus2Order("o\U{FB04}ine") == 2
  {
    assert ToUpper("o\U{FB04}ine") == "OFFLINE" by {
      assert "o\U{FB04}ine"[1..] == "\U{FB04}ine";
      assert "\U{FB04}ine"[1..] == "ine";
      assert "ine"[1..] == "ne";
      assert "ne"[1..] == "e";
      assert "e"[1..] == "";
    }
  }

  /** The single characters the suffix pattern removes wherever they occur. */
  predicate SuffixChar(c: char)
  {
    c in {'市', '省', '盟', '州', '县', '区'}
  }

  /**
   * `replace(/市|省|自治区|特别行政区|地区|盟|州|县|区/g, "")`: scanning left
   * to right, the first alternative that matches at a position is removed,
   * otherwise the character is kept.
   */
  function RemoveRegionSuffix(s: string): (r: string)
    ensures |r| <= |s|
    ensures forall k :: 0 <= k < |r| ==> !SuffixChar(r[k])
    decreases |s|
  {
    if |s| == 0 then ""
    else if SuffixChar(s[0]) then RemoveRegionSuffix(s[1..])
    else if |s| >= 3 && s[..3] == "自治区" then RemoveRegionSuffix(s[3..])
    else if |s| >= 5 && s[..5] == "特别行政区" then RemoveRegionSuffix(s[5..])
    else if |s| >= 2 && s[..2] == "地区" then RemoveRegionSuffix(s[2..])
    else [s[0]] + RemoveRegionSuffix(s[1..])
  }

  /** A string with none of the single suffix characters passes through unchanged. */
  lemma {:induction false} NoSuffixUnchanged(s: string)
    requires forall k :: 0 <= k < |s| ==> !SuffixChar(s[k])
    ensures RemoveRegionSuffix(s) == s
    decreases |s|
  {
    if |s| > 0 {
      if |s| >= 2 { assert s[..2][1] == s[1] && !SuffixChar(s[1]); }
      if |s| >= 3 { assert s[..3][2] == s[2] && !SuffixChar(s[2]); }
      if |s| >= 5 { assert s[..5][4] == s[4] && !SuffixChar(s[4]); }
      NoSuffixUnchanged(s[1..]);
    }
  }

  /** Stripping suffixes twice is the same as stripping them once. */
  lemma RemoveRegionSuffixIdempotent(s: string)
    ensures RemoveRegionSuffix(RemoveRegionSuffix(s)) == RemoveRegionSuffix(s)
  {
    NoSuffixUnchanged(RemoveRegionSuffix(s));
  }
}
