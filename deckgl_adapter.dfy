// The deck.gl renderer adapter: colour-string parsing, the FeatureCollection
// normaliser, the point and line converters and `destroy`
// (packages/core/src/adapters/DeckglMapAdapter.ts). The canvas, the Deck
// itself and the state-manager subscription are left out; the adapter's
// map is reduced to whether one is attached.
module DeckglAdapter {
  import opened Wrappers
  import opened GeoTypes
  import opened MapTypes
  import opened JsMath
  import CU = CommonUtils

  /** A colour channel as JavaScript holds it: a number, NaN, or `undefined` from a missing array element. */
  datatype Channel = Num(n: int) | NaN | Undefined

  /** The four channels `parseColor` returns. */
  datatype Color = Color(r: Channel, g: Channel, b: Channel, a: Channel)

  const White: Color := Color(Num(255), Num(255), Num(255), Num(255))

  predicate StartsWith(s: string, prefix: string)
  {
    |prefix| <= |s| && s[..|prefix|] == prefix
  }

  function OfParsed(v: Option<int>): (c: Channel)
    ensures v.Some? <==> c.Num?
  {
    if v.Some? then Num(v.value) else NaN
  }

  /** The length of the run of decimal digits at the start of `s`. */
  function DigitRun(s: string): (n: nat)
    ensures n <= |s|
    ensures forall k :: 0 <= k < n ==> IsDigit(s[k])
    ensures n < |s| ==> !IsDigit(s[n])
  {
    if |s| > 0 && IsDigit(s[0]) then 1 + DigitRun(s[1..]) else 0
  }

  /** `s.match(/\d+/g)`: every maximal run of decimal digits, left to right. */
  function DigitRuns(s: string): (r: seq<string>)
    ensures forall k :: 0 <= k < |r| ==> |r[k]| > 0 && forall j :: 0 <= j < |r[k]| ==> IsDigit(r[k][j])
    ensures (forall k :: 0 <= k < |s| ==> !IsDigit(s[k])) ==> r == []
    decreases |s|
  {
    if |s| == 0 then []
    else if IsDigit(s[0]) then
      var n := DigitRun(s);
      [s[..n]] + DigitRuns(s[n..])
    else DigitRuns(s[1..])
  }

  /** `Number` of a string of decimal digits. */
  function DecimalValue(s: string): nat
    requires forall k :: 0 <= k < |s| ==> IsDigit(s[k])
  {
    if |s| == 0 then 0
    else
      assert IsDigit(s[|s| - 1]);
      10 * DecimalValue(s[..|s| - 1]) + (s[|s| - 1] as int - '0' as int)
  }

  /** Element `k` of `runs.map(Number)`, `undefined` past the end. */
  function RunAt(runs: seq<string>, k: nat): Channel
    requires forall i :: 0 <= i < |runs| ==> forall j :: 0 <= j < |runs[i]| ==> IsDigit(runs[i][j])
  {
    if k < |runs| then Num(DecimalValue(runs[k])) else Undefined
  }

  /**
   * `parseColor`: no colour or "" is opaque white; `#` takes red, green and
   * blue from hex pairs and alpha from a fourth pair only when exactly eight
   * digits follow; `rgb…` takes the first digit runs, alpha defaulting to
   * 255; anything else, or an `rgb…` string without digits, is white.
   */
  function ParseColor(color: Option<string>): (c: Color)
    ensures color.None? || color == Some("") ==> c == White
    ensures color.Some? && !StartsWith(color.value, "#") && !StartsWith(color.value, "rgb") ==> c == White
  {
    if color.None? || color.value == "" then White
    else
      var s := color.value;
      if StartsWith(s, "#") then
        var hex := s[1..];
        Color(OfParsed(CU.ParseIntHex(CU.Slice(hex, 0, 2))), OfParsed(CU.ParseIntHex(CU.Slice(hex, 2, 4))),
              OfParsed(CU.ParseIntHex(CU.Slice(hex, 4, 6))),
              if |hex| == 8 then OfParsed(CU.ParseIntHex(CU.Slice(hex, 6, 8))) else Num(255))
      else if StartsWith(s, "rgb") then
        var runs := DigitRuns(s);
        if |runs| == 0 then White
        else
          Color(RunAt(runs, 0), RunAt(runs, 1), RunAt(runs, 2), if |runs| > 3 then RunAt(runs, 3) else Num(255))
      else White
  }

  /** Two hex digits and their value. */
  function HexPair(v: nat): (s: string)
    requires v < 256
    ensures |s| == 2
  {
    [CU.HexDigit(v / 16), CU.HexDigit(v % 16)]
  }

  lemma HexPairParses(v: nat, rest: string)
    requires v < 256
    requires |rest| == 0 || CU.HexValue(rest[0]).None?
    ensures CU.ParseIntHex(HexPair(v) + rest) == Some(v)
  {
    var s := HexPair(v) + rest;
    CU.HexValueOfDigit(v / 16);
    CU.HexValueOfDigit(v % 16);
    CU.ParseIntHexPlain(s);
    assert CU.HexRun(s[2..]) == 0 by { assert s[2..] == rest; }
    assert CU.HexRun(s[1..]) == 1;
    assert s[..2] == HexPair(v);
    CU.HexNumberTwo(s[0], s[1]);
  }

  /** `#rrggbb` gives those three channels and alpha 255. */
  lemma ParseSixDigitHex(r: nat, g: nat, b: nat)
    requires r < 256 && g < 256 && b < 256
    ensures ParseColor(Some("#" + HexPair(r) + HexPair(g) + HexPair(b))) == Color(Num(r), Num(g), Num(b), Num(255))
  {
    var s := "#" + HexPair(r) + HexPair(g) + HexPair(b);
    var hex := s[1..];
    assert StartsWith(s, "#");
    assert CU.Slice(hex, 0, 2) == HexPair(r) + [];
    assert CU.Slice(hex, 2, 4) == HexPair(g) + [];
    assert CU.Slice(hex, 4, 6) == HexPair(b) + [];
    HexPairParses(r, []);
    HexPairParses(g, []);
    HexPairParses(b, []);
  }

  /** `#rrggbbaa` takes its alpha from the last pair. */
  lemma ParseEightDigitHex(r: nat, g: nat, b: nat, a: nat)
    requires r < 256 && g < 256 && b < 256 && a < 256
    ensures ParseColor(Some("#" + HexPair(r) + HexPair(g) + HexPair(b) + HexPair(a))) == Color(Num(r), Num(g), Num(b), Num(a))
  {
    var s := "#" + HexPair(r) + HexPair(g) + HexPair(b) + HexPair(a);
    var hex := s[1..];
    assert StartsWith(s, "#");
    assert |hex| == 8;
    assert CU.Slice(hex, 0, 2) == HexPair(r) + [];
    assert CU.Slice(hex, 2, 4) == HexPair(g) + [];
    assert CU.Slice(hex, 4, 6) == HexPair(b) + [];
    assert CU.Slice(hex, 6, 8) == HexPair(a) + [];
    HexPairParses(r, []);
    HexPairParses(g, []);
    HexPairParses(b, []);
    HexPairParses(a, []);
  }

  /** An `rgb…` string with at least one digit run reads its channels from the runs, alpha 255 unless a fourth run exists. */
  lemma ParseRgbRuns(s: string)
    requires StartsWith(s, "rgb")
    ensures var runs := DigitRuns(s);
            |runs| > 0 ==> ParseColor(Some(s)) == Color(RunAt(runs, 0), RunAt(runs, 1), RunAt(runs, 2),
                                                        if |runs| > 3 then RunAt(runs, 3) else Num(255))
    ensures |DigitRuns(s)| == 0 ==> ParseColor(Some(s)) == White
  {
    assert !StartsWith(s, "#") by { assert s[0] == 'r'; }
  }

  /** An input that may or may not already be a FeatureCollection: its `type` and its `features`, when present. */
  datatype GeoInput = GeoInput(kind: Option<string>, features: Option<seq<Feature>>)

  /**
   * `normalizeToFeatureCollection`: a FeatureCollection is returned as it
   * is; anything else is wrapped as one around its `features`, or none.
   */
  function Normalize(d: GeoInput): (r: GeoInput)
    ensures r.kind == Some("FeatureCollection")
    ensures d.kind == Some("FeatureCollection") ==> r == d
    ensures d.kind != Some("FeatureCollection") ==> r.features == Some(d.features.GetOr([]))
  {
    if d.kind == Some("FeatureCollection") then d
    else GeoInput(Some("FeatureCollection"), Some(d.features.GetOr([])))
  }

  lemma NormalizeIdempotent(d: GeoInput)
    ensures Normalize(Normalize(d)) == Normalize(d)
  {
  }

  /** A point as the adapter receives it: the map point and the `style.color` string it may carry. */
  datatype AdapterPoint = AdapterPoint(point: MapPoint, styleColor: Option<string>)

  /** A point as the adapter hands it to the deck.gl map. */
  datatype DeckPoint = DeckPoint(id: string, coordinate: Pt, icon: string, color: Color, size: Option<real>)

  /** `point.icon || 'star'`. */
  function IconOrStar(icon: Option<string>): (r: string)
    ensures icon.Some? && icon.value != "" ==> r == icon.value
    ensures icon.None? || icon == Some("") ==> r == "star"
  {
    if icon.Some? && icon.value != "" then icon.value else "star"
  }

  function ConvertPoint(p: AdapterPoint): DeckPoint
  {
    DeckPoint(p.point.id, p.point.coordinate, IconOrStar(p.point.icon), ParseColor(p.styleColor), p.point.size)
  }

  /**
   * `convertPointsForDeckGL`: one converted point per input point, in order,
   * keeping id, coordinate and size, with the icon defaulting to the star
   * and the colour parsed from `style.color`.
   */
  function ConvertPoints(points: seq<AdapterPoint>): (r: seq<DeckPoint>)
    ensures |r| == |points|
    ensures forall k :: 0 <= k < |points| ==>
              r[k].id == points[k].point.id && r[k].coordinate == points[k].point.coordinate
              && r[k].size == points[k].point.size && r[k].icon == IconOrStar(points[k].point.icon)
              && r[k].color == ParseColor(points[k].styleColor)
  {
    seq(|points|, k requires 0 <= k < |points| => ConvertPoint(points[k]))
  }

  /** A line as the adapter receives it: its `from` and `to` ends, when present, and its colour array. */
  datatype AdapterLine = AdapterLine(id: string, from: Option<Pt>, to: Option<Pt>, color: Option<seq<int>>, width: Option<real>)

  datatype DeckLine = DeckLine(id: string, from: Pt, to: Pt, color: Color, width: real)

  /** `line.width || 2`. */
  function WidthOrTwo(w: Option<real>): (r: real)
    ensures w.Some? && w.value != 0.0 ==> r == w.value
    ensures w.None? || w == Some(0.0) ==> r == 2.0
  {
    if w.Some? && w.value != 0.0 then w.value else 2.0
  }

  /**
   * One line as written: a missing end is indexed and throws; the colour is
   * the array's text parsed as a colour string.
   */
  function ConvertLineAsWritten(l: AdapterLine): Result<DeckLine>
  {
    if l.from.None? || l.to.None? then Err("TypeError: Cannot read properties of undefined (reading '0')")
    else
      Ok(DeckLine(l.id, l.from.value, l.to.value,
                  ParseColor(if l.color.Some? then Some(ArrayText(l.color.value)) else None), WidthOrTwo(l.width)))
  }

  /** The text of a colour array never starts with `#` or `rgb`, so every line comes out white. */
  lemma LineColorAlwaysWhite(l: AdapterLine)
    requires ConvertLineAsWritten(l).Ok?
    ensures ConvertLineAsWritten(l).value.color == White
  {
    if l.color.Some? && |l.color.value| > 0 {
      NumberTextIsWhite(ArrayText(l.color.value));
    }
  }

  /** Text that starts like a number is neither `#...` nor `rgb...`. */
  lemma NumberTextIsWhite(s: string)
    requires |s| > 0 && (s[0] == '-' || IsDigit(s[0]))
    ensures ParseColor(Some(s)) == White
  {
    assert s[..1][0] == s[0];
    if |s| >= 3 {
      assert s[..3][0] == s[0];
    }
  }

  /** The colour a line evidently should get: its own RGBA array when it has four channels, white otherwise. */
  function LineColor(color: Option<seq<int>>): (c: Color)
    ensures color.Some? && |color.value| == 4 ==>
              c == Color(Num(color.value[0]), Num(color.value[1]), Num(color.value[2]), Num(color.value[3]))
    ensures color.None? ==> c == White
  {
    if color.Some? && |color.value| == 4 then
      Color(Num(color.value[0]), Num(color.value[1]), Num(color.value[2]), Num(color.value[3]))
    else White
  }

  /** One line with its colour kept. */
  function ConvertLine(l: AdapterLine): (r: Result<DeckLine>)
    ensures r.Ok? <==> l.from.Some? && l.to.Some?
    ensures r.Ok? ==> r.value.id == l.id && r.value.from == l.from.value && r.value.to == l.to.value
                      && r.value.color == LineColor(l.color) && r.value.width == WidthOrTwo(l.width)
  {
    if l.from.None? || l.to.None? then Err("TypeError: Cannot read properties of undefined (reading '0')")
    else Ok(DeckLine(l.id, l.from.value, l.to.value, LineColor(l.color), WidthOrTwo(l.width)))
  }

  /** A red line keeps its colour under the corrected conversion and loses it as written. */
  lemma RedLineExample()
    ensures var l := AdapterLine("l", Some(Pt(0.0, 0.0)), Some(Pt(1.0, 1.0)), Some([255, 0, 0, 255]), None);
            ConvertLine(l).value.color == Color(Num(255), Num(0), Num(0), Num(255))
            && ConvertLineAsWritten(l).value.color == White
  {
    var l := AdapterLine("l", Some(Pt(0.0, 0.0)), Some(Pt(1.0, 1.0)), Some([255, 0, 0, 255]), None);
    LineColorAlwaysWhite(l);
  }

  /**
   * `convertLinesForDeckGL`: the first line missing an end throws;
   * otherwise one converted line per input line, in order.
   */
  function ConvertLines(lines: seq<AdapterLine>): (r: Result<seq<DeckLine>>)
    ensures r.Ok? <==> forall k :: 0 <= k < |lines| ==> ConvertLine(lines[k]).Ok?
    ensures r.Ok? ==> |r.value| == |lines| && forall k :: 0 <= k < |lines| ==> r.value[k] == ConvertLine(lines[k]).value
  {
    if |lines| == 0 then Ok([])
    else
      var head := ConvertLine(lines[0]);
      if head.Err? then Err(head.message)
      else
        var tail := ConvertLines(lines[1..]);
        if tail.Err? then
          assert forall k :: 1 <= k < |lines| ==> lines[k] == lines[1..][k - 1];
          Err(tail.message)
        else
          assert forall k :: 1 <= k < |lines| ==> lines[k] == lines[1..][k - 1];
          Ok([head.value] + tail.value)
  }

  /** The adapter's hold on its deck.gl map. */
  class DeckglMapAdapter {
    var hasGlMap: bool
    var glMapDestroyed: nat
    var containerCleared: bool

    constructor ()
      ensures hasGlMap && glMapDestroyed == 0 && !containerCleared
    {
      hasGlMap := true;
      glMapDestroyed := 0;
      containerCleared := false;
    }

    /** `destroy`: with no map nothing happens; otherwise the map is destroyed once, dropped, and the container emptied. */
    method Destroy()
      modifies this
      ensures !hasGlMap
      ensures old(hasGlMap) ==> glMapDestroyed == old(glMapDestroyed) + 1 && containerCleared
      ensures !old(hasGlMap) ==> glMapDestroyed == old(glMapDestroyed) && containerCleared == old(containerCleared)
    {
      if !hasGlMap {
        return;
      }
      glMapDestroyed := glMapDestroyed + 1;
      hasGlMap := false;
      containerCleared := true;
    }

    function GetType(): (t: RendererType)
      ensures RendererName(t) == "deckgl"
    {
      DeckGL
    }
  }
}
