// Flat-map flow lines: quadratic Bezier curves between the two ends of a
// line, and the trail of dots that moves along each curve
// (packages/core/src/deckgl/line2d.ts). The layers built from this data
// are rendering objects and are not modelled; the data is.
module Line2D {
  import opened Wrappers
  import opened GeoTypes
  import opened MapTypes
  import opened JsMath
  import opened CurvatureCalc

  /** Colour of a curve whose line has none. */
  const DefaultLineRgba: seq<int> := [170, 170, 170, 90]
  /** Colour of a dot whose line has none. */
  const DefaultDotRgb: seq<int> := [255, 255, 255]
  /** The number of segments each full curve is sampled with. */
  const FullCurveSegments: int := 64
  /** The width of every full curve. */
  const FullCurveWidth: real := 0.3

  /** `Math.hypot(dx, dy) || 1`: the length of the chord, 1 when it is 0. */
  function ChordLength(start: Pt, end: Pt, hypot: (real, real) -> real): (l: real)
    ensures l != 0.0
  {
    var h := hypot(end.x - start.x, end.y - start.y);
    if h == 0.0 then 1.0 else h
  }

  /** The control point: the midpoint plus the unit normal scaled by `curvature * 0.3 * length`. */
  function ControlPoint(start: Pt, end: Pt, curvature: real, length: real): Pt
    requires length != 0.0
  {
    var nx := -(end.y - start.y) / length;
    var ny := (end.x - start.x) / length;
    var offset := curvature * 0.3 * length;
    Pt((start.x + end.x) / 2.0 + nx * offset, (start.y + end.y) / 2.0 + ny * offset)
  }

  lemma UnitTimesLength(d: real, c: real, length: real)
    requires length != 0.0
    ensures (d / length) * (c * 0.3 * length) == 0.3 * c * d
  {
    var u := d / length;
    assert u * length == d;
    assert u * (c * 0.3 * length) == (u * length) * (c * 0.3);
  }

  /**
   * The length cancels out: the control point is the midpoint moved by
   * `0.3 * curvature` times the chord turned a quarter anticlockwise, so
   * coincident ends put it on the ends themselves.
   */
  lemma ControlPointOffset(start: Pt, end: Pt, curvature: real, length: real)
    requires length != 0.0
    ensures ControlPoint(start, end, curvature, length) ==
      Pt((start.x + end.x) / 2.0 - 0.3 * curvature * (end.y - start.y),
         (start.y + end.y) / 2.0 + 0.3 * curvature * (end.x - start.x))
    ensures start == end ==> ControlPoint(start, end, curvature, length) == start
  {
    UnitTimesLength(-(end.y - start.y), curvature, length);
    UnitTimesLength(end.x - start.x, curvature, length);
    assert -(end.y - start.y) / length == (-(end.y - start.y)) / length;
  }

  /** The quadratic Bezier point `(1-t)^2 s + 2(1-t)t c + t^2 e`. */
  function BezierAt(s: Pt, c: Pt, e: Pt, t: real): Pt
  {
    var u := 1.0 - t;
    Pt(u * u * s.x + 2.0 * u * t * c.x + t * t * e.x, u * u * s.y + 2.0 * u * t * c.y + t * t * e.y)
  }

  /** The curve starts at `s` and ends at `e`, wherever the control point is. */
  lemma BezierEnds(s: Pt, c: Pt, e: Pt)
    ensures BezierAt(s, c, e, 0.0) == s
    ensures BezierAt(s, c, e, 1.0) == e
  {
  }

  /** The sample points `B(i / segments)` for `i = 0..segments`, none for a negative count. */
  function BezierPath(start: Pt, end: Pt, curvature: real, segments: int, hypot: (real, real) -> real): seq<Pt>
    requires segments != 0
  {
    var c := ControlPoint(start, end, curvature, ChordLength(start, end, hypot));
    seq(if segments < 0 then 0 else segments + 1, i => BezierAt(start, c, end, i as real / segments as real))
  }

  /** A positive number of segments gives segments + 1 points, from the start exactly to the end. */
  lemma BezierPathShape(start: Pt, end: Pt, curvature: real, segments: int, hypot: (real, real) -> real)
    requires segments > 0
    ensures var p := BezierPath(start, end, curvature, segments, hypot);
            |p| == segments + 1 && p[0] == start && p[segments] == end
  {
    var c := ControlPoint(start, end, curvature, ChordLength(start, end, hypot));
    var p := BezierPath(start, end, curvature, segments, hypot);
    assert p[0] == BezierAt(start, c, end, 0.0);
    DivideBySelf(segments as real);
    assert p[segments] == BezierAt(start, c, end, 1.0);
    BezierEnds(start, c, end);
  }

  lemma DivideBySelf(x: real)
    requires x != 0.0
    ensures x / x == 1.0
  {
  }

  /** Samples the curve between two points. */
  method BuildQuadraticBezierPath(start: Pt, end: Pt, curvature: real, segments: int, hypot: (real, real) -> real)
    returns (path: seq<Pt>)
    requires segments != 0
    ensures path == BezierPath(start, end, curvature, segments, hypot)
  {
    var length := ChordLength(start, end, hypot);
    var c := ControlPoint(start, end, curvature, length);
    path := [];
    var i := 0;
    while i <= segments
      invariant 0 <= i && (segments >= 0 ==> i <= segments + 1)
      invariant segments < 0 ==> i == 0
      invariant |path| == i
      invariant forall k :: 0 <= k < i ==> path[k] == BezierAt(start, c, end, k as real / segments as real)
    {
      var t := i as real / segments as real;
      path := path + [BezierAt(start, c, end, t)];
      i := i + 1;
    }
  }

  /** One resident curve: its sample points, colour and width. */
  datatype FullPath = FullPath(path: seq<Pt>, color: seq<int>, width: real)

  /** The resident curve of a line with the given curvature. */
  function FullPathOf(line: MapLine, curvature: real, hypot: (real, real) -> real): FullPath
  {
    FullPath(BezierPath(line.start, line.end, curvature, FullCurveSegments, hypot),
             line.color.GetOr(DefaultLineRgba), FullCurveWidth)
  }

  /** The resident curves of the lines, in order, each with its curvature. */
  function FullPaths(lines: seq<MapLine>, curvatures: seq<real>, hypot: (real, real) -> real): (r: seq<FullPath>)
    requires |curvatures| == |lines|
  {
    if |lines| == 0 then []
    else FullPaths(lines[..|lines| - 1], curvatures[..|lines| - 1], hypot)
         + [FullPathOf(lines[|lines| - 1], curvatures[|lines| - 1], hypot)]
  }

  /** One resident curve per line, the k-th drawn from line k with curvature k. */
  lemma {:induction false} FullPathsAt(lines: seq<MapLine>, curvatures: seq<real>, hypot: (real, real) -> real)
    requires |curvatures| == |lines|
    ensures |FullPaths(lines, curvatures, hypot)| == |lines|
    ensures forall k :: 0 <= k < |lines| ==>
              FullPaths(lines, curvatures, hypot)[k] == FullPathOf(lines[k], curvatures[k], hypot)
  {
    if |lines| > 0 {
      var n := |lines| - 1;
      FullPathsAt(lines[..n], curvatures[..n], hypot);
    }
  }

  /** The curvature memo after computing each line's curvature in order, with the derived range. */
  function MemoAfter(memo: map<string, real>, lines: seq<MapLine>): map<string, real>
  {
    if |lines| == 0 then memo
    else
      var last := lines[|lines| - 1];
      var range := CalculateCurvatureRange(last.start, last.end);
      Curvature(MemoAfter(memo, lines[..|lines| - 1]), last.id, range.min, range.max).memo
  }

  /** After drawing, every line's id has a curvature and the earlier entries keep theirs. */
  lemma {:induction false} MemoAfterCovers(memo: map<string, real>, lines: seq<MapLine>)
    ensures forall k :: 0 <= k < |lines| ==> lines[k].id in MemoAfter(memo, lines)
    ensures forall key :: key in memo ==> key in MemoAfter(memo, lines) && MemoAfter(memo, lines)[key] == memo[key]
  {
    if |lines| > 0 {
      var front := lines[..|lines| - 1];
      MemoAfterCovers(memo, front);
      assert forall k :: 0 <= k < |front| ==> front[k] == lines[k];
    }
  }

  /** The curvature each line was drawn with, read back from the memo. */
  function CurvaturesOf(lines: seq<MapLine>, memo: map<string, real>): (r: seq<real>)
    requires forall k :: 0 <= k < |lines| ==> lines[k].id in memo
    ensures |r| == |lines|
  {
    seq(|lines|, k requires 0 <= k < |lines| => memo[lines[k].id])
  }

  /** `cs` holds the memoised curvature of each line, in order. */
  ghost predicate Recorded(memo: map<string, real>, lines: seq<MapLine>, cs: seq<real>)
  {
    |cs| == |lines| && forall k :: 0 <= k < |lines| ==> lines[k].id in memo && memo[lines[k].id] == cs[k]
  }

  /** Memoising one more line keeps the earlier curvatures and records the new one. */
  lemma RecordedSnoc(memo0: map<string, real>, memo1: map<string, real>, lines: seq<MapLine>, cs: seq<real>, line: MapLine, c: real)
    requires Recorded(memo0, lines, cs)
    requires var range := CalculateCurvatureRange(line.start, line.end);
             Memoised(c, memo1) == Curvature(memo0, line.id, range.min, range.max)
    ensures Recorded(memo1, lines + [line], cs + [c])
  {
    forall k | 0 <= k < |lines| + 1
      ensures (lines + [line])[k].id in memo1 && memo1[(lines + [line])[k].id] == (cs + [c])[k]
    {
      if k < |lines| {
        assert (lines + [line])[k] == lines[k];
      }
    }
  }

  lemma RecordedCurvatures(memo: map<string, real>, lines: seq<MapLine>, cs: seq<real>)
    requires Recorded(memo, lines, cs)
    ensures forall k :: 0 <= k < |lines| ==> lines[k].id in memo
    ensures cs == CurvaturesOf(lines, memo)
  {
  }

  /** The options of the dot trail, each of which may be absent. */
  datatype TrailOptions = TrailOptions(dotsPerLine: Option<int>, headRadius: Option<real>, tailRadius: Option<real>,
                                       headAlpha: Option<real>, tailAlpha: Option<real>, trailSpan: Option<real>)

  /** The options in force once the defaults are filled in. */
  datatype Trail = Trail(dotsPerLine: int, headRadius: real, tailRadius: real,
                         headAlpha: real, tailAlpha: real, trailSpan: real)

  /** Absent options take 12 dots, radii 1 and 0.5, alphas 255 and 60, and a span of 0.01. */
  function ResolveTrail(o: Option<TrailOptions>): (t: Trail)
    ensures o.None? ==> t == Trail(12, 1.0, 0.5, 255.0, 60.0, 0.01)
    ensures o.Some? && o.value.dotsPerLine.Some? ==> t.dotsPerLine == o.value.dotsPerLine.value
  {
    match o
    case None => Trail(12, 1.0, 0.5, 255.0, 60.0, 0.01)
    case Some(p) =>
      Trail(p.dotsPerLine.GetOr(12), p.headRadius.GetOr(1.0), p.tailRadius.GetOr(0.5),
            p.headAlpha.GetOr(255.0), p.tailAlpha.GetOr(60.0), p.trailSpan.GetOr(0.01))
  }

  /** One dot of a trail. */
  datatype DotPoint = DotPoint(position: Pt, color: seq<int>, radius: int)

  /** `Math.max(1, dotsPerLine - 1)`: the spacing divisor. */
  function Gap(dotsPerLine: int): (g: int)
    ensures g >= 1
  {
    if dotsPerLine - 1 > 1 then dotsPerLine - 1 else 1
  }

  /** The weight of dot `j`: 1 at the head, falling linearly toward 0 at the tail. */
  function Weight(trail: Trail, j: int): real
  {
    1.0 - j as real / Gap(trail.dotsPerLine) as real
  }

  /** The parameter distance between neighbouring dots: `trailSpan / max(1, dotsPerLine - 1)`. */
  function Step(trail: Trail): real
  {
    trail.trailSpan / Gap(trail.dotsPerLine) as real
  }

  /** The unwrapped parameter of dot `j`, `progress - j * step`. */
  function RawParameter(progress: real, trail: Trail, j: int): real
  {
    progress - j as real * Step(trail)
  }

  /** The curve parameter of dot `j`: the raw parameter wrapped by `((x % 1) + 1) % 1`. */
  function DotParameter(progress: real, trail: Trail, j: int): real
  {
    WrapUnit(RawParameter(progress, trail, j))
  }

  /** Every dot parameter is the fractional part of the raw one, so it lies in [0, 1). */
  lemma DotParameterInUnit(progress: real, trail: Trail, j: int)
    ensures 0.0 <= DotParameter(progress, trail, j) < 1.0
    ensures DotParameter(progress, trail, j) == RawParameter(progress, trail, j) - RawParameter(progress, trail, j).Floor as real
  {
    WrapUnitIsFraction(RawParameter(progress, trail, j));
  }

  /** The radius of dot `j`: `round(tail + (head - tail) * w)`. */
  function RadiusAt(trail: Trail, w: real): int
  {
    Round(trail.tailRadius + (trail.headRadius - trail.tailRadius) * w)
  }

  /** The alpha of dot `j`: `round(tailAlpha + (headAlpha - tailAlpha) * w^1.5)`. */
  function AlphaAt(trail: Trail, w: real, pow: (real, real) -> real): int
  {
    Round(trail.tailAlpha + (trail.headAlpha - trail.tailAlpha) * pow(w, 1.5))
  }

  /** Component `k` of a colour array, 255 where the array has no entry. */
  function ComponentOr255(c: seq<int>, k: nat): int
  {
    if k < |c| then c[k] else 255
  }

  /** The RGB a line's dots are drawn in: its own first three components, each defaulting to 255. */
  function BaseRgb(color: Option<seq<int>>): (rgb: seq<int>)
    ensures |rgb| == 3
    ensures forall k :: 0 <= k < 3 ==> rgb[k] == (if color.Some? && k < |color.value| then color.value[k] else 255)
  {
    match color
    case None => DefaultDotRgb
    case Some(c) => [ComponentOr255(c, 0), ComponentOr255(c, 1), ComponentOr255(c, 2)]
  }

  /** Dot `j` of a line drawn with `curvature`. */
  function DotAt(line: MapLine, curvature: real, progress: real, trail: Trail, j: int,
                 hypot: (real, real) -> real, pow: (real, real) -> real): DotPoint
  {
    var c := ControlPoint(line.start, line.end, curvature, ChordLength(line.start, line.end, hypot));
    var w := Weight(trail, j);
    DotPoint(BezierAt(line.start, c, line.end, DotParameter(progress, trail, j)),
             BaseRgb(line.color) + [AlphaAt(trail, w, pow)], RadiusAt(trail, w))
  }

  /** The number of dots per line the loop produces: `dotsPerLine`, none when it is not positive. */
  function DotCount(trail: Trail): nat
  {
    if trail.dotsPerLine < 0 then 0 else trail.dotsPerLine
  }

  /** The dots of one line, head first. */
  function LineDots(line: MapLine, curvature: real, progress: real, trail: Trail,
                    hypot: (real, real) -> real, pow: (real, real) -> real): (r: seq<DotPoint>)
    ensures |r| == DotCount(trail)
  {
    seq(DotCount(trail), j => DotAt(line, curvature, progress, trail, j, hypot, pow))
  }

  /** The dots of all lines, line after line. */
  function AllDots(lines: seq<MapLine>, curvatures: seq<real>, progress: real, trail: Trail,
                   hypot: (real, real) -> real, pow: (real, real) -> real): (r: seq<DotPoint>)
    requires |curvatures| == |lines|
  {
    if |lines| == 0 then []
    else AllDots(lines[..|lines| - 1], curvatures[..|lines| - 1], progress, trail, hypot, pow)
         + LineDots(lines[|lines| - 1], curvatures[|lines| - 1], progress, trail, hypot, pow)
  }

  /** Where dot `j` of line `i` sits when every line has `d` dots. */
  function DotIndex(i: int, j: int, d: int): int
  {
    i * d + j
  }

  lemma DotIndexBelow(i: int, j: int, d: int, n: int)
    requires 0 <= i < n && 0 <= j < d
    ensures 0 <= DotIndex(i, j, d) < n * d
  {
    assert (n - (i + 1)) * d >= 0;
    assert n * d == (i + 1) * d + (n - (i + 1)) * d;
  }

  /** The trail has exactly `dotsPerLine` dots per line. */
  lemma {:induction false} AllDotsCount(lines: seq<MapLine>, curvatures: seq<real>, progress: real, trail: Trail,
                                        hypot: (real, real) -> real, pow: (real, real) -> real)
    requires |curvatures| == |lines|
    ensures |AllDots(lines, curvatures, progress, trail, hypot, pow)| == |lines| * DotCount(trail)
  {
    if |lines| > 0 {
      var n := |lines| - 1;
      var d := DotCount(trail);
      AllDotsCount(lines[..n], curvatures[..n], progress, trail, hypot, pow);
      assert |AllDots(lines, curvatures, progress, trail, hypot, pow)|
             == |AllDots(lines[..n], curvatures[..n], progress, trail, hypot, pow)| + d;
      MulSucc(n, d);
    }
  }

  lemma MulSucc(n: nat, d: nat)
    ensures (n + 1) * d == n * d + d
  {
  }

  /** The dots are in line-major order: dot `j` of line `i` sits at index `i * dotsPerLine + j`. */
  lemma {:induction false} AllDotsLayout(lines: seq<MapLine>, curvatures: seq<real>, progress: real, trail: Trail,
                                         hypot: (real, real) -> real, pow: (real, real) -> real)
    requires |curvatures| == |lines|
    ensures forall i, j :: 0 <= i < |lines| && 0 <= j < DotCount(trail) ==>
              0 <= DotIndex(i, j, DotCount(trail)) < |AllDots(lines, curvatures, progress, trail, hypot, pow)| &&
              AllDots(lines, curvatures, progress, trail, hypot, pow)[DotIndex(i, j, DotCount(trail))] ==
              DotAt(lines[i], curvatures[i], progress, trail, j, hypot, pow)
  {
    AllDotsCount(lines, curvatures, progress, trail, hypot, pow);
    if |lines| > 0 {
      var n := |lines| - 1;
      var d := DotCount(trail);
      AllDotsLayout(lines[..n], curvatures[..n], progress, trail, hypot, pow);
      AllDotsCount(lines[..n], curvatures[..n], progress, trail, hypot, pow);
      var front := AllDots(lines[..n], curvatures[..n], progress, trail, hypot, pow);
      var all := AllDots(lines, curvatures, progress, trail, hypot, pow);
      var last := LineDots(lines[n], curvatures[n], progress, trail, hypot, pow);
      assert all == front + last;
      forall i, j | 0 <= i < |lines| && 0 <= j < d
        ensures 0 <= DotIndex(i, j, d) < |all|
        ensures all[DotIndex(i, j, d)] == DotAt(lines[i], curvatures[i], progress, trail, j, hypot, pow)
      {
        DotIndexBelow(i, j, d, n + 1);
        if i < n {
          DotIndexBelow(i, j, d, n);
          assert all[DotIndex(i, j, d)] == front[DotIndex(i, j, d)];
          assert lines[..n][i] == lines[i] && curvatures[..n][i] == curvatures[i];
        } else {
          assert DotIndex(i, j, d) == |front| + j;
          assert all[DotIndex(i, j, d)] == last[j];
        }
      }
    }
  }

  /**
   * The weight runs from 1 at the head to 0 at the last dot, so the head's
   * radius is `round(headRadius)` and, with two or more dots, the last
   * one's is `round(tailRadius)`.
   */
  lemma RadiusEnds(line: MapLine, curvature: real, progress: real, trail: Trail,
                   hypot: (real, real) -> real, pow: (real, real) -> real)
    ensures Weight(trail, 0) == 1.0
    ensures DotAt(line, curvature, progress, trail, 0, hypot, pow).radius == Round(trail.headRadius)
    ensures trail.dotsPerLine >= 2 ==> Weight(trail, trail.dotsPerLine - 1) == 0.0
    ensures trail.dotsPerLine >= 2 ==>
      DotAt(line, curvature, progress, trail, trail.dotsPerLine - 1, hypot, pow).radius == Round(trail.tailRadius)
  {
    assert Weight(trail, 0) == 1.0;
    assert RadiusAt(trail, 1.0) == Round(trail.headRadius);
    if trail.dotsPerLine >= 2 {
      var g := Gap(trail.dotsPerLine);
      assert g == trail.dotsPerLine - 1;
      DivideBySelf(g as real);
      assert Weight(trail, trail.dotsPerLine - 1) == 0.0;
      assert RadiusAt(trail, 0.0) == Round(trail.tailRadius);
    }
  }

  /** A dot's colour is the line's RGB, each component defaulting to 255, then the computed alpha. */
  lemma DotColor(line: MapLine, curvature: real, progress: real, trail: Trail, j: int,
                 hypot: (real, real) -> real, pow: (real, real) -> real)
    ensures var c := DotAt(line, curvature, progress, trail, j, hypot, pow).color;
            |c| == 4 && c[..3] == BaseRgb(line.color)
            && c[3] == AlphaAt(trail, Weight(trail, j), pow)
  {
  }

  class LineRenderer2D {
    const calculator: CurvatureCalculator

    constructor (calculator: CurvatureCalculator)
      ensures this.calculator == calculator
    {
      this.calculator := calculator;
    }

    /** The curvature for one line, from its derived range; this never throws. */
    method LineCurvature(line: MapLine) returns (c: real)
      modifies calculator
      ensures var range := CalculateCurvatureRange(line.start, line.end);
              Memoised(c, calculator.memo) == Curvature(old(calculator.memo), line.id, range.min, range.max)
    {
      var r := calculator.CalculateCurvatureByCoordinates(line.id, line.start, line.end, None);
      c := r.value;
    }

    /** One line's resident curve: the 64-segment path, the line's colour and the fixed width. */
    static method BuildFullPath(line: MapLine, c: real, hypot: (real, real) -> real) returns (full: FullPath)
      ensures full == FullPathOf(line, c, hypot)
    {
      var path := BuildQuadraticBezierPath(line.start, line.end, c, FullCurveSegments, hypot);
      full := FullPath(path, line.color.GetOr(DefaultLineRgba), FullCurveWidth);
    }

    /**
     * The data of the resident-curve layer: one 64-segment curve per line,
     * in input order, each drawn with the line's memoised curvature.
     */
    method BuildFullCurveData(lines: seq<MapLine>, hypot: (real, real) -> real) returns (data: seq<FullPath>)
      modifies calculator
      ensures calculator.memo == MemoAfter(old(calculator.memo), lines)
      ensures forall k :: 0 <= k < |lines| ==> lines[k].id in calculator.memo
      ensures data == FullPaths(lines, CurvaturesOf(lines, calculator.memo), hypot)
    {
      data := [];
      ghost var cs: seq<real> := [];
      var i := 0;
      while i < |lines|
        invariant 0 <= i <= |lines|
        invariant calculator.memo == MemoAfter(old(calculator.memo), lines[..i])
        invariant Recorded(calculator.memo, lines[..i], cs)
        invariant data == FullPaths(lines[..i], cs, hypot)
      {
        assert lines[..i + 1] == lines[..i] + [lines[i]];
        ghost var before := calculator.memo;
        var c := LineCurvature(lines[i]);
        RecordedSnoc(before, calculator.memo, lines[..i], cs, lines[i], c);
        var full := BuildFullPath(lines[i], c, hypot);
        assert (cs + [c])[..i] == cs;
        data := data + [full];
        cs := cs + [c];
        i := i + 1;
      }
      assert lines[..i] == lines;
      RecordedCurvatures(calculator.memo, lines, cs);
    }

    /** The dots of one line, head first. */
    method BuildLineDots(line: MapLine, curvature: real, progress: real, trail: Trail,
                         hypot: (real, real) -> real, pow: (real, real) -> real) returns (dots: seq<DotPoint>)
      ensures dots == LineDots(line, curvature, progress, trail, hypot, pow)
    {
      var length := ChordLength(line.start, line.end, hypot);
      var c := ControlPoint(line.start, line.end, curvature, length);
      var rgb := BaseRgb(line.color);
      dots := [];
      var j := 0;
      while j < trail.dotsPerLine
        invariant 0 <= j && (trail.dotsPerLine >= 0 ==> j <= trail.dotsPerLine)
        invariant trail.dotsPerLine < 0 ==> j == 0
        invariant |dots| == j
        invariant forall k :: 0 <= k < j ==> dots[k] == DotAt(line, curvature, progress, trail, k, hypot, pow)
      {
        var w := Weight(trail, j);
        var t := DotParameter(progress, trail, j);
        dots := dots + [DotPoint(BezierAt(line.start, c, line.end, t), rgb + [AlphaAt(trail, w, pow)], RadiusAt(trail, w))];
        j := j + 1;
      }
    }

    /**
     * The data of the trail layer: every line's dots at the shared
     * `progress`, line after line, each line drawn with its memoised curvature.
     */
    method BuildMovingDotsData(lines: seq<MapLine>, progress: real, options: Option<TrailOptions>,
                               hypot: (real, real) -> real, pow: (real, real) -> real) returns (dots: seq<DotPoint>)
      modifies calculator
      ensures calculator.memo == MemoAfter(old(calculator.memo), lines)
      ensures forall k :: 0 <= k < |lines| ==> lines[k].id in calculator.memo
      ensures dots == AllDots(lines, CurvaturesOf(lines, calculator.memo), progress, ResolveTrail(options), hypot, pow)
    {
      var trail := ResolveTrail(options);
      dots := [];
      ghost var cs: seq<real> := [];
      var i := 0;
      while i < |lines|
        invariant 0 <= i <= |lines|
        invariant calculator.memo == MemoAfter(old(calculator.memo), lines[..i])
        invariant |cs| == i
        invariant forall k :: 0 <= k < i ==> lines[k].id in calculator.memo && calculator.memo[lines[k].id] == cs[k]
        invariant dots == AllDots(lines[..i], cs, progress, trail, hypot, pow)
      {
        assert lines[..i + 1][..i] == lines[..i];
        var c := LineCurvature(lines[i]);
        var lineDots := BuildLineDots(lines[i], c, progress, trail, hypot, pow);
        assert (cs + [c])[..i] == cs;
        dots := dots + lineDots;
        cs := cs + [c];
        i := i + 1;
      }
      assert lines[..i] == lines;
      assert cs == CurvaturesOf(lines, calculator.memo);
    }
  }
}
