// Deterministic curvature for flow lines: a 32-bit polynomial string hash,
// a per-key memo, and the rule that picks a curvature range from the
// shape of the line (packages/core/src/utils/curvatureCalculator.ts).
module CurvatureCalc {
  import opened Wrappers
  import opened GeoTypes
  import opened JsMath

  /** The divisor that maps a 32-bit hash magnitude onto [0, 1]. */
  const HashScale: real := 2147483647.0

  /** The hash state after folding `h <- wrap32(31 * h + unit)` over `units`, from 0. */
  function HashFold(units: seq<int>): (h: int)
    ensures IsInt32(h)
  {
    if |units| == 0 then 0
    else Wrap32(31 * HashFold(units[..|units| - 1]) + units[|units| - 1])
  }

  /** The same polynomial, `sum units[k] * 31^(n-1-k)`, without wrap-around. */
  function Polynomial(units: seq<int>): int
  {
    if |units| == 0 then 0 else 31 * Polynomial(units[..|units| - 1]) + units[|units| - 1]
  }

  function AbsInt(x: int): int { if x < 0 then -x else x }

  /** What `hashString(s)` returns: `|h| / 2147483647`. */
  function HashValue(s: string): real
  {
    AbsInt(HashFold(CodeUnits(s))) as real / HashScale
  }

  lemma MultipleMod(k: int)
    ensures (TwoTo32 * k) % TwoTo32 == 0
  {
  }

  /**
   * The folded hash is the polynomial hash reduced into 32 bits: the two
   * differ by a multiple of 2^32, and the fold is a signed 32-bit value.
   */
  lemma {:induction false} HashFoldIsPolynomial(units: seq<int>)
    ensures (HashFold(units) - Polynomial(units)) % TwoTo32 == 0
  {
    if |units| > 0 {
      var init := units[..|units| - 1];
      var c := units[|units| - 1];
      HashFoldIsPolynomial(init);
      var q := (HashFold(init) - Polynomial(init)) / TwoTo32;
      assert HashFold(init) - Polynomial(init) == TwoTo32 * q;
      var x := 31 * HashFold(init) + c;
      var q2 := (Wrap32(x) - x) / TwoTo32;
      assert Wrap32(x) - x == TwoTo32 * q2;
      assert HashFold(units) - Polynomial(units) == TwoTo32 * (q2 + 31 * q);
      MultipleMod(q2 + 31 * q);
    }
  }

  /** The hash value is never negative, and it exceeds 1 exactly when the fold ends at -2^31. */
  lemma HashValueRange(s: string)
    ensures 0.0 <= HashValue(s)
    ensures HashValue(s) <= 1.0 <==> HashFold(CodeUnits(s)) != -TwoTo31
  {
    var h := HashFold(CodeUnits(s));
    if h == -TwoTo31 {
      assert AbsInt(h) as real == 2147483648.0;
    } else {
      assert AbsInt(h) as real <= HashScale;
    }
  }

  /** A curvature range `{min, max}`. */
  datatype CurvatureRange = CurvatureRange(min: real, max: real)

  /** The ratio `a / b`, which JavaScript makes Infinity when `b` is 0. */
  datatype Ratio = Finite(value: real) | Infinite

  function Divide(a: real, b: real): Ratio
  {
    if b == 0.0 then Infinite else Finite(a / b)
  }

  function MinRatio(p: Ratio, q: Ratio): Ratio
  {
    match (p, q)
    case (Infinite, _) => q
    case (_, Infinite) => p
    case (Finite(x), Finite(y)) => Finite(if x <= y then x else y)
  }

  function RealAbs(x: real): real { if x < 0.0 then -x else x }

  /**
   * The range for a line: (0.1, 0.3) for identical endpoints, otherwise
   * (0.5, 1.0) when `min(dLng/dLat, dLat/dLng) > 0.5` and (0.2, 0.5) when not.
   */
  function CalculateCurvatureRange(start: Pt, end: Pt): (r: CurvatureRange)
    ensures r == CurvatureRange(0.1, 0.3) || r == CurvatureRange(0.2, 0.5) || r == CurvatureRange(0.5, 1.0)
    ensures r == CurvatureRange(0.1, 0.3) <==> start == end
  {
    if start.y == end.y && start.x == end.x then CurvatureRange(0.1, 0.3)
    else
      var dLng := RealAbs(end.x - start.x);
      var dLat := RealAbs(end.y - start.y);
      var ratio := MinRatio(Divide(dLng, dLat), Divide(dLat, dLng));
      if ratio.Finite? && ratio.value > 0.5 then CurvatureRange(0.5, 1.0) else CurvatureRange(0.2, 0.5)
  }

  /** A range the curvature accepts: `0 <= min <= max <= 1`. */
  predicate ValidRange(r: CurvatureRange)
  {
    0.0 <= r.min && r.max <= 1.0 && r.min <= r.max
  }

  /**
   * For distinct endpoints the wide range (0.5, 1.0) is chosen exactly when
   * the smaller of the two spans is more than half the larger; a line
   * along one axis always gets (0.2, 0.5).
   */
  lemma RangeBySpans(start: Pt, end: Pt)
    requires start != end
    ensures var a := RealAbs(end.x - start.x);
            var b := RealAbs(end.y - start.y);
            var lo := if a <= b then a else b;
            var hi := if a <= b then b else a;
            CalculateCurvatureRange(start, end) ==
              (if 2.0 * lo > hi then CurvatureRange(0.5, 1.0) else CurvatureRange(0.2, 0.5))
    ensures start.x == end.x || start.y == end.y ==> CalculateCurvatureRange(start, end) == CurvatureRange(0.2, 0.5)
  {
    var a := RealAbs(end.x - start.x);
    var b := RealAbs(end.y - start.y);
    assert a > 0.0 || b > 0.0;
    if a > 0.0 && b > 0.0 {
      if a <= b {
        QuotientFacts(a, b);
      } else {
        QuotientFacts(b, a);
      }
    }
  }

  /** For `0 < a <= b`: `a/b <= 1 <= b/a`, and `a/b > 1/2` exactly when `2a > b`. */
  lemma QuotientFacts(a: real, b: real)
    requires 0.0 < a <= b
    ensures a / b <= 1.0 <= b / a
    ensures a / b > 0.5 <==> 2.0 * a > b
  {
    QuotientAtMostOne(a, b);
    QuotientAtLeastOne(b, a);
    QuotientAboveHalf(a, b);
  }

  lemma QuotientAtMostOne(a: real, b: real)
    requires 0.0 < a <= b
    ensures a / b <= 1.0
  {
    var q := a / b;
    assert q * b == a;
    if q > 1.0 {
      assert q * b - b == (q - 1.0) * b;
      assert (q - 1.0) * b > 0.0;
    }
  }

  lemma QuotientAtLeastOne(b: real, a: real)
    requires 0.0 < a <= b
    ensures 1.0 <= b / a
  {
    var p := b / a;
    assert p * a == b;
    assert b - a == (p - 1.0) * a;
  }

  lemma QuotientAboveHalf(a: real, b: real)
    requires 0.0 < b
    ensures a / b > 0.5 <==> 2.0 * a > b
  {
    var q := a / b;
    assert q * b == a;
    assert 2.0 * a - b == (2.0 * q - 1.0) * b;
    if q > 0.5 {
      assert (2.0 * q - 1.0) * b > 0.0;
    } else {
      assert (1.0 - 2.0 * q) * b >= 0.0;
    }
  }

  /** The derived range always passes the validity check, so only a custom range can throw. */
  lemma DerivedRangeIsValid(start: Pt, end: Pt)
    ensures ValidRange(CalculateCurvatureRange(start, end))
  {
  }

  /** The memo after `curvature(key, min, max)`, and the value it returns. */
  datatype Memoised = Memoised(value: real, memo: map<string, real>)

  /** A key seen before returns its stored value; a fresh key stores `hash * (max - min) + min`. */
  function Curvature(memo: map<string, real>, key: string, min: real, max: real): (r: Memoised)
    ensures key in r.memo && r.memo[key] == r.value
    ensures key in memo ==> r == Memoised(memo[key], memo)
    ensures key !in memo ==> r.memo == memo[key := r.value]
  {
    if key in memo then Memoised(memo[key], memo)
    else
      var v := Scaled(HashValue(key), min, max);
      Memoised(v, memo[key := v])
  }

  /** A repeated key returns the first value, whatever bounds the second call passes. */
  lemma RepeatedKeyKeepsFirstValue(memo: map<string, real>, key: string, min1: real, max1: real, min2: real, max2: real)
    ensures var first := Curvature(memo, key, min1, max1);
            Curvature(first.memo, key, min2, max2) == first
  {
  }

  /** A fresh key's curvature lies between `min` and `max` whenever the hash is at most 1. */
  lemma FreshCurvatureInRange(key: string, min: real, max: real)
    requires min <= max
    requires HashFold(CodeUnits(key)) != -TwoTo31
    ensures min <= Curvature(map[], key, min, max).value <= max
  {
    HashValueRange(key);
    ScaledFraction(HashValue(key), min, max);
  }

  /** The fresh-key curvature `h * (max - min) + min`. */
  function Scaled(h: real, min: real, max: real): real
  {
    h * (max - min) + min
  }

  lemma ScaledFraction(h: real, min: real, max: real)
    requires 0.0 <= h <= 1.0 && min <= max
    ensures min <= Scaled(h, min, max) <= max
  {
    var d := max - min;
    assert h * d >= 0.0;
    assert d - h * d == (1.0 - h) * d;
    assert (1.0 - h) * d >= 0.0;
  }

  /** The error `calculateCurvatureByCoordinates` throws for a range outside 0 <= min <= max <= 1. */
  const InvalidRangeMessage: string := "无效的曲率范围。必须满足: 0 <= min <= max <= 1"

  /** The range a call uses: the custom one when given, else the one derived from the endpoints. */
  function RangeFor(start: Pt, end: Pt, custom: Option<CurvatureRange>): (r: CurvatureRange)
    ensures custom.Some? ==> r == custom.value
    ensures custom.None? ==> ValidRange(r)
  {
    match custom
    case Some(c) => c
    case None => CalculateCurvatureRange(start, end)
  }

  class CurvatureCalculator {
    /** The per-key memo of curvature values. */
    var memo: map<string, real>

    constructor ()
      ensures memo == map[]
    {
      memo := map[];
    }

    /** The hash of a string's UTF-16 code units, as a value in [0, 1] (slightly above for one fold value). */
    method HashString(s: string) returns (v: real)
      ensures v == HashValue(s)
    {
      var units := CodeUnits(s);
      var h := 0;
      var i := 0;
      while i < |units|
        invariant 0 <= i <= |units|
        invariant h == HashFold(units[..i])
      {
        assert units[..i + 1][..i] == units[..i];
        h := Wrap32(31 * h + units[i]);
        i := i + 1;
      }
      assert units[..i] == units;
      v := AbsInt(h) as real / HashScale;
    }

    /** The memoised curvature of `key`. */
    method CurvatureOf(key: string, min: real, max: real) returns (c: real)
      modifies this
      ensures Memoised(c, memo) == Curvature(old(memo), key, min, max)
    {
      if key !in memo {
        var h := HashString(key);
        memo := memo[key := Scaled(h, min, max)];
      }
      c := memo[key];
    }

    /** Throws when the range in force is invalid; otherwise the memoised curvature for that range. */
    method CalculateCurvatureByCoordinates(key: string, start: Pt, end: Pt, custom: Option<CurvatureRange>)
      returns (r: Result<real>)
      modifies this
      ensures !ValidRange(RangeFor(start, end, custom)) ==> r == Err(InvalidRangeMessage) && memo == old(memo)
      ensures ValidRange(RangeFor(start, end, custom)) ==>
        var range := RangeFor(start, end, custom);
        r.Ok? && Memoised(r.value, memo) == Curvature(old(memo), key, range.min, range.max)
    {
      var range := RangeFor(start, end, custom);
      if range.min < 0.0 || range.max > 1.0 || range.min > range.max {
        return Err(InvalidRangeMessage);
      }
      var c := CurvatureOf(key, range.min, range.max);
      r := Ok(c);
    }

    /** Forgets every key. */
    method ClearCache()
      modifies this
      ensures memo == map[]
    {
      memo := map[];
    }

    /** A copy of the memo; maps are values, so it cannot alias the calculator's own. */
    method GetCacheMap() returns (m: map<string, real>)
      ensures m == memo
    {
      m := memo;
    }
  }
}
