// JavaScript number operations the source relies on, written out over
// unbounded integers and reals: 32-bit wrap-around, Math.round, the
// truncating `%`, and UTF-16 code units.
module JsMath {
  const TwoTo31: int := 0x8000_0000
  const TwoTo32: int := 0x1_0000_0000

  /** A signed 32-bit integer, the range of `x | 0`. */
  predicate IsInt32(x: int)
  {
    -TwoTo31 <= x < TwoTo31
  }

  /** `x | 0`: the integer reduced into the signed 32-bit range. */
  function Wrap32(x: int): (r: int)
    ensures IsInt32(r)
    ensures (r - x) % TwoTo32 == 0
    ensures IsInt32(x) ==> r == x
  {
    (x + TwoTo31) % TwoTo32 - TwoTo31
  }

  /** `Math.round(x)`: the nearest integer, halves rounded up. */
  function Round(x: real): (r: int)
    ensures x - 0.5 < r as real <= x + 0.5
  {
    (x + 0.5).Floor
  }

  /** `Math.trunc(x)`: the integer part, rounded toward zero. */
  function Trunc(x: real): (r: int)
    ensures 0.0 <= x ==> 0 <= r && r as real <= x < r as real + 1.0
    ensures x < 0.0 ==> r <= 0 && r as real - 1.0 < x <= r as real
  {
    if x >= 0.0 then x.Floor else -((-x).Floor)
  }

  /** `x % 1`: keeps the sign of `x`, as JavaScript's remainder does. */
  function Rem1(x: real): (r: real)
    ensures 0.0 <= x ==> 0.0 <= r < 1.0
    ensures x < 0.0 ==> -1.0 < r <= 0.0
  {
    x - Trunc(x) as real
  }

  /** `((x % 1) + 1) % 1`: the parameter wrap used for moving dots. */
  function WrapUnit(x: real): real
  {
    Rem1(Rem1(x) + 1.0)
  }

  /** The wrap lands in [0, 1) and is the fractional part `x - floor(x)`. */
  lemma WrapUnitIsFraction(x: real)
    ensures 0.0 <= WrapUnit(x) < 1.0
    ensures WrapUnit(x) == x - x.Floor as real
  {
    var f := x.Floor;
    if x >= 0.0 {
      assert Rem1(x) == x - f as real;
      assert Trunc(Rem1(x) + 1.0) == 1;
    } else {
      var r := Rem1(x);
      if r == 0.0 {
        assert Trunc(x) as real == x;
        assert f as real == x;
        assert Trunc(1.0) == 1;
      } else {
        assert Trunc(x) == f + 1;
        assert Trunc(r + 1.0) == 0;
      }
    }
  }

  /** The UTF-16 code units of one character, as `charCodeAt` sees them. */
  function CodeUnitsOf(c: char): (r: seq<int>)
    ensures 1 <= |r| <= 2
    ensures forall k :: 0 <= k < |r| ==> 0 <= r[k] < 0x1_0000
  {
    var v := c as int;
    if v < 0x1_0000 then [v]
    else [0xD800 + (v - 0x1_0000) / 0x400, 0xDC00 + (v - 0x1_0000) % 0x400]
  }

  /** The UTF-16 code units of a string, in order. */
  function CodeUnits(s: string): (r: seq<int>)
    ensures |s| <= |r| <= 2 * |s|
    ensures forall k :: 0 <= k < |r| ==> 0 <= r[k] < 0x1_0000
  {
    if |s| == 0 then [] else CodeUnits(s[..|s| - 1]) + CodeUnitsOf(s[|s| - 1])
  }

  predicate IsDigit(c: char)
  {
    '0' <= c <= '9'
  }

  /** `n.toString()` for an integer. */
  function DecimalText(n: int): (s: string)
    ensures |s| > 0 && (s[0] == '-' || IsDigit(s[0]))
  {
    if n < 0 then "-" + NatText(-n) else NatText(n)
  }

  function NatText(n: nat): (s: string)
    ensures |s| > 0 && IsDigit(s[0])
  {
    if n < 10 then [('0' as int + n) as char] else NatText(n / 10) + [('0' as int + n % 10) as char]
  }

  /** `array.toString()` for an array of integers: the elements' texts joined by commas. */
  function ArrayText(items: seq<int>): (s: string)
    ensures |items| == 0 <==> s == ""
    ensures |items| > 0 ==> s[0] == DecimalText(items[0])[0]
  {
    if |items| == 0 then ""
    else if |items| == 1 then DecimalText(items[0])
    else DecimalText(items[0]) + "," + ArrayText(items[1..])
  }
}
