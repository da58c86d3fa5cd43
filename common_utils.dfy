// General utilities (packages/utils/src/common.ts): definedness and
// emptiness predicates over JavaScript values, the structural deep copy,
// the throttle wrapper with the clock made explicit, and the colour
// conversions between hex strings and RGBA components.
module CommonUtils {
  import opened Wrappers
  import opened JsMath

  /** A JavaScript value as these helpers see it. An object lists its own properties in order. */
  datatype JsValue =
    | Undefined
    | Null
    | Num(n: real)
    | Str(s: string)
    | Bool(b: bool)
    | Func(fid: nat)
    | Date(time: int)
    | Arr(items: seq<JsValue>)
    | Obj(props: seq<Prop>)
  datatype Prop = Prop(key: string, value: JsValue)

  /** `isDef`: neither undefined nor null. */
  predicate IsDef(v: JsValue)
  {
    v != Undefined && v != Null
  }

  /** `isUndef`: undefined or null. */
  predicate IsUndef(v: JsValue)
  {
    v == Undefined || v == Null
  }

  /** The two predicates are each other's negation. */
  lemma DefIsNotUndef(v: JsValue)
    ensures IsDef(v) <==> !IsUndef(v)
  {
  }

  /** `isEmptyArray`: anything that is not an array, or an array with no items. */
  predicate IsEmptyArray(v: JsValue)
  {
    !v.Arr? || |v.items| == 0
  }

  lemma EmptyArrayCases(v: JsValue)
    ensures !v.Arr? ==> IsEmptyArray(v)
    ensures v.Arr? ==> (IsEmptyArray(v) <==> v.items == [])
  {
  }

  /**
   * `deepClone`: primitives and functions as they are, a new Date with the
   * same time, arrays item by item, objects own property by own property.
   */
  function DeepClone(v: JsValue): JsValue
    decreases v, 1
  {
    match v
    case Date(t) => Date(t)
    case Arr(items) => Arr(CloneItems(items))
    case Obj(props) => Obj(CloneProps(props))
    case _ => v
  }

  function CloneItems(items: seq<JsValue>): seq<JsValue>
    decreases items, 0
  {
    if |items| == 0 then [] else [DeepClone(items[0])] + CloneItems(items[1..])
  }

  function CloneProps(props: seq<Prop>): seq<Prop>
    decreases props, 0
  {
    if |props| == 0 then [] else [Prop(props[0].key, DeepClone(props[0].value))] + CloneProps(props[1..])
  }

  /** The copy is structurally equal to the original, at every depth. */
  lemma {:induction false} DeepCloneEqual(v: JsValue)
    ensures DeepClone(v) == v
    decreases v, 1
  {
    match v
    case Arr(items) => CloneItemsEqual(items);
    case Obj(props) => ClonePropsEqual(props);
    case _ =>
  }

  lemma {:induction false} CloneItemsEqual(items: seq<JsValue>)
    ensures CloneItems(items) == items
    decreases items, 0
  {
    if |items| > 0 {
      DeepCloneEqual(items[0]);
      CloneItemsEqual(items[1..]);
    }
  }

  lemma {:induction false} ClonePropsEqual(props: seq<Prop>)
    ensures CloneProps(props) == props
    decreases props, 0
  {
    if |props| > 0 {
      assert props[0].value < props[0];
      DeepCloneEqual(props[0].value);
      ClonePropsEqual(props[1..]);
    }
  }

  /** The calls that actually run `fn`: each one at least `delay` after the previous run, the first after time 0. */
  function Fired(calls: seq<int>, delay: int): (r: seq<int>)
    ensures forall k :: 0 <= k < |r| ==> r[k] in calls
  {
    if |calls| == 0 then []
    else
      var before := Fired(calls[..|calls| - 1], delay);
      var now := calls[|calls| - 1];
      if now - LastRun(before) >= delay then before + [now] else before
  }

  /** `lastTime`: the latest run, 0 before any. */
  function LastRun(runs: seq<int>): int
  {
    if |runs| == 0 then 0 else runs[|runs| - 1]
  }

  /** Consecutive runs are at least `delay` apart, and the first is at least `delay` after 0. */
  lemma {:induction false} FiredSpacing(calls: seq<int>, delay: int)
    ensures var r := Fired(calls, delay);
            (|r| > 0 ==> r[0] >= delay)
            && forall k :: 0 < k < |r| ==> r[k] - r[k - 1] >= delay
  {
    if |calls| > 0 {
      FiredSpacing(calls[..|calls| - 1], delay);
    }
  }

  /** `throttle(fn, delay)` with the clock passed to each call; `runs` records when `fn` ran. */
  class Throttle {
    const delay: int
    var lastTime: int
    ghost var calls: seq<int>
    var runs: seq<int>

    ghost predicate Valid()
      reads this
    {
      runs == Fired(calls, delay) && lastTime == LastRun(runs)
    }

    constructor (delay: int)
      ensures Valid() && this.delay == delay && calls == [] && runs == [] && lastTime == 0
    {
      this.delay := delay;
      lastTime := 0;
      calls := [];
      runs := [];
    }

    /** A call at time `now` runs `fn` iff `now - lastTime >= delay`; only a run moves `lastTime`. */
    method Call(now: int) returns (ran: bool)
      requires Valid()
      modifies this
      ensures Valid() && calls == old(calls) + [now]
      ensures ran <==> now - old(lastTime) >= delay
      ensures lastTime == if ran then now else old(lastTime)
      ensures runs == if ran then old(runs) + [now] else old(runs)
    {
      calls := calls + [now];
      assert calls[..|calls| - 1] == old(calls);
      ran := now - lastTime >= delay;
      if ran {
        lastTime := now;
        runs := runs + [now];
      }
    }
  }

  /** An RGBA colour with integer components. */
  datatype Rgba = Rgba(r: int, g: int, b: int, a: int)

  /** `hexToRgba`: each component parsed from its two characters, NaN (`None`) when they hold no number. */
  datatype ParsedRgba = ParsedRgba(r: Option<int>, g: Option<int>, b: Option<int>, a: int)

  const HexDigits: string := "0123456789abcdef"

  function HexDigit(d: nat): (c: char)
    requires d < 16
  {
    HexDigits[d]
  }

  /** The value of a hex digit of either case. */
  function HexValue(c: char): Option<nat>
  {
    if '0' <= c <= '9' then Some(c as int - '0' as int)
    else if 'a' <= c <= 'f' then Some(c as int - 'a' as int + 10)
    else if 'A' <= c <= 'F' then Some(c as int - 'A' as int + 10)
    else None
  }

  lemma HexValueOfDigit(d: nat)
    requires d < 16
    ensures HexValue(HexDigit(d)) == Some(d)
  {
  }

  /** The common white-space characters, which `parseInt` skips before a number (the rest of the Unicode space separators are not listed). */
  predicate IsSpace(c: char)
  {
    c == ' ' || c == '\t' || c == '\n' || c == '\r' || c == '\U{B}' || c == '\U{C}' || c == '\U{A0}' || c == '\U{FEFF}'
  }

  function TrimStart(s: string): (r: string)
    ensures |r| <= |s|
  {
    if |s| > 0 && IsSpace(s[0]) then TrimStart(s[1..]) else s
  }

  /** The number of leading hex digits. */
  function HexRun(s: string): (n: nat)
    ensures n <= |s|
  {
    if |s| > 0 && HexValue(s[0]).Some? then 1 + HexRun(s[1..]) else 0
  }

  /** The value of a string of hex digits, most significant first. */
  function HexNumber(s: string): nat
    requires forall k :: 0 <= k < |s| ==> HexValue(s[k]).Some?
  {
    if |s| == 0 then 0 else 16 * HexNumber(s[..|s| - 1]) + HexValue(s[|s| - 1]).value
  }

  lemma HexRunAllDigits(s: string)
    ensures forall k :: 0 <= k < HexRun(s) ==> HexValue(s[k]).Some?
  {
    if |s| > 0 && HexValue(s[0]).Some? {
      HexRunAllDigits(s[1..]);
    }
  }

  /**
   * `parseInt(s, 16)`: leading white space, an optional sign and an
   * optional `0x` are skipped, then the longest run of hex digits is read;
   * no digits is NaN.
   */
  function ParseIntHex(s: string): Option<int>
  {
    var t := TrimStart(s);
    var negative := |t| > 0 && t[0] == '-';
    var u := if |t| > 0 && (t[0] == '-' || t[0] == '+') then t[1..] else t;
    var v := if |u| >= 2 && u[0] == '0' && (u[1] == 'x' || u[1] == 'X') then u[2..] else u;
    var n := HexRun(v);
    HexRunAllDigits(v);
    if n == 0 then None
    else
      var m: int := HexNumber(v[..n]);
      Some(if negative then -m else m)
  }

  /** A string that starts with a hex digit is read from its first character. */
  lemma ParseIntHexPlain(s: string)
    requires |s| > 0 && HexValue(s[0]).Some?
    requires |s| > 1 ==> HexValue(s[1]).Some?
    ensures HexRun(s) > 0
    ensures forall k :: 0 <= k < HexRun(s) ==> HexValue(s[k]).Some?
    ensures ParseIntHex(s) == Some(HexNumber(s[..HexRun(s)]) as int)
  {
    HexRunAllDigits(s);
    TrimStartAtHexDigit(s);
    assert |s| > 1 ==> s[1] != 'x' && s[1] != 'X';
  }

  lemma TrimStartAtHexDigit(s: string)
    requires |s| > 0 && HexValue(s[0]).Some?
    ensures TrimStart(s) == s && s[0] != '-' && s[0] != '+'
  {
    assert !IsSpace(s[0]);
  }

  lemma HexNumberTwo(a: char, b: char)
    requires HexValue(a).Some? && HexValue(b).Some?
    ensures HexNumber([a, b]) == 16 * HexValue(a).value + HexValue(b).value
  {
    assert [a, b][..1] == [a];
    assert [a][..0] == [];
    assert HexNumber([a]) == HexValue(a).value;
  }

  /** `s.slice(i, j)` for `0 <= i <= j`: clipped to the string. */
  function Slice(s: string, i: nat, j: nat): string
    requires i <= j
  {
    if j <= |s| then s[i..j] else if i <= |s| then s[i..] else []
  }

  function HexToRgba(hex: string, alpha: Option<int>): ParsedRgba
  {
    ParsedRgba(ParseIntHex(Slice(hex, 1, 3)), ParseIntHex(Slice(hex, 3, 5)), ParseIntHex(Slice(hex, 5, 7)), alpha.GetOr(255))
  }

  /** `n.toString(16)` for a non-negative integer. */
  function NatToHex(n: nat): (r: string)
    ensures |r| >= 1
  {
    if n < 16 then [HexDigit(n)] else NatToHex(n / 16) + [HexDigit(n % 16)]
  }

  /** `n.toString(16)` for any integer: a minus sign before the digits of a negative. */
  function IntToHex(n: int): string
  {
    if n < 0 then "-" + NatToHex(-n) else NatToHex(n)
  }

  /** `x << k` on 32-bit integers. */
  function ShiftLeft32(x: int, k: nat): int
  {
    Wrap32(x * Pow2(k))
  }

  function Pow2(k: nat): nat
  {
    if k == 0 then 1 else 2 * Pow2(k - 1)
  }

  /** `rgbaToHex`: `#` and the hex of `2^24 + (r << 16) + (g << 8) + b` without its first digit. */
  function RgbaToHex(c: Rgba): string
  {
    var n := ShiftLeft32(1, 24) + ShiftLeft32(c.r, 16) + ShiftLeft32(c.g, 8) + c.b;
    var h := IntToHex(n);
    "#" + h[1..]
  }

  predicate IsByte(x: int)
  {
    0 <= x < 256
  }

  /** The two hex digits of a byte. */
  function ByteHex(x: int): string
    requires IsByte(x)
  {
    [HexDigit(x / 16), HexDigit(x % 16)]
  }

  /** One more hex digit at the end. */
  lemma NatToHexStep(q: nat, d: nat)
    requires d < 16 && q > 0
    ensures NatToHex(16 * q + d) == NatToHex(q) + [HexDigit(d)]
  {
    assert (16 * q + d) / 16 == q && (16 * q + d) % 16 == d;
  }

  /** Two more hex digits at the end, those of a byte. */
  lemma NatToHexByte(q: nat, x: int)
    requires q > 0 && IsByte(x)
    ensures NatToHex(256 * q + x) == NatToHex(q) + ByteHex(x)
  {
    var m := 16 * q + x / 16;
    assert 256 * q + x == 16 * m + x % 16;
    NatToHexStep(m, x % 16);
    NatToHexStep(q, x / 16);
  }

  /** The hex of `256 + r`: a 1, then the two digits of `r`. */
  lemma ThreeDigits(r: int)
    requires IsByte(r)
    ensures NatToHex(256 + r) == "1" + ByteHex(r)
  {
    NatToHexByte(1, r);
    assert NatToHex(1) == "1";
  }

  /** Seven-digit hex: a leading 1, then the six digits of `r`, `g` and `b`. */
  lemma SevenDigits(r: int, g: int, b: int)
    requires IsByte(r) && IsByte(g) && IsByte(b)
    ensures NatToHex(256 * (256 * (256 + r) + g) + b) == "1" + ByteHex(r) + ByteHex(g) + ByteHex(b)
  {
    var q1 := 256 + r;
    var q2 := 256 * q1 + g;
    ThreeDigits(r);
    NatToHexByte(q1, g);
    NatToHexByte(q2, b);
  }

  /** The shifts of byte components do not wrap. */
  lemma ByteShifts(c: Rgba)
    requires IsByte(c.r) && IsByte(c.g) && IsByte(c.b)
    ensures ShiftLeft32(1, 24) + ShiftLeft32(c.r, 16) + ShiftLeft32(c.g, 8) + c.b
            == 256 * (256 * (256 + c.r) + c.g) + c.b
  {
    assert Pow2(8) == 256;
    assert Pow2(16) == 65536;
    assert Pow2(24) == 16777216;
    assert IsInt32(c.r * 65536);
    assert IsInt32(c.g * 256);
  }

  /** For byte components the hex string is `#` and six lowercase digits, two per component. */
  lemma RgbaToHexShape(c: Rgba)
    requires IsByte(c.r) && IsByte(c.g) && IsByte(c.b)
    ensures RgbaToHex(c) == "#" + ByteHex(c.r) + ByteHex(c.g) + ByteHex(c.b)
  {
    var n := 256 * (256 * (256 + c.r) + c.g) + c.b;
    RgbaToHexOf(c, n);
    SevenDigits(c.r, c.g, c.b);
    var t := ByteHex(c.r) + ByteHex(c.g) + ByteHex(c.b);
    DropLeadingOne(NatToHex(n), t);
  }

  /** `rgbaToHex` spelled with the unwrapped sum of the components. */
  lemma RgbaToHexOf(c: Rgba, n: int)
    requires IsByte(c.r) && IsByte(c.g) && IsByte(c.b)
    requires n == 256 * (256 * (256 + c.r) + c.g) + c.b
    ensures RgbaToHex(c) == "#" + NatToHex(n)[1..]
  {
    ByteShifts(c);
  }

  lemma DropLeadingOne(h: string, t: string)
    requires h == "1" + t
    ensures h[1..] == t
  {
  }

  /** So it is seven characters long, and all but the `#` are lowercase hex digits. */
  lemma RgbaToHexDigits(c: Rgba)
    requires IsByte(c.r) && IsByte(c.g) && IsByte(c.b)
    ensures |RgbaToHex(c)| == 7
    ensures forall k :: 1 <= k < 7 ==> RgbaToHex(c)[k] in HexDigits
  {
    RgbaToHexShape(c);
  }

  lemma ByteHexParses(x: int)
    requires IsByte(x)
    ensures ParseIntHex(ByteHex(x)) == Some(x)
  {
    var s := ByteHex(x);
    HexValueOfDigit(x / 16);
    HexValueOfDigit(x % 16);
    assert TrimStart(s) == s;
    assert HexRun(s[1..]) == 1;
    assert HexRun(s) == 2;
    assert s[..2] == s;
    assert s[..1] == [HexDigit(x / 16)];
    assert HexNumber(s[..1]) == x / 16;
    assert HexNumber(s) == 16 * (x / 16) + x % 16;
  }

  /** Hex round trip: the components of a byte colour come back, with the alpha passed to `hexToRgba`. */
  lemma HexRoundTrip(c: Rgba, alpha: int)
    requires IsByte(c.r) && IsByte(c.g) && IsByte(c.b)
    ensures HexToRgba(RgbaToHex(c), Some(alpha)) == ParsedRgba(Some(c.r), Some(c.g), Some(c.b), alpha)
  {
    RgbaToHexShape(c);
    var h := RgbaToHex(c);
    assert Slice(h, 1, 3) == ByteHex(c.r);
    assert Slice(h, 3, 5) == ByteHex(c.g);
    assert Slice(h, 5, 7) == ByteHex(c.b);
    ByteHexParses(c.r);
    ByteHexParses(c.g);
    ByteHexParses(c.b);
  }

  /** `Math.round(c1 + (c2 - c1) * t)` for one component. */
  function Mix(c1: int, c2: int, t: real): int
  {
    Round(c1 as real + (c2 - c1) as real * t)
  }

  /** `interpolateColor`: each component mixed at `t`. */
  function InterpolateColor(c1: Rgba, c2: Rgba, t: real): (r: Rgba)
    ensures t == 0.0 ==> r == c1
    ensures t == 1.0 ==> r == c2
    ensures 0.0 <= t <= 1.0 ==> Between(c1.r, c2.r, r.r) && Between(c1.g, c2.g, r.g)
                                && Between(c1.b, c2.b, r.b) && Between(c1.a, c2.a, r.a)
  {
    MixBetween(c1.r, c2.r, t);
    MixBetween(c1.g, c2.g, t);
    MixBetween(c1.b, c2.b, t);
    MixBetween(c1.a, c2.a, t);
    Rgba(Mix(c1.r, c2.r, t), Mix(c1.g, c2.g, t), Mix(c1.b, c2.b, t), Mix(c1.a, c2.a, t))
  }

  predicate Between(a: int, b: int, x: int)
  {
    (a <= x <= b) || (b <= x <= a)
  }

  lemma MixBetween(c1: int, c2: int, t: real)
    ensures t == 0.0 ==> Mix(c1, c2, t) == c1
    ensures t == 1.0 ==> Mix(c1, c2, t) == c2
    ensures 0.0 <= t <= 1.0 ==> Between(c1, c2, Mix(c1, c2, t))
  {
    if 0.0 <= t <= 1.0 {
      var d := (c2 - c1) as real;
      var x := c1 as real + d * t;
      if c1 <= c2 {
        assert 0.0 <= d * t <= d;
      } else {
        assert d <= d * t <= 0.0;
      }
    }
  }
}
