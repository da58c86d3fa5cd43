// ECharts option objects as the theme, animation and tooltip managers build
// them by spreading and assigning properties. Only which property holds
// which value matters to them, so an object is a map from property name to
// value and the order of its properties is not kept; functions are opaque
// references.
module ChartOption {
  import opened GeoTypes

  datatype Value =
    | Undef
    | Text(s: string)
    | Number(n: real)
    | Flag(b: bool)
    | Func(id: string)
    | Arr(items: seq<Value>)
    | Obj(fields: map<string, Value>)

  type Fields = map<string, Value>

  /**
   * `{...v}`: an object's own properties; an array's elements, or a string's
   * characters, under the keys "0", "1", ...; none for `undefined`, a number,
   * a boolean or a function.
   */
  function Spread(v: Value): (r: Fields)
    ensures v.Obj? ==> r == v.fields
    ensures v.Arr? ==> Indexes(r, v.items)
    ensures v.Text? ==> Indexes(r, Characters(v.s))
    ensures !(v.Obj? || v.Arr? || v.Text?) ==> r == map[]
  {
    match v
    case Obj(fields) => fields
    case Arr(items) => Indexed(items)
    case Text(s) => Indexed(Characters(s))
    case _ => map[]
  }

  /** A string's characters, each as a one-character string. */
  function Characters(s: string): (r: seq<Value>)
    ensures |r| == |s| && forall k :: 0 <= k < |s| ==> r[k] == Text([s[k]])
  {
    seq(|s|, k requires 0 <= k < |s| => Text([s[k]]))
  }

  /** The properties are exactly the items under their index keys. */
  ghost predicate Indexes(r: Fields, items: seq<Value>)
  {
    && r.Keys == IndexKeys(|items|)
    && forall k :: 0 <= k < |items| ==> r[NatToString(k)] == items[k]
  }

  /** The keys "0", "1", ... up to but not including `n`. */
  ghost function IndexKeys(n: nat): set<string>
  {
    set k | 0 <= k < n :: NatToString(k)
  }

  /** The items under the keys "0", "1", ... */
  function Indexed(items: seq<Value>): (r: Fields)
    ensures Indexes(r, items)
  {
    if |items| == 0 then map[]
    else
      var n := |items| - 1;
      IndexesSnoc(Indexed(items[..n]), items);
      Indexed(items[..n])[NatToString(n) := items[n]]
  }

  /** Adding the last item under its index key to the index of the others indexes all the items. */
  lemma IndexesSnoc(front: Fields, items: seq<Value>)
    requires |items| > 0 && Indexes(front, items[..|items| - 1])
    ensures Indexes(front[NatToString(|items| - 1) := items[|items| - 1]], items)
  {
    var n := |items| - 1;
    IndexKeysDistinct(n);
    SnocKeys(front, items);
    forall k | 0 <= k < n
      ensures NatToString(k) in front && front[NatToString(k)] == items[k]
    {
      assert items[..n][k] == items[k];
    }
    SnocValues(front, items);
  }

  lemma SnocKeys(front: Fields, items: seq<Value>)
    requires |items| > 0 && front.Keys == IndexKeys(|items| - 1)
    ensures front[NatToString(|items| - 1) := items[|items| - 1]].Keys == IndexKeys(|items|)
  {
    var n := |items| - 1;
    var key := NatToString(n);
    var r := front[key := items[n]];
    forall x | x in r.Keys
      ensures exists k :: 0 <= k < |items| && x == NatToString(k)
    {
      if x != key {
        var k :| 0 <= k < n && x == NatToString(k);
      }
    }
  }

  lemma SnocValues(front: Fields, items: seq<Value>)
    requires |items| > 0
    requires forall k :: 0 <= k < |items| - 1 ==> NatToString(k) in front && front[NatToString(k)] == items[k]
    requires forall k :: 0 <= k < |items| - 1 ==> NatToString(k) != NatToString(|items| - 1)
    ensures var r := front[NatToString(|items| - 1) := items[|items| - 1]];
            forall k :: 0 <= k < |items| ==> r[NatToString(k)] == items[k]
  {
    var n := |items| - 1;
    var key := NatToString(n);
    var r := front[key := items[n]];
    forall k | 0 <= k < |items|
      ensures r[NatToString(k)] == items[k]
    {
      if k < n {
        var x := NatToString(k);
        assert x != key;
        assert r[x] == front[x];
      } else {
        assert k == n;
      }
    }
  }

  /** Distinct indexes have distinct keys. */
  lemma IndexKeysDistinct(n: nat)
    ensures forall k :: 0 <= k < n ==> NatToString(k) != NatToString(n)
  {
    forall k | 0 <= k < n
      ensures NatToString(k) != NatToString(n)
    {
      if NatToString(k) == NatToString(n) {
        NatToStringInjective(k, n);
      }
    }
  }

  /** `o[k]`: the property, `undefined` when it is missing. */
  function Prop(o: Fields, k: string): (r: Value)
    ensures k !in o ==> r == Undef
    ensures k in o ==> r == o[k]
  {
    if k in o then o[k] else Undef
  }

  /** JavaScript truthiness; a number is falsy only when zero, as NaN is not among the values here. */
  predicate Truthy(v: Value)
  {
    match v
    case Undef => false
    case Text(s) => |s| > 0
    case Number(n) => n != 0.0
    case Flag(b) => b
    case _ => true
  }

  /** The property holds an object. */
  predicate HasObject(o: Fields, k: string)
  {
    k in o && o[k].Obj?
  }

  /** Three distinct properties assigned on an object read back as assigned. */
  lemma AssignedThree(o: Fields, a: string, b: string, c: string, x: Value, y: Value, z: Value)
    requires a != b && b != c && a != c
    ensures var m := o + map[a := x, b := y, c := z];
            Prop(m, a) == x && Prop(m, b) == y && Prop(m, c) == z
  {
  }

  /** Spreading the same properties over an object twice is spreading them once. */
  lemma MergeTwice(m: Fields, a: Fields)
    ensures (m + a) + a == m + a
  {
  }
}
