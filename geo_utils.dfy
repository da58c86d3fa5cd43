// The ECharts-facing data utilities (packages/core/src/geo-utils.ts): the
// bounding box, centre and zoom of a data set, range and box filters, the
// value and distance sorts, grouping by a region property and the value
// colour map. `Math.sqrt` is only used to rank distances, so the squared
// distance ranks them instead.
module GeoUtils {
  import opened Wrappers
  import opened GeoTypes
  import opened MapTypes
  import C = Coordinate
  import OM = OrderedMaps

  /** The `[lng, lat]` of each item. */
  function PointsOf(data: seq<GeoData>): (r: seq<Pt>)
    ensures |r| == |data|
    ensures forall k :: 0 <= k < |data| ==> r[k] == Pt(data[k].lng, data[k].lat)
  {
    seq(|data|, k requires 0 <= k < |data| => Pt(data[k].lng, data[k].lat))
  }

  /**
   * `calculateBounds`: all zeros for no data; otherwise the box seeded with
   * the first item and widened by every item, which is the bounding box of
   * the coordinates.
   */
  method CalculateBounds(data: seq<GeoData>) returns (b: C.Bounds)
    ensures b == C.BoundsOf(PointsOf(data))
  {
    var pts := PointsOf(data);
    if |data| == 0 {
      return C.Bounds(Pt(0.0, 0.0), Pt(0.0, 0.0));
    }
    var minLng := data[0].lng;
    var maxLng := data[0].lng;
    var minLat := data[0].lat;
    var maxLat := data[0].lat;
    var i := 0;
    while i < |data|
      invariant 0 <= i <= |data|
      invariant i == 0 ==> minLng == maxLng == data[0].lng && minLat == maxLat == data[0].lat
      invariant i > 0 ==> C.BoxOf(pts[..i]) == C.Bounds(Pt(minLng, minLat), Pt(maxLng, maxLat))
    {
      if i > 0 {
        assert pts[..i + 1][..i] == pts[..i];
      } else {
        assert pts[..1] == [pts[0]];
      }
      minLng := C.Min(minLng, data[i].lng);
      maxLng := C.Max(maxLng, data[i].lng);
      minLat := C.Min(minLat, data[i].lat);
      maxLat := C.Max(maxLat, data[i].lat);
      i := i + 1;
    }
    assert pts[..i] == pts;
    b := C.Bounds(Pt(minLng, minLat), Pt(maxLng, maxLat));
  }

  /** The bounds of non-empty data hold every item, with `min <= max`. */
  lemma BoundsHoldData(data: seq<GeoData>, k: nat)
    requires k < |data|
    ensures var b := C.BoundsOf(PointsOf(data));
            b.min.x <= data[k].lng <= b.max.x && b.min.y <= data[k].lat <= b.max.y
  {
    C.BoundsTight(PointsOf(data));
    assert C.Inside(C.BoundsOf(PointsOf(data)), PointsOf(data)[k]);
  }

  /** `calculateCenter`: `[0, 0]` for no data, the box's midpoint otherwise. */
  function CalculateCenter(data: seq<GeoData>): (c: Pt)
    ensures |data| == 0 ==> c == Pt(0.0, 0.0)
    ensures |data| > 0 ==> c == C.BoundsCenter(C.BoundsOf(PointsOf(data)))
  {
    if |data| == 0 then Pt(0.0, 0.0) else C.BoundsCenter(C.BoundsOf(PointsOf(data)))
  }

  /** The centre of non-empty data lies inside its bounding box. */
  lemma CenterInside(data: seq<GeoData>)
    requires |data| > 0
    ensures C.Inside(C.BoundsOf(PointsOf(data)), CalculateCenter(data))
  {
    C.BoundsTight(PointsOf(data));
  }

  /** The zoom step function over the larger span. */
  function ZoomForSpan(maxDiff: real): (z: int)
    ensures 1 <= z <= 10
    ensures maxDiff > 50.0 ==> z == 1
    ensures maxDiff <= 0.1 ==> z == 10
  {
    if maxDiff > 50.0 then 1
    else if maxDiff > 20.0 then 2
    else if maxDiff > 10.0 then 3
    else if maxDiff > 5.0 then 4
    else if maxDiff > 2.0 then 5
    else if maxDiff > 1.0 then 6
    else if maxDiff > 0.5 then 7
    else if maxDiff > 0.2 then 8
    else if maxDiff > 0.1 then 9
    else 10
  }

  /** A wider span never zooms in further. */
  lemma ZoomNonIncreasing(d1: real, d2: real)
    requires d1 <= d2
    ensures ZoomForSpan(d2) <= ZoomForSpan(d1)
  {
  }

  /** `calculateZoom`: 1 for no data, otherwise the step for the larger of the two spans. */
  function CalculateZoom(data: seq<GeoData>): (z: int)
    ensures 1 <= z <= 10
    ensures |data| == 0 ==> z == 1
  {
    if |data| == 0 then 1
    else
      var b := C.BoundsOf(PointsOf(data));
      ZoomForSpan(C.Max(b.max.x - b.min.x, b.max.y - b.min.y))
  }

  /** A single item, or items all at one place, get the closest zoom. */
  lemma ZoomOfOnePlace(data: seq<GeoData>)
    requires |data| > 0
    requires forall k :: 0 <= k < |data| ==> data[k].lng == data[0].lng && data[k].lat == data[0].lat
    ensures CalculateZoom(data) == 10
  {
    var b := C.BoundsOf(PointsOf(data));
    C.BoundsTight(PointsOf(data));
    var i :| 0 <= i < |data| && PointsOf(data)[i].x == b.min.x;
    var j :| 0 <= j < |data| && PointsOf(data)[j].x == b.max.x;
    var m :| 0 <= m < |data| && PointsOf(data)[m].y == b.min.y;
    var n :| 0 <= n < |data| && PointsOf(data)[n].y == b.max.y;
  }

  /** `autoConfigGeo`: the centre and the zoom. */
  function AutoConfigGeo(data: seq<GeoData>): (r: (Pt, int))
    ensures r.0 == CalculateCenter(data) && r.1 == CalculateZoom(data)
  {
    (CalculateCenter(data), CalculateZoom(data))
  }

  /** The filters: a value range or a box, both inclusive, or a list of names. */
  datatype Criterion = ValueRange(minValue: real, maxValue: real) | InBox(minLng: real, maxLng: real, minLat: real, maxLat: real)
                     | Named(names: seq<string>)

  predicate Keeps(c: Criterion, d: GeoData)
  {
    match c
    case ValueRange(lo, hi) => lo <= d.value <= hi
    case InBox(x0, x1, y0, y1) => x0 <= d.lng <= x1 && y0 <= d.lat <= y1
    case Named(names) => d.name in names
  }

  /** `filterByValue` and `filterByBounds`: the items the criterion keeps, in order. */
  function Filter(data: seq<GeoData>, c: Criterion): (r: seq<GeoData>)
    ensures |r| <= |data|
  {
    if |data| == 0 then []
    else (if Keeps(c, data[0]) then [data[0]] else []) + Filter(data[1..], c)
  }

  /** The result holds exactly the items the criterion keeps. */
  lemma {:induction false} FilterMembers(data: seq<GeoData>, c: Criterion)
    ensures forall d :: d in Filter(data, c) <==> d in data && Keeps(c, d)
  {
    if |data| > 0 {
      FilterMembers(data[1..], c);
      assert data == [data[0]] + data[1..];
    }
  }

  /** Filtering keeps the input order: filtering a concatenation filters each part. */
  lemma {:induction false} FilterAppend(a: seq<GeoData>, b: seq<GeoData>, c: Criterion)
    ensures Filter(a + b, c) == Filter(a, c) + Filter(b, c)
  {
    if |a| == 0 {
      assert a + b == b;
    } else {
      assert (a + b)[0] == a[0];
      assert (a + b)[1..] == a[1..] + b;
      FilterAppend(a[1..], b, c);
      var h := if Keeps(c, a[0]) then [a[0]] else [];
      calc {
        Filter(a + b, c);
        h + Filter(a[1..] + b, c);
        h + (Filter(a[1..], c) + Filter(b, c));
        (h + Filter(a[1..], c)) + Filter(b, c);
      }
    }
  }

  /** Filtering twice by the same criterion changes nothing more. */
  lemma {:induction false} FilterIdempotent(data: seq<GeoData>, c: Criterion)
    ensures Filter(Filter(data, c), c) == Filter(data, c)
  {
    if |data| > 0 {
      FilterIdempotent(data[1..], c);
      var t := Filter(data[1..], c);
      if Keeps(c, data[0]) {
        var r := [data[0]] + t;
        assert Filter(data, c) == r;
        assert r[0] == data[0] && r[1..] == t;
      } else {
        assert Filter(data, c) == [] + t;
        assert [] + t == t;
      }
    }
  }

  /** What a sort compares: the value, the distance from a centre, or nothing (every pair compares equal). */
  datatype SortKey = ByValue | ByDistance(center: Pt) | Unordered

  function KeyOf(d: GeoData, k: SortKey): real
  {
    match k
    case ByValue => d.value
    case ByDistance(c) => (d.lng - c.x) * (d.lng - c.x) + (d.lat - c.y) * (d.lat - c.y)
    case Unordered => 0.0
  }

  /** The comparator's verdict that `a` may stay before `b`. */
  predicate InOrder(a: GeoData, b: GeoData, k: SortKey, ascending: bool)
  {
    if ascending then KeyOf(a, k) <= KeyOf(b, k) else KeyOf(a, k) >= KeyOf(b, k)
  }

  predicate Sorted(s: seq<GeoData>, k: SortKey, ascending: bool)
  {
    forall i, j :: 0 <= i < j < |s| ==> InOrder(s[i], s[j], k, ascending)
  }

  /** Places `x` before the first element it may precede. */
  function Insert(x: GeoData, s: seq<GeoData>, k: SortKey, ascending: bool): (r: seq<GeoData>)
    ensures multiset(r) == multiset(s) + multiset{x}
    ensures |r| == |s| + 1
  {
    if |s| == 0 then [x]
    else if InOrder(x, s[0], k, ascending) then [x] + s
    else
      assert s == [s[0]] + s[1..];
      [s[0]] + Insert(x, s[1..], k, ascending)
  }

  lemma {:induction false} InsertSorted(x: GeoData, s: seq<GeoData>, k: SortKey, ascending: bool)
    requires Sorted(s, k, ascending)
    ensures Sorted(Insert(x, s, k, ascending), k, ascending)
  {
    if |s| > 0 && !InOrder(x, s[0], k, ascending) {
      InsertSorted(x, s[1..], k, ascending);
      var r := Insert(x, s, k, ascending);
      var t := Insert(x, s[1..], k, ascending);
      assert r == [s[0]] + t;
      InsertAfterHead(x, s, k, ascending);
      forall i, j | 0 <= i < j < |r|
        ensures InOrder(r[i], r[j], k, ascending)
      {
        if i == 0 {
          assert r[j] in t;
        } else {
          assert r[i] == t[i - 1] && r[j] == t[j - 1];
        }
      }
    }
  }

  /** When `x` goes after the head, everything it is inserted among may follow the head. */
  lemma InsertAfterHead(x: GeoData, s: seq<GeoData>, k: SortKey, ascending: bool)
    requires Sorted(s, k, ascending) && |s| > 0 && !InOrder(x, s[0], k, ascending)
    ensures forall y :: y in Insert(x, s[1..], k, ascending) ==> InOrder(s[0], y, k, ascending)
  {
    var t := Insert(x, s[1..], k, ascending);
    forall y | y in t
      ensures InOrder(s[0], y, k, ascending)
    {
      assert y in multiset(t);
      if y != x {
        assert y in multiset(s[1..]);
        var m :| 0 <= m < |s[1..]| && s[1..][m] == y;
        assert s[m + 1] == y;
      }
    }
  }

  /** The stable insertion sort the copy-and-sort yields. */
  function SortBy(s: seq<GeoData>, k: SortKey, ascending: bool): (r: seq<GeoData>)
    ensures multiset(r) == multiset(s)
    ensures |r| == |s|
  {
    if |s| == 0 then []
    else
      assert s == [s[0]] + s[1..];
      Insert(s[0], SortBy(s[1..], k, ascending), k, ascending)
  }

  /** The sort's result is ordered by the comparator. */
  lemma {:induction false} SortBySorted(s: seq<GeoData>, k: SortKey, ascending: bool)
    ensures Sorted(SortBy(s, k, ascending), k, ascending)
  {
    if |s| > 0 {
      SortBySorted(s[1..], k, ascending);
      InsertSorted(s[0], SortBy(s[1..], k, ascending), k, ascending);
    }
  }

  /** The sort is stable: when every pair compares equal the order is kept. */
  lemma {:induction false} SortUnorderedKeeps(s: seq<GeoData>, ascending: bool)
    ensures SortBy(s, Unordered, ascending) == s
  {
    if |s| > 0 {
      SortUnorderedKeeps(s[1..], ascending);
      assert [s[0]] + s[1..] == s;
    }
  }

  /** The items whose key is `v`, in their order. */
  function WithKey(s: seq<GeoData>, k: SortKey, v: real): seq<GeoData>
  {
    if |s| == 0 then []
    else (if KeyOf(s[0], k) == v then [s[0]] else []) + WithKey(s[1..], k, v)
  }

  /** Inserting passes over only items of another key, so among equal keys the new item goes first. */
  lemma {:induction false} InsertWithKey(x: GeoData, t: seq<GeoData>, k: SortKey, ascending: bool, v: real)
    ensures WithKey(Insert(x, t, k, ascending), k, v) == (if KeyOf(x, k) == v then [x] else []) + WithKey(t, k, v)
  {
    if |t| > 0 && !InOrder(x, t[0], k, ascending) {
      InsertWithKey(x, t[1..], k, ascending, v);
      assert Insert(x, t, k, ascending) == [t[0]] + Insert(x, t[1..], k, ascending);
      assert [t[0]] + t[1..] == t;
      PassOver(x, t[0], t[1..], Insert(x, t[1..], k, ascending), k, ascending, v);
    } else {
      assert Insert(x, t, k, ascending) == [x] + t;
      WithKeyCons(x, t, k, v);
    }
  }

  /** Passing over an item the new one may not precede keeps the items of each key in their order. */
  lemma PassOver(x: GeoData, y: GeoData, rest: seq<GeoData>, inserted: seq<GeoData>, k: SortKey, ascending: bool, v: real)
    requires !InOrder(x, y, k, ascending)
    requires WithKey(inserted, k, v) == (if KeyOf(x, k) == v then [x] else []) + WithKey(rest, k, v)
    ensures WithKey([y] + inserted, k, v) == (if KeyOf(x, k) == v then [x] else []) + WithKey([y] + rest, k, v)
  {
    WithKeyCons(y, inserted, k, v);
    WithKeyCons(y, rest, k, v);
    if KeyOf(x, k) == v {
      assert KeyOf(y, k) != v;
    }
  }

  /** The items of a key in a list with a head put before them. */
  lemma WithKeyCons(d: GeoData, s: seq<GeoData>, k: SortKey, v: real)
    ensures WithKey([d] + s, k, v) == (if KeyOf(d, k) == v then [d] else []) + WithKey(s, k, v)
  {
    assert ([d] + s)[1..] == s;
  }

  /** The sort is stable: the items of each key keep their relative order. */
  lemma {:induction false} SortByStable(s: seq<GeoData>, k: SortKey, ascending: bool, v: real)
    ensures WithKey(SortBy(s, k, ascending), k, v) == WithKey(s, k, v)
  {
    if |s| > 0 {
      SortByStable(s[1..], k, ascending, v);
      InsertWithKey(s[0], SortBy(s[1..], k, ascending), k, ascending, v);
    }
  }

  /** `sortByValue`: a sorted permutation of a copy; the input itself is a value and stays as it was. */
  function SortByValue(data: seq<GeoData>, ascending: bool): (r: seq<GeoData>)
    ensures multiset(r) == multiset(data)
  {
    SortBy(data, ByValue, ascending)
  }

  lemma SortByValueSorted(data: seq<GeoData>, ascending: bool)
    ensures var r := SortByValue(data, ascending);
            forall i, j :: 0 <= i < j < |r| ==> if ascending then r[i].value <= r[j].value else r[i].value >= r[j].value
  {
    SortBySorted(data, ByValue, ascending);
  }

  /** `sortByDistance`: ordered by distance from the centre, compared through the squared distance. */
  function SortByDistance(data: seq<GeoData>, center: Pt, ascending: bool): (r: seq<GeoData>)
    ensures multiset(r) == multiset(data)
  {
    SortBy(data, ByDistance(center), ascending)
  }

  lemma SortByDistanceSorted(data: seq<GeoData>, center: Pt, ascending: bool)
    ensures Sorted(SortByDistance(data, center, ascending), ByDistance(center), ascending)
  {
    SortBySorted(data, ByDistance(center), ascending);
  }

  /** `item[regionKey] || 'unknown'`: the item's text under that property, "unknown" when missing or empty. */
  function RegionOf(d: GeoData, regionKey: string): (r: string)
    ensures r != ""
  {
    var v := if regionKey == "name" then d.name else if regionKey in d.fields then d.fields[regionKey] else "";
    if v == "" then "unknown" else v
  }

  /** `aggregateByRegion`'s grouping key for a property name. */
  function RegionKey(regionKey: string): (f: GeoData -> string)
    ensures forall d :: f(d) == RegionOf(d, regionKey)
  {
    d => RegionOf(d, regionKey)
  }

  /** The items whose key is `g`, in input order. */
  function ItemsWith(data: seq<GeoData>, key: GeoData -> string, g: string): (r: seq<GeoData>)
    ensures forall d :: d in r <==> d in data && key(d) == g
  {
    if |data| == 0 then []
    else
      var front := ItemsWith(data[..|data| - 1], key, g);
      assert forall d :: d in data <==> d in data[..|data| - 1] || d == data[|data| - 1];
      if key(data[|data| - 1]) == g then front + [data[|data| - 1]] else front
  }

  /** A key no item has gets no items. */
  lemma {:induction false} ItemsWithAbsent(data: seq<GeoData>, key: GeoData -> string, g: string)
    requires forall k :: 0 <= k < |data| ==> key(data[k]) != g
    ensures ItemsWith(data, key, g) == []
  {
    if |data| > 0 {
      ItemsWithAbsent(data[..|data| - 1], key, g);
    }
  }

  /** The grouping of the items: each item appended to its key's list in turn. */
  function Grouped(data: seq<GeoData>, key: GeoData -> string): map<string, seq<GeoData>>
  {
    if |data| == 0 then map[]
    else
      var m := Grouped(data[..|data| - 1], key);
      var d := data[|data| - 1];
      var g := key(d);
      m[g := (if g in m then m[g] else []) + [d]]
  }

  /**
   * The grouping partitions the data: its keys are exactly the keys that
   * occur, and each key's list is that key's items in input order.
   */
  lemma {:induction false} GroupedPartition(data: seq<GeoData>, key: GeoData -> string)
    ensures forall g :: g in Grouped(data, key) <==> exists d :: d in data && key(d) == g
    ensures forall g :: g in Grouped(data, key) ==> Grouped(data, key)[g] == ItemsWith(data, key, g)
  {
    if |data| > 0 {
      var n := |data| - 1;
      var init := data[..n];
      GroupedPartition(init, key);
      assert forall d :: d in data <==> d in init || d == data[n];
      var m := Grouped(data, key);
      forall g | g in m
        ensures m[g] == ItemsWith(data, key, g)
      {
        if g != key(data[n]) {
          assert g in Grouped(init, key);
        } else if g !in Grouped(init, key) {
          ItemsWithAbsent(init, key, g);
          assert m[g] == [] + [data[n]];
        }
      }
    }
  }

  /** The key of each item, in order. */
  function KeysOf(data: seq<GeoData>, key: GeoData -> string): (r: seq<string>)
    ensures |r| == |data|
    ensures forall k :: 0 <= k < |data| ==> r[k] == key(data[k])
  {
    seq(|data|, k requires 0 <= k < |data| => key(data[k]))
  }

  /** The grouping as the `Map` (or record) lists it: the keys in the order each was first met. */
  function GroupedInOrder(data: seq<GeoData>, key: GeoData -> string): OM.OrderedMap<string, seq<GeoData>>
  {
    OM.OrderedMap(OM.FirstSeen(KeysOf(data, key)), Grouped(data, key))
  }

  /**
   * The ordered grouping is a well-formed map whose keys are listed in the
   * order of their first items: a key listed earlier has its first item
   * earlier in the data.
   */
  lemma GroupedInOrderValid(data: seq<GeoData>, key: GeoData -> string)
    ensures OM.Valid(GroupedInOrder(data, key))
    ensures var ks := GroupedInOrder(data, key).keys;
            forall i, j :: 0 <= i < j < |ks| ==> OM.FirstIndex(KeysOf(data, key), ks[i]) < OM.FirstIndex(KeysOf(data, key), ks[j])
  {
    GroupedKeysListed(data, key);
    OM.FirstSeenOrder(KeysOf(data, key));
  }

  /** A key has a group exactly when it is listed. */
  lemma GroupedKeysListed(data: seq<GeoData>, key: GeoData -> string)
    ensures forall g :: g in Grouped(data, key) <==> g in OM.FirstSeen(KeysOf(data, key))
  {
    GroupedPartition(data, key);
    OM.FirstSeenOrder(KeysOf(data, key));
    var ks := KeysOf(data, key);
    forall g
      ensures g in ks <==> exists d :: d in data && key(d) == g
    {
      if g in ks {
        var k :| 0 <= k < |ks| && ks[k] == g;
        assert data[k] in data;
      }
    }
  }

  /** The one-pass grouping loop shared by `aggregateByRegion` and `groupData`. */
  method GroupBy(data: seq<GeoData>, key: GeoData -> string) returns (groups: OM.OrderedMap<string, seq<GeoData>>)
    ensures groups == GroupedInOrder(data, key)
  {
    groups := OM.Empty();
    var i := 0;
    while i < |data|
      invariant 0 <= i <= |data|
      invariant groups == GroupedInOrder(data[..i], key)
    {
      var g := key(data[i]);
      assert KeysOf(data[..i + 1], key) == KeysOf(data[..i], key) + [g];
      assert data[..i + 1][..i] == data[..i];
      GroupedKeysListed(data[..i], key);
      if g !in groups.entries {
        groups := OM.Set(groups, g, []);
      }
      groups := OM.Set(groups, g, groups.entries[g] + [data[i]]);
      i := i + 1;
    }
    assert data[..i] == data;
  }

  /** `aggregateByRegion`: a record from region to its items, the regions in the order first met. */
  method AggregateByRegion(data: seq<GeoData>, regionKey: string) returns (result: OM.OrderedMap<string, seq<GeoData>>)
    ensures result == GroupedInOrder(data, RegionKey(regionKey))
  {
    result := GroupBy(data, RegionKey(regionKey));
  }

  /** Every item lands in its own region's list and nowhere else, and no list is empty. */
  lemma AggregatePartitions(data: seq<GeoData>, regionKey: string)
    ensures var m := Grouped(data, RegionKey(regionKey));
            (forall d :: d in data ==> RegionOf(d, regionKey) in m && d in m[RegionOf(d, regionKey)])
            && (forall g, d :: g in m && d in m[g] ==> d in data && RegionOf(d, regionKey) == g)
            && (forall g :: g in m ==> |m[g]| > 0)
  {
    var key := RegionKey(regionKey);
    GroupedPartition(data, key);
    var m := Grouped(data, key);
    forall g | g in m
      ensures |m[g]| > 0
    {
      var d :| d in data && key(d) == g;
      assert d in m[g];
    }
  }

  const DefaultScheme: seq<string> := ["#ff6b6b", "#4ecdc4", "#45b7d1", "#96ceb4", "#feca57"]

  function MinValue(data: seq<GeoData>): (m: real)
    requires |data| > 0
    ensures forall k :: 0 <= k < |data| ==> m <= data[k].value
    ensures exists k :: 0 <= k < |data| && m == data[k].value
  {
    if |data| == 1 then data[0].value
    else
      var rest := MinValue(data[1..]);
      assert forall k :: 1 <= k < |data| ==> data[k] == data[1..][k - 1];
      if data[0].value <= rest then data[0].value else rest
  }

  function MaxValue(data: seq<GeoData>): (m: real)
    requires |data| > 0
    ensures forall k :: 0 <= k < |data| ==> data[k].value <= m
    ensures exists k :: 0 <= k < |data| && m == data[k].value
  {
    if |data| == 1 then data[0].value
    else
      var rest := MaxValue(data[1..]);
      assert forall k :: 1 <= k < |data| ==> data[k] == data[1..][k - 1];
      if data[0].value >= rest then data[0].value else rest
  }

  /** `values.reduce((sum, v) => sum + v, 0)`. */
  function Sum(values: seq<real>): real
  {
    if |values| == 0 then 0.0 else values[0] + Sum(values[1..])
  }

  /** The values of the items, in order. */
  function ValuesOf(data: seq<GeoData>): (r: seq<real>)
    ensures |r| == |data|
    ensures forall k :: 0 <= k < |data| ==> r[k] == data[k].value
  {
    seq(|data|, k requires 0 <= k < |data| => data[k].value)
  }

  /** The total of the items' values. */
  function Total(data: seq<GeoData>): real
  {
    if |data| == 0 then 0.0 else data[0].value + Total(data[1..])
  }

  /** The total is the sum of the values. */
  lemma {:induction false} TotalIsSum(data: seq<GeoData>)
    ensures Total(data) == Sum(ValuesOf(data))
  {
    if |data| > 0 {
      TotalIsSum(data[1..]);
      assert ValuesOf(data)[1..] == ValuesOf(data[1..]);
    }
  }

  /** Each value's squared distance from a mean. */
  function SquaredDeviations(values: seq<real>, mean: real): (r: seq<real>)
    ensures |r| == |values|
  {
    seq(|values|, k requires 0 <= k < |values| => (values[k] - mean) * (values[k] - mean))
  }

  /** Taking one item out of the middle takes its value out of the total. */
  lemma {:induction false} TotalRemove(s: seq<GeoData>, k: nat)
    requires k < |s|
    ensures Total(s) == s[k].value + Total(s[..k] + s[k + 1..])
  {
    if k > 0 {
      TotalRemove(s[1..], k - 1);
      RemoveAfterHead(s, k);
    } else {
      assert s[..0] + s[1..] == s[1..];
    }
  }

  /** Taking out an item after the head keeps the head first. */
  lemma RemoveAfterHead(s: seq<GeoData>, k: nat)
    requires 0 < k < |s|
    ensures s[..k] + s[k + 1..] == [s[0]] + (s[1..][..k - 1] + s[1..][k..])
  {
  }

  /** Taking one item out of the middle takes it out of the multiset. */
  lemma MultisetRemove(s: seq<GeoData>, k: nat)
    requires k < |s|
    ensures multiset(s[..k] + s[k + 1..]) == multiset(s) - multiset{s[k]}
  {
    assert s == s[..k] + [s[k]] + s[k + 1..];
    assert multiset(s) == multiset(s[..k]) + multiset{s[k]} + multiset(s[k + 1..]);
  }

  /** The first item of a sequence has a match in any permutation of it, and the rests are permutations too. */
  lemma MatchHead(a: seq<GeoData>, b: seq<GeoData>) returns (k: nat)
    requires |a| > 0 && multiset(a) == multiset(b)
    ensures k < |b| && b[k] == a[0] && multiset(a[1..]) == multiset(b[..k] + b[k + 1..])
  {
    assert a[0] in multiset(b);
    k :| 0 <= k < |b| && b[k] == a[0];
    assert a == [a[0]] + a[1..];
    assert multiset(a) == multiset{a[0]} + multiset(a[1..]);
    MultisetRemove(b, k);
  }

  /** The total does not depend on the order of the items. */
  lemma {:induction false} TotalPermutation(a: seq<GeoData>, b: seq<GeoData>)
    requires multiset(a) == multiset(b)
    ensures Total(a) == Total(b)
  {
    if |a| > 0 {
      var k := MatchHead(a, b);
      TotalPermutation(a[1..], b[..k] + b[k + 1..]);
      TotalRemove(b, k);
      assert Total(a) == a[0].value + Total(a[1..]);
    } else {
      assert |b| == |multiset(b)| == 0;
    }
  }

  /** Each value is at most the next. */
  predicate Ascending(values: seq<real>)
  {
    forall i, j :: 0 <= i < j < |values| ==> values[i] <= values[j]
  }

  /** Sorting the items by value ascending lists their values ascending, and the same values. */
  lemma SortedValues(data: seq<GeoData>)
    ensures var sv := ValuesOf(SortBy(data, ByValue, true));
            Ascending(sv) && multiset(sv) == multiset(ValuesOf(data))
  {
    SortBySorted(data, ByValue, true);
    ValuesPermutation(SortBy(data, ByValue, true), data);
  }

  /** The values of a permutation of the items are a permutation of their values. */
  lemma {:induction false} ValuesPermutation(a: seq<GeoData>, b: seq<GeoData>)
    requires multiset(a) == multiset(b)
    ensures multiset(ValuesOf(a)) == multiset(ValuesOf(b))
  {
    if |a| == 0 {
      assert |b| == |multiset(b)| == 0;
    } else {
      var k := MatchHead(a, b);
      var rest := b[..k] + b[k + 1..];
      ValuesPermutation(a[1..], rest);
      var va, vb := ValuesOf(a), ValuesOf(b);
      assert va == [a[0].value] + ValuesOf(a[1..]);
      assert ValuesOf(rest) == vb[..k] + vb[k + 1..];
      assert vb == vb[..k] + [vb[k]] + vb[k + 1..];
      assert multiset(vb) == multiset(vb[..k]) + multiset{vb[k]} + multiset(vb[k + 1..]);
    }
  }

  /** Two ascending lists of the same values are the same list. */
  lemma {:induction false} AscendingUnique(a: seq<real>, b: seq<real>)
    requires Ascending(a) && Ascending(b) && multiset(a) == multiset(b)
    ensures a == b
  {
    if |a| == 0 {
      assert |b| == |multiset(b)| == 0;
    } else {
      assert |b| == |multiset(b)| == |a|;
      assert a[0] == b[0] by {
        HeadLeast(a, b);
        HeadLeast(b, a);
      }
      assert a[1..] == b[1..] by {
        TailPermutation(a, b);
        AscendingUnique(a[1..], b[1..]);
      }
      assert a == [a[0]] + a[1..] && b == [b[0]] + b[1..];
    }
  }

  /** The head of an ascending list is at most every value of a permutation of it. */
  lemma HeadLeast(a: seq<real>, b: seq<real>)
    requires |b| > 0 && Ascending(a) && multiset(a) == multiset(b)
    ensures |a| > 0 && a[0] <= b[0]
  {
    assert b[0] in multiset(a);
    var i :| 0 <= i < |a| && a[i] == b[0];
  }

  /** Lists with the same values and the same head have tails with the same values. */
  lemma TailPermutation(a: seq<real>, b: seq<real>)
    requires |a| > 0 && |b| > 0 && a[0] == b[0] && multiset(a) == multiset(b)
    ensures multiset(a[1..]) == multiset(b[1..])
  {
    assert a == [a[0]] + a[1..] && b == [b[0]] + b[1..];
    assert multiset(a) == multiset{a[0]} + multiset(a[1..]);
    assert multiset(b) == multiset{b[0]} + multiset(b[1..]);
    assert multiset(a[1..]) == multiset(a) - multiset{a[0]};
    assert multiset(b[1..]) == multiset(b) - multiset{b[0]};
  }

  /** The smallest and the largest value do not depend on the order either. */
  lemma MinMaxPermutation(a: seq<GeoData>, b: seq<GeoData>)
    requires |a| > 0 && multiset(a) == multiset(b)
    ensures |b| > 0 && MinValue(a) == MinValue(b) && MaxValue(a) == MaxValue(b)
  {
    assert a[0] in multiset(b);
    assert forall d :: d in a <==> d in b by {
      forall d
        ensures d in a <==> d in b
      {
        assert d in a <==> d in multiset(a);
        assert d in b <==> d in multiset(b);
      }
    }
    var ka :| 0 <= ka < |a| && MinValue(a) == a[ka].value;
    var kb :| 0 <= kb < |b| && MinValue(b) == b[kb].value;
    assert a[ka] in b && b[kb] in a;
    var ja :| 0 <= ja < |a| && MaxValue(a) == a[ja].value;
    var jb :| 0 <= jb < |b| && MaxValue(b) == b[jb].value;
    assert a[ja] in b && b[jb] in a;
  }

  /** `n * lo <= total <= n * hi` when every value lies in `[lo, hi]`. */
  lemma {:induction false} TotalBounds(data: seq<GeoData>, lo: real, hi: real)
    requires forall k :: 0 <= k < |data| ==> lo <= data[k].value <= hi
    ensures |data| as real * lo <= Total(data) <= |data| as real * hi
  {
    if |data| > 0 {
      TotalBounds(data[1..], lo, hi);
      assert |data| as real * lo == lo + (|data| - 1) as real * lo;
      assert |data| as real * hi == hi + (|data| - 1) as real * hi;
    }
  }

  /** The mean lies between the smallest and the largest value. */
  lemma {:induction false} MeanBetween(data: seq<GeoData>)
    requires |data| > 0
    ensures MinValue(data) <= Total(data) / |data| as real <= MaxValue(data)
  {
    MeanWithin(data, MinValue(data), MaxValue(data));
  }

  /** A mean lies within any bounds on the values. */
  lemma MeanWithin(data: seq<GeoData>, lo: real, hi: real)
    requires |data| > 0
    requires forall k :: 0 <= k < |data| ==> lo <= data[k].value <= hi
    ensures lo <= Total(data) / |data| as real <= hi
  {
    TotalBounds(data, lo, hi);
    DivideBounds(Total(data), |data| as real, lo, hi);
  }

  lemma DivideBounds(total: real, n: real, lo: real, hi: real)
    requires n > 0.0 && n * lo <= total <= n * hi
    ensures lo <= total / n <= hi
  {
    var q := total / n;
    assert n * (q - lo) == total - n * lo;
    assert n * (hi - q) == n * hi - total;
  }

  /** `x * n` stays within `[0, n]` for `x` in `[0, 1]`. */
  lemma ScaleWithin(x: real, n: real)
    requires 0.0 <= x <= 1.0 && 0.0 <= n
    ensures 0.0 <= x * n <= n
  {
    assert x * n <= 1.0 * n by {
      assert (1.0 - x) * n >= 0.0;
    }
  }

  /**
   * The colour of one value: the scheme entry at `floor(normalised * (n - 1))`,
   * or the first entry when that one is empty or the range is zero (0 / 0
   * is NaN); none when the scheme itself is empty.
   */
  function ColorFor(value: real, lo: real, hi: real, scheme: seq<string>): (c: Option<string>)
    requires lo <= value <= hi
    ensures |scheme| == 0 <==> c.None?
    ensures c.Some? ==> c.value in scheme
    ensures hi == lo && |scheme| > 0 ==> c == Some(scheme[0])
  {
    if hi == lo then (if |scheme| > 0 then Some(scheme[0]) else None)
    else if |scheme| == 0 then None
    else
      var normalized := (value - lo) / (hi - lo);
      assert 0.0 <= normalized <= 1.0 by {
        assert normalized * (hi - lo) == value - lo;
      }
      ScaleWithin(normalized, (|scheme| - 1) as real);
      var index := (normalized * (|scheme| - 1) as real).Floor;
      assert 0 <= index < |scheme|;
      if scheme[index] != "" then Some(scheme[index]) else Some(scheme[0])
  }

  /** The colour map of the first items, each value set to its colour in turn. */
  function ColorMapOf(data: seq<GeoData>, lo: real, hi: real, scheme: seq<string>): map<real, Option<string>>
    requires forall k :: 0 <= k < |data| ==> lo <= data[k].value <= hi
  {
    if |data| == 0 then map[]
    else
      var n := |data| - 1;
      assert forall k :: 0 <= k < n ==> data[..n][k] == data[k];
      ColorMapOf(data[..n], lo, hi, scheme)[data[n].value := ColorFor(data[n].value, lo, hi, scheme)]
  }

  /** The map's keys are exactly the items' values, and each is mapped to its colour. */
  lemma {:induction false} ColorMapMembers(data: seq<GeoData>, lo: real, hi: real, scheme: seq<string>)
    requires forall k :: 0 <= k < |data| ==> lo <= data[k].value <= hi
    ensures var m := ColorMapOf(data, lo, hi, scheme);
            (forall v :: v in m <==> exists k :: 0 <= k < |data| && data[k].value == v)
            && (forall v :: v in m ==> lo <= v <= hi && m[v] == ColorFor(v, lo, hi, scheme))
  {
    if |data| > 0 {
      var n := |data| - 1;
      assert forall k :: 0 <= k < n ==> data[..n][k] == data[k];
      ColorMapMembers(data[..n], lo, hi, scheme);
    }
  }

  /** The colour map as the `Map` lists it: the values in the order each was first met. */
  function ColorMapInOrder(data: seq<GeoData>, lo: real, hi: real, scheme: seq<string>): OM.OrderedMap<real, Option<string>>
    requires forall k :: 0 <= k < |data| ==> lo <= data[k].value <= hi
  {
    OM.OrderedMap(OM.FirstSeen(ValuesOf(data)), ColorMapOf(data, lo, hi, scheme))
  }

  /**
   * The ordered colour map is well formed, and lists the values in the
   * order of their first items.
   */
  lemma ColorMapInOrderValid(data: seq<GeoData>, lo: real, hi: real, scheme: seq<string>)
    requires forall k :: 0 <= k < |data| ==> lo <= data[k].value <= hi
    ensures OM.Valid(ColorMapInOrder(data, lo, hi, scheme))
    ensures var vs := ColorMapInOrder(data, lo, hi, scheme).keys;
            forall i, j :: 0 <= i < j < |vs| ==> OM.FirstIndex(ValuesOf(data), vs[i]) < OM.FirstIndex(ValuesOf(data), vs[j])
  {
    ColorKeysListed(data, lo, hi, scheme);
    OM.FirstSeenOrder(ValuesOf(data));
  }

  /** A value has a colour exactly when it is listed. */
  lemma ColorKeysListed(data: seq<GeoData>, lo: real, hi: real, scheme: seq<string>)
    requires forall k :: 0 <= k < |data| ==> lo <= data[k].value <= hi
    ensures forall v :: v in ColorMapOf(data, lo, hi, scheme) <==> v in OM.FirstSeen(ValuesOf(data))
  {
    ColorMapMembers(data, lo, hi, scheme);
    OM.FirstSeenOrder(ValuesOf(data));
  }

  /** One more item sets its value to its colour. */
  lemma ColorMapStep(data: seq<GeoData>, i: nat, lo: real, hi: real, scheme: seq<string>)
    requires i < |data| && forall k :: 0 <= k < |data| ==> lo <= data[k].value <= hi
    ensures forall k :: 0 <= k < i + 1 ==> data[..i + 1][k] == data[k]
    ensures ColorMapInOrder(data[..i + 1], lo, hi, scheme)
            == OM.Set(ColorMapInOrder(data[..i], lo, hi, scheme), data[i].value, ColorFor(data[i].value, lo, hi, scheme))
  {
    assert data[..i + 1][..i] == data[..i];
    assert ValuesOf(data[..i + 1]) == ValuesOf(data[..i]) + [data[i].value];
    ColorKeysListed(data[..i], lo, hi, scheme);
  }

  /**
   * `generateColorMap`: each item's value maps to its colour, the scheme
   * defaulting to five colours, and the values listed in the order first met.
   */
  method GenerateColorMap(data: seq<GeoData>, colorScheme: Option<seq<string>>) returns (colorMap: OM.OrderedMap<real, Option<string>>)
    ensures |data| == 0 ==> colorMap == OM.Empty()
    ensures |data| > 0 ==> colorMap == ColorMapInOrder(data, MinValue(data), MaxValue(data), colorScheme.GetOr(DefaultScheme))
  {
    colorMap := OM.Empty();
    if |data| == 0 {
      return;
    }
    var scheme := colorScheme.GetOr(DefaultScheme);
    var lo := MinValue(data);
    var hi := MaxValue(data);
    var i := 0;
    while i < |data|
      invariant 0 <= i <= |data|
      invariant forall k :: 0 <= k < i ==> data[..i][k] == data[k]
      invariant colorMap == ColorMapInOrder(data[..i], lo, hi, scheme)
    {
      ColorMapStep(data, i, lo, hi, scheme);
      colorMap := OM.Set(colorMap, data[i].value, ColorFor(data[i].value, lo, hi, scheme));
      assert forall k :: 0 <= k < i + 1 ==> data[..i + 1][k] == data[k];
      i := i + 1;
    }
    assert data[..i] == data;
  }

  /** Every colour handed out comes from the scheme; when all values are equal each gets the first colour. */
  lemma ColorMapFromScheme(data: seq<GeoData>, scheme: seq<string>)
    requires |data| > 0 && |scheme| > 0
    ensures var m := ColorMapOf(data, MinValue(data), MaxValue(data), scheme);
            forall v :: v in m ==> m[v].Some? && m[v].value in scheme
    ensures (forall k :: 0 <= k < |data| ==> data[k].value == data[0].value) ==>
              var m := ColorMapOf(data, MinValue(data), MaxValue(data), scheme);
              forall v :: v in m ==> m[v] == Some(scheme[0])
  {
    ColorMapMembers(data, MinValue(data), MaxValue(data), scheme);
  }
}
