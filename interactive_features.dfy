// The interactive features (packages/core/src/interactive-features.ts): the
// search index and the search over it, the value, bounds and name filters
// and their combination, sorting, statistics, grouping, and the CSV export
// and import. The index is the object's state; the other operations only
// read their arguments. Number formatting, `parseFloat` and `Math.sqrt` are
// parameters.
module InteractiveFeatures {
  import opened Wrappers
  import opened GeoTypes
  import opened MapTypes
  import GU = GeoUtils
  import OM = OrderedMaps
  import T = Text

  /**
   * The character table of `getPinyinInitials`: the initial of each listed
   * city character; any other character stands for itself.
   */
  function PinyinChar(c: char): (r: char)
    ensures r == c || 'A' <= r <= 'Z'
    ensures 'A' <= c <= 'Z' ==> r == c
  {
    match c
    case '北' => 'B'
    case '京' => 'J'
    case '上' => 'S'
    case '海' => 'H'
    case '广' => 'G'
    case '州' => 'Z'
    case '深' => 'S'
    case '圳' => 'Z'
    case '杭' => 'H'
    case '南' => 'N'
    case '武' => 'W'
    case '汉' => 'H'
    case '成' => 'C'
    case '都' => 'D'
    case '西' => 'X'
    case '安' => 'A'
    case '重' => 'C'
    case '庆' => 'Q'
    case '天' => 'T'
    case '津' => 'J'
    case '苏' => 'S'
    case '青' => 'Q'
    case '岛' => 'D'
    case '大' => 'D'
    case '连' => 'L'
    case '宁' => 'N'
    case '波' => 'B'
    case '厦' => 'X'
    case '门' => 'M'
    case '福' => 'F'
    case '长' => 'C'
    case '沙' => 'S'
    case '郑' => 'Z'
    case '济' => 'J'
    case '太' => 'T'
    case '原' => 'Y'
    case '石' => 'S'
    case '家' => 'J'
    case '庄' => 'Z'
    case '哈' => 'H'
    case '尔' => 'E'
    case '滨' => 'B'
    case '春' => 'C'
    case '沈' => 'S'
    case '阳' => 'Y'
    case '呼' => 'H'
    case '和' => 'H'
    case '浩' => 'H'
    case '特' => 'T'
    case '银' => 'Y'
    case '川' => 'C'
    case '兰' => 'L'
    case '乌' => 'W'
    case '鲁' => 'L'
    case '木' => 'M'
    case '齐' => 'Q'
    case '拉' => 'L'
    case '萨' => 'S'
    case '昆' => 'K'
    case '明' => 'M'
    case '贵' => 'G'
    case '口' => 'K'
    case '三' => 'S'
    case '亚' => 'Y'
    case _ => c
  }

  /** `getPinyinInitials`: each character through the table, any other left as it is. */
  function PinyinInitials(text: string): (r: string)
    ensures |r| == |text|
    ensures forall k :: 0 <= k < |text| ==> r[k] == PinyinChar(text[k])
  {
    seq(|text|, k requires 0 <= k < |text| => PinyinChar(text[k]))
  }

  /** Taking the initials of initials changes nothing more. */
  lemma {:induction false} PinyinIdempotent(text: string)
    ensures PinyinInitials(PinyinInitials(text)) == PinyinInitials(text)
  {
  }

  // ---------------------------------------------------------------------
  // The search index: the keys in insertion order and the items under each.

  datatype Index = Index(order: seq<string>, entries: map<string, seq<GeoData>>)

  /** The keys are listed once each, and exactly the keys of the entries are listed. */
  ghost predicate WellFormed(ix: Index)
  {
    (forall i, j :: 0 <= i < j < |ix.order| ==> ix.order[i] != ix.order[j])
    && (forall k :: k in ix.entries <==> k in ix.order)
  }

  const EmptyIndex: Index := Index([], map[])

  /** The items under a key, none when the key is absent. */
  function Get(ix: Index, key: string): seq<GeoData>
  {
    if key in ix.entries then ix.entries[key] else []
  }

  /** `addToIndex`: a new key is listed last with no items; the item is appended under its key. */
  function Add(ix: Index, key: string, item: GeoData): Index
  {
    if key in ix.entries then Index(ix.order, ix.entries[key := ix.entries[key] + [item]])
    else Index(ix.order + [key], ix.entries[key := [item]])
  }

  /** The item goes last under its key, a new key goes last in the order, and no other key changes. */
  lemma AddEffect(ix: Index, key: string, item: GeoData)
    ensures var r := Add(ix, key, item);
            && (WellFormed(ix) ==> WellFormed(r))
            && key in r.entries && r.entries[key] == Get(ix, key) + [item]
            && (forall k :: k != key ==> Get(r, k) == Get(ix, k) && (k in r.entries <==> k in ix.entries))
            && (key in ix.entries ==> r.order == ix.order)
            && (key !in ix.entries ==> r.order == ix.order + [key])
  {
  }

  /** The item added under each key in turn. */
  function AddKeys(ix: Index, keys: seq<string>, item: GeoData): (r: Index)
    ensures WellFormed(ix) ==> WellFormed(r)
  {
    if |keys| == 0 then ix
    else
      AddEffect(AddKeys(ix, keys[..|keys| - 1], item), keys[|keys| - 1], item);
      Add(AddKeys(ix, keys[..|keys| - 1], item), keys[|keys| - 1], item)
  }

  /** Adding under one more key is one more `Add`. */
  lemma AddKeysSnoc(ix: Index, keys: seq<string>, n: nat, item: GeoData)
    requires n < |keys|
    ensures AddKeys(ix, keys[..n + 1], item) == Add(AddKeys(ix, keys[..n], item), keys[n], item)
  {
    assert keys[..n + 1][..n] == keys[..n];
  }

  /** After adding under some keys, a key holds an item exactly when it held it before or is one of those keys. */
  lemma {:induction false} AddKeysContents(ix: Index, keys: seq<string>, item: GeoData)
    ensures forall k :: k in AddKeys(ix, keys, item).entries <==> k in ix.entries || k in keys
    ensures forall k, d :: d in Get(AddKeys(ix, keys, item), k) <==> d in Get(ix, k) || (d == item && k in keys)
  {
    if |keys| > 0 {
      var n := |keys| - 1;
      AddKeysContents(ix, keys[..n], item);
      AddEffect(AddKeys(ix, keys[..n], item), keys[n], item);
      assert forall k :: k in keys <==> k in keys[..n] || k == keys[n];
    }
  }

  /** Every suffix of a string, longest first. */
  function Suffixes(s: string): (r: seq<string>)
    ensures |r| == |s|
    ensures forall k :: 0 <= k < |s| ==> r[k] == s[k..]
  {
    seq(|s|, k requires 0 <= k < |s| => s[k..])
  }

  /**
   * The keys `buildSearchIndex` files an item under as written: its
   * lowered name, its pinyin initials, and each suffix of its lowered name.
   */
  function KeysAsWritten(d: GeoData): (r: seq<string>)
    ensures |r| == |d.name| + 2
    ensures r[0] == T.Lower(d.name) && r[1] == PinyinInitials(d.name)
    ensures forall k :: 0 <= k < |d.name| ==> r[k + 2] == T.Lower(d.name)[k..]
  {
    [T.Lower(d.name), PinyinInitials(d.name)] + Suffixes(T.Lower(d.name))
  }

  /** The same keys with the initials lowered too, so that a lowered query can reach them. */
  function KeysFor(d: GeoData): (r: seq<string>)
    ensures |r| == |d.name| + 2
    ensures r[0] == T.Lower(d.name) && r[1] == T.Lower(PinyinInitials(d.name))
    ensures forall k :: 0 <= k < |d.name| ==> r[k + 2] == T.Lower(d.name)[k..]
  {
    [T.Lower(d.name), T.Lower(PinyinInitials(d.name))] + Suffixes(T.Lower(d.name))
  }

  /** The index built from the data, item after item. */
  function Built(data: seq<GeoData>, keysFor: GeoData -> seq<string>): (r: Index)
    ensures WellFormed(r)
  {
    if |data| == 0 then EmptyIndex
    else
      var n := |data| - 1;
      AddKeys(Built(data[..n], keysFor), keysFor(data[n]), data[n])
  }

  /** Building over one more item is filing that item under its keys. */
  lemma BuiltSnoc(data: seq<GeoData>, keysFor: GeoData -> seq<string>, i: nat)
    requires i < |data|
    ensures Built(data[..i + 1], keysFor) == AddKeys(Built(data[..i], keysFor), keysFor(data[i]), data[i])
  {
    assert data[..i + 1][..i] == data[..i];
  }

  /** A key holds an item exactly when the item is in the data and files under that key. */
  lemma {:induction false} BuiltItems(data: seq<GeoData>, keysFor: GeoData -> seq<string>)
    ensures forall k, d :: d in Get(Built(data, keysFor), k) <==> d in data && k in keysFor(d)
  {
    if |data| > 0 {
      var n := |data| - 1;
      BuiltItems(data[..n], keysFor);
      AddKeysContents(Built(data[..n], keysFor), keysFor(data[n]), data[n]);
      assert forall d :: d in data <==> d in data[..n] || d == data[n];
    }
  }

  /** The index's keys are exactly the keys some item of the data files under. */
  lemma {:induction false} BuiltKeys(data: seq<GeoData>, keysFor: GeoData -> seq<string>)
    ensures forall k :: k in Built(data, keysFor).entries <==> exists d :: d in data && k in keysFor(d)
  {
    if |data| > 0 {
      var n := |data| - 1;
      BuiltKeys(data[..n], keysFor);
      AddKeysContents(Built(data[..n], keysFor), keysFor(data[n]), data[n]);
      assert forall d :: d in data <==> d in data[..n] || d == data[n];
    }
  }

  /** An item of the data is filed under each of its keys. */
  lemma {:induction false} BuiltHolds(data: seq<GeoData>, keysFor: GeoData -> seq<string>, d: GeoData, k: string)
    requires d in data && k in keysFor(d)
    ensures d in Get(Built(data, keysFor), k)
  {
    BuiltItems(data, keysFor);
  }

  /** Nothing but the data is filed anywhere. */
  lemma {:induction false} BuiltOnlyData(data: seq<GeoData>, keysFor: GeoData -> seq<string>)
    ensures forall k, d :: d in Get(Built(data, keysFor), k) ==> d in data
  {
    BuiltItems(data, keysFor);
  }

  // ---------------------------------------------------------------------
  // The search: a set of items, filled in order.

  predicate Distinct(s: seq<GeoData>)
  {
    forall i, j :: 0 <= i < j < |s| ==> s[i] != s[j]
  }

  /** Items added to a set in turn: each one not already there goes last. */
  function AddAll(acc: seq<GeoData>, items: seq<GeoData>): (r: seq<GeoData>)
    ensures forall d :: d in r <==> d in acc || d in items
    ensures Distinct(acc) ==> Distinct(r)
    ensures |acc| <= |r| && r[..|acc|] == acc
  {
    if |items| == 0 then acc
    else
      var n := |items| - 1;
      var a := AddAll(acc, items[..n]);
      assert forall d :: d in items <==> d in items[..n] || d == items[n];
      if items[n] in a then a else a + [items[n]]
  }

  /** The fuzzy pass over the keys in order: the items of each key that includes the term. */
  function Fuzzy(acc: seq<GeoData>, ix: Index, keys: seq<string>, term: string): (r: seq<GeoData>)
    ensures Distinct(acc) ==> Distinct(r)
  {
    if |keys| == 0 then acc
    else
      var n := |keys| - 1;
      var a := Fuzzy(acc, ix, keys[..n], term);
      if T.Includes(keys[n], term) then AddAll(a, Get(ix, keys[n])) else a
  }

  lemma {:induction false} FuzzyMembers(acc: seq<GeoData>, ix: Index, keys: seq<string>, term: string)
    ensures forall d :: d in Fuzzy(acc, ix, keys, term) <==>
              d in acc || exists j :: 0 <= j < |keys| && T.Includes(keys[j], term) && d in Get(ix, keys[j])
  {
    if |keys| > 0 {
      var n := |keys| - 1;
      FuzzyMembers(acc, ix, keys[..n], term);
      assert forall j :: 0 <= j < n ==> keys[..n][j] == keys[j];
    }
  }

  /** A search for a non-blank term: the exact key's items first, then the fuzzy pass. */
  function SearchOf(ix: Index, term: string): (r: seq<GeoData>)
    ensures Distinct(r)
  {
    Fuzzy(AddAll([], Get(ix, term)), ix, ix.order, term)
  }

  /** The search finds exactly the items under some key that includes the term, each once. */
  lemma {:induction false} SearchOfMembers(ix: Index, term: string)
    requires WellFormed(ix)
    ensures forall d :: d in SearchOf(ix, term) <==> exists k :: k in ix.entries && T.Includes(k, term) && d in ix.entries[k]
  {
    FuzzyMembers(AddAll([], Get(ix, term)), ix, ix.order, term);
    T.IncludesSuffix(term, 0);
    assert term[0..] == term;
    forall d, k | k in ix.entries && T.Includes(k, term) && d in ix.entries[k]
      ensures d in SearchOf(ix, term)
    {
      var j :| 0 <= j < |ix.order| && ix.order[j] == k;
    }
  }

  /** A string includes whatever one of its suffixes includes. */
  lemma {:induction false} IncludesFromSuffix(s: string, i: nat, t: string)
    requires i <= |s| && T.Includes(s[i..], t)
    ensures T.Includes(s, t)
  {
    T.IncludesIffAt(s[i..], t);
    T.IncludesIffAt(s, t);
    var p :| T.OccursAt(s[i..], t, p);
    assert s[i + p..i + p + |t|] == s[i..][p..p + |t|];
    assert T.OccursAt(s, t, i + p);
  }

  /** Some key in the list includes the term. */
  predicate AnyIncludes(keys: seq<string>, term: string)
  {
    exists k :: k in keys && T.Includes(k, term)
  }

  /** Over a built index, the search finds exactly the items with some key that includes the term. */
  lemma {:induction false} SearchBuiltMembers(data: seq<GeoData>, keysFor: GeoData -> seq<string>, term: string)
    ensures forall d :: d in SearchOf(Built(data, keysFor), term) <==> d in data && AnyIncludes(keysFor(d), term)
  {
    var ix := Built(data, keysFor);
    BuiltItems(data, keysFor);
    SearchOfMembers(ix, term);
    forall d | d in SearchOf(ix, term)
      ensures d in data && AnyIncludes(keysFor(d), term)
    {
      var k :| k in ix.entries && T.Includes(k, term) && d in ix.entries[k];
      assert d in Get(ix, k);
      assert d in data && k in keysFor(d);
      assert k in keysFor(d) && T.Includes(k, term);
    }
    forall d | d in data && AnyIncludes(keysFor(d), term)
      ensures d in SearchOf(ix, term)
    {
      var k :| k in keysFor(d) && T.Includes(k, term);
      assert d in Get(ix, k);
    }
  }

  /** A key of an item that includes a term is its lowered name, its lowered initials or a suffix of the name. */
  lemma {:induction false} KeyIncludesCase(d: GeoData, k: string, term: string)
    requires k in KeysFor(d) && T.Includes(k, term)
    ensures T.Includes(T.Lower(d.name), term) || T.Includes(T.Lower(PinyinInitials(d.name)), term)
  {
    KeyOfNameIncludes(T.Lower(d.name), T.Lower(PinyinInitials(d.name)), k, term);
  }

  /** A key among a name, some initials and the name's suffixes that includes a term makes the name or the initials include it. */
  lemma KeyOfNameIncludes(name: string, initials: string, k: string, term: string)
    requires k in [name, initials] + Suffixes(name) && T.Includes(k, term)
    ensures T.Includes(name, term) || T.Includes(initials, term)
  {
    var keys := [name, initials] + Suffixes(name);
    var j :| 0 <= j < |keys| && keys[j] == k;
    if j >= 2 {
      IncludesFromSuffix(name, j - 2, term);
    }
  }

  /** Some key of an item includes a term exactly when its lowered name or its lowered initials do. */
  lemma {:induction false} KeysForIncludes(d: GeoData, term: string)
    ensures AnyIncludes(KeysFor(d), term) <==> T.Includes(T.Lower(d.name), term) || T.Includes(T.Lower(PinyinInitials(d.name)), term)
  {
    var keys := KeysFor(d);
    if AnyIncludes(keys, term) {
      var k :| k in keys && T.Includes(k, term);
      KeyIncludesCase(d, k, term);
    }
    assert keys[0] in keys && keys[1] in keys;
  }

  /**
   * Over the index built from the data, a term finds exactly the items
   * whose lowered name or lowered initials include it.
   */
  lemma {:induction false} SearchFinds(data: seq<GeoData>, term: string)
    ensures forall d :: d in SearchOf(Built(data, KeysFor), term) <==>
              d in data && (T.Includes(T.Lower(d.name), term) || T.Includes(T.Lower(PinyinInitials(d.name)), term))
  {
    SearchBuiltMembers(data, KeysFor, term);
    forall d | d in data
      ensures AnyIncludes(KeysFor(d), term) <==> T.Includes(T.Lower(d.name), term) || T.Includes(T.Lower(PinyinInitials(d.name)), term)
    {
      KeysForIncludes(d, term);
    }
  }

  /** Beijing's item, as a fixed example. */
  function Beijing(lng: real, lat: real, value: real): GeoData
  {
    GeoData("北京", lng, lat, value, map[])
  }

  /** None of the keys filed for Beijing as written includes "bj". */
  lemma BeijingKeysAsWritten(d: GeoData)
    requires d.name == "北京"
    ensures !AnyIncludes(KeysAsWritten(d), "bj")
  {
    assert T.Lower("北京") == "北京";
    assert PinyinInitials("北京") == "BJ";
    assert Suffixes("北京") == ["北京", "京"];
    var keys := KeysAsWritten(d);
    assert keys == ["北京", "BJ", "北京", "京"];
    T.IncludesNeedsFirst("北京", "bj");
    T.IncludesNeedsFirst("BJ", "bj");
    T.IncludesNeedsFirst("京", "bj");
  }

  /** Adding items that are all already in the set changes nothing. */
  lemma {:induction false} AddAllKeeps(acc: seq<GeoData>, items: seq<GeoData>)
    requires forall x :: x in items ==> x in acc
    ensures AddAll(acc, items) == acc
  {
    if |items| > 0 {
      var n := |items| - 1;
      assert forall x :: x in items[..n] ==> x in items;
      AddAllKeeps(acc, items[..n]);
    }
  }

  /** Items that are all one item make a set holding just that item, once it occurs. */
  lemma {:induction false} AddAllSame(items: seq<GeoData>, d: GeoData)
    requires forall x :: x in items ==> x == d
    ensures AddAll([], items) == (if d in items then [d] else [])
  {
    if |items| > 0 {
      var n := |items| - 1;
      assert forall x :: x in items[..n] ==> x in items;
      AddAllSame(items[..n], d);
      assert d in items <==> d in items[..n] || d == items[n];
    }
  }

  /** A fuzzy pass whose matching keys hold nothing new leaves the set as it was. */
  lemma {:induction false} FuzzyKeeps(acc: seq<GeoData>, ix: Index, keys: seq<string>, term: string)
    requires forall j :: 0 <= j < |keys| && T.Includes(keys[j], term) ==> forall x :: x in Get(ix, keys[j]) ==> x in acc
    ensures Fuzzy(acc, ix, keys, term) == acc
  {
    if |keys| > 0 {
      var n := |keys| - 1;
      assert forall j :: 0 <= j < n ==> keys[..n][j] == keys[j];
      FuzzyKeeps(acc, ix, keys[..n], term);
      if T.Includes(keys[n], term) {
        AddAllKeeps(acc, Get(ix, keys[n]));
      }
    }
  }

  /** As written, the query "bj" never reaches the upper-case initials "BJ" the index holds. */
  lemma {:induction false} PinyinQueryAsWritten(lng: real, lat: real, value: real)
    ensures SearchOf(Built([Beijing(lng, lat, value)], KeysAsWritten), "bj") == []
  {
    var d := Beijing(lng, lat, value);
    var ix := Built([d], KeysAsWritten);
    BuiltItems([d], KeysAsWritten);
    BuiltKeys([d], KeysAsWritten);
    BeijingKeysAsWritten(d);
    T.IncludesSuffix("bj", 0);
    assert "bj"[0..] == "bj";
    assert "bj" !in ix.entries;
    assert AddAll([], []) == [];
    forall j | 0 <= j < |ix.order|
      ensures !T.Includes(ix.order[j], "bj")
    {
      assert ix.order[j] in ix.entries;
    }
    FuzzyKeeps([], ix, ix.order, "bj");
  }

  /** With the initials lowered, "bj" is one of Beijing's keys. */
  lemma BeijingKeyFor(d: GeoData)
    requires d.name == "北京"
    ensures "bj" in KeysFor(d)
  {
    assert PinyinInitials("北京") == "BJ";
    assert T.Lower("BJ") == "bj";
    assert KeysFor(d)[1] == "bj";
  }

  /** With the initials lowered, the same query finds the item, once. */
  lemma {:induction false} PinyinQueryCorrected(lng: real, lat: real, value: real)
    ensures SearchOf(Built([Beijing(lng, lat, value)], KeysFor), "bj") == [Beijing(lng, lat, value)]
  {
    var d := Beijing(lng, lat, value);
    BeijingKeyFor(d);
    SearchSingle(d, KeysFor, "bj");
  }

  /** Over the index of a single item, a search for one of its keys finds that item, once. */
  lemma SearchSingle(d: GeoData, keysFor: GeoData -> seq<string>, term: string)
    requires term in keysFor(d)
    ensures SearchOf(Built([d], keysFor), term) == [d]
  {
    var ix := Built([d], keysFor);
    BuiltHolds([d], keysFor, d, term);
    BuiltOnlyData([d], keysFor);
    var items := Get(ix, term);
    assert forall x :: x in items ==> x in [d];
    AddAllSame(items, d);
    assert AddAll([], items) == [d];
    forall j | 0 <= j < |ix.order| && T.Includes(ix.order[j], term)
      ensures forall x :: x in Get(ix, ix.order[j]) ==> x in [d]
    {
      OnlyItem(ix, ix.order[j], d);
    }
    FuzzyKeeps([d], ix, ix.order, term);
  }

  /** An index holding nothing but one item holds only it under any key. */
  lemma OnlyItem(ix: Index, k: string, d: GeoData)
    requires forall k', x :: x in Get(ix, k') ==> x in [d]
    ensures forall x :: x in Get(ix, k) ==> x in [d]
  {
  }

  // ---------------------------------------------------------------------
  // The filters, combined.

  /** `filterByValue`: the items with `minValue <= value <= maxValue`, in order. */
  function FilterByValue(data: seq<GeoData>, minValue: real, maxValue: real): (r: seq<GeoData>)
    ensures forall d :: d in r <==> d in data && minValue <= d.value <= maxValue
  {
    GU.FilterMembers(data, GU.ValueRange(minValue, maxValue));
    GU.Filter(data, GU.ValueRange(minValue, maxValue))
  }

  datatype Box = Box(minLng: real, maxLng: real, minLat: real, maxLat: real)

  /** `filterByBounds`: the items inside the box, edges included, in order. */
  function FilterByBounds(data: seq<GeoData>, b: Box): (r: seq<GeoData>)
    ensures forall d :: d in r <==> d in data && b.minLng <= d.lng <= b.maxLng && b.minLat <= d.lat <= b.maxLat
  {
    GU.FilterMembers(data, GU.InBox(b.minLng, b.maxLng, b.minLat, b.maxLat));
    GU.Filter(data, GU.InBox(b.minLng, b.maxLng, b.minLat, b.maxLat))
  }

  /** `filterByRegion`: the items whose name is listed, in order. */
  function FilterByRegion(data: seq<GeoData>, regionNames: seq<string>): (r: seq<GeoData>)
    ensures forall d :: d in r <==> d in data && d.name in regionNames
  {
    GU.FilterMembers(data, GU.Named(regionNames));
    GU.Filter(data, GU.Named(regionNames))
  }

  /** The optional criteria of `multiFilter`. */
  datatype Filters = Filters(search: Option<string>, valueRange: Option<(real, real)>, bounds: Option<Box>,
                             regions: Option<seq<string>>)

  /** What `search` returns: the data itself for a blank query, else the search for the lowered, trimmed query. */
  function SearchResult(ix: Index, query: string, data: seq<GeoData>): seq<GeoData>
  {
    if T.Trim(query) == "" then data else SearchOf(ix, T.Trim(T.Lower(query)))
  }

  /** `multiFilter`: search, then value range, then bounds, then a non-empty list of names. */
  function MultiFilterOf(ix: Index, data: seq<GeoData>, f: Filters): seq<GeoData>
  {
    var r1 := if f.search.Some? && f.search.value != "" then SearchResult(ix, f.search.value, data) else data;
    var r2 := if f.valueRange.Some? then FilterByValue(r1, f.valueRange.value.0, f.valueRange.value.1) else r1;
    var r3 := if f.bounds.Some? then FilterByBounds(r2, f.bounds.value) else r2;
    if f.regions.Some? && |f.regions.value| > 0 then FilterByRegion(r3, f.regions.value) else r3
  }

  /** Whether an item passes every criterion given, apart from the search. */
  predicate PassesCriteria(d: GeoData, f: Filters)
  {
    (f.valueRange.Some? ==> f.valueRange.value.0 <= d.value <= f.valueRange.value.1)
    && (f.bounds.Some? ==> f.bounds.value.minLng <= d.lng <= f.bounds.value.maxLng
                           && f.bounds.value.minLat <= d.lat <= f.bounds.value.maxLat)
    && (f.regions.Some? && |f.regions.value| > 0 ==> d.name in f.regions.value)
  }

  /**
   * Without a search, `multiFilter` keeps exactly the items that pass every
   * criterion; with one, what it keeps passes every criterion too.
   */
  lemma {:induction false} MultiFilterMeaning(ix: Index, data: seq<GeoData>, f: Filters)
    ensures forall d :: d in MultiFilterOf(ix, data, f) ==> PassesCriteria(d, f)
    ensures f.search.None? || f.search == Some("") ==>
              forall d :: d in MultiFilterOf(ix, data, f) <==> d in data && PassesCriteria(d, f)
  {
  }

  /** An empty list of regions filters nothing. */
  lemma {:induction false} MultiFilterEmptyRegions(ix: Index, data: seq<GeoData>, f: Filters)
    ensures MultiFilterOf(ix, data, f.(regions := Some([]))) == MultiFilterOf(ix, data, f.(regions := None))
  {
  }

  // ---------------------------------------------------------------------
  // Sorting, statistics, grouping.

  /** What `sortData` compares; a distance sort without a centre compares every pair equal. */
  datatype SortField = ByValue | ByDistance(center: Option<Pt>)

  function SortKeyOf(field: SortField): GU.SortKey
  {
    match field
    case ByValue => GU.ByValue
    case ByDistance(c) => if c.Some? then GU.ByDistance(c.value) else GU.Unordered
  }

  /** `sortData` on a copy, ascending unless told otherwise. */
  function SortData(data: seq<GeoData>, field: SortField, ascending: bool): (r: seq<GeoData>)
    ensures multiset(r) == multiset(data)
    ensures field == ByDistance(None) ==> r == data
  {
    GU.SortUnorderedKeeps(data, ascending);
    GU.SortBy(data, SortKeyOf(field), ascending)
  }

  lemma {:induction false} SortDataSorted(data: seq<GeoData>, field: SortField, ascending: bool)
    ensures GU.Sorted(SortData(data, field, ascending), SortKeyOf(field), ascending)
  {
    GU.SortBySorted(data, SortKeyOf(field), ascending);
  }

  /** The statistics `createDataStats` reports; the standard deviation is the square root of the variance. */
  datatype DataStats = DataStats(total: real, average: real, max: real, min: real, median: real, stdDev: real)

  /** `createDataStats`, over the values sorted ascending. */
  function CreateDataStats(data: seq<GeoData>, sqrt: real -> real): (s: DataStats)
    ensures |data| == 0 ==> s == DataStats(0.0, 0.0, 0.0, 0.0, 0.0, 0.0)
    ensures |data| > 0 ==> s.total == GU.Total(data) && s.min <= s.median <= s.max && s.min <= s.average <= s.max
    ensures |data| > 0 ==> s.min == GU.MinValue(data) && s.max == GU.MaxValue(data)
    ensures |data| > 0 ==> s.average == GU.Total(data) / |data| as real
    ensures |data| > 0 ==> s.median == Middle(GU.ValuesOf(GU.SortBy(data, GU.ByValue, true)))
  {
    if |data| == 0 then DataStats(0.0, 0.0, 0.0, 0.0, 0.0, 0.0)
    else
      var sorted := GU.SortBy(data, GU.ByValue, true);
      var values := GU.ValuesOf(sorted);
      GU.TotalPermutation(sorted, data);
      GU.MinMaxPermutation(sorted, data);
      var n := |values|;
      var total := GU.Total(sorted);
      var average := total / n as real;
      GU.MeanBetween(sorted);
      var median := Middle(values);
      var variance := GU.Sum(GU.SquaredDeviations(values, average)) / n as real;
      DataStats(total, average, GU.MaxValue(sorted), GU.MinValue(sorted), median, sqrt(variance))
  }

  /** The middle of a list: its middle entry, or the mean of the two middle entries when the length is even. */
  function Middle(values: seq<real>): real
    requires |values| > 0
  {
    var n := |values|;
    if n % 2 == 0 then (values[n / 2 - 1] + values[n / 2]) / 2.0 else values[n / 2]
  }

  /** The median is the middle of any ascending arrangement of the items' values. */
  lemma MedianOfSortedValues(data: seq<GeoData>, sqrt: real -> real, sv: seq<real>)
    requires |data| > 0 && GU.Ascending(sv) && multiset(sv) == multiset(GU.ValuesOf(data))
    ensures |sv| == |data| && CreateDataStats(data, sqrt).median == Middle(sv)
  {
    GU.SortedValues(data);
    GU.AscendingUnique(GU.ValuesOf(GU.SortBy(data, GU.ByValue, true)), sv);
  }

  /** The value bands and the compass regions of `groupData`. */
  datatype GroupBy = ByValueBand | ByArea | Custom(groupFunction: Option<GeoData -> string>) | Unknown

  /** The group an item goes to. */
  function GroupKey(grouping: GroupBy, d: GeoData): (g: string)
    ensures grouping == ByValueBand ==> (g == "高值" <==> d.value > 500.0)
    ensures grouping == ByValueBand ==> (g == "中值" <==> 200.0 < d.value <= 500.0)
    ensures grouping == ByValueBand ==> (g == "低值" <==> d.value <= 200.0)
    ensures grouping == ByArea ==> (g == "华东" <==> d.lng > 110.0 && d.lat > 30.0) && (g == "其他" <==> d.lng <= 110.0 && d.lat <= 30.0)
  {
    match grouping
    case ByValueBand => if d.value > 500.0 then "高值" else if d.value > 200.0 then "中值" else "低值"
    case ByArea =>
      if d.lng > 110.0 && d.lat > 30.0 then "华东"
      else if d.lng > 110.0 && d.lat <= 30.0 then "华南"
      else if d.lng <= 110.0 && d.lat > 30.0 then "华北"
      else "其他"
    case Custom(f) => if f.Some? then f.value(d) else "默认"
    case Unknown => "默认"
  }

  function GroupKeyFn(grouping: GroupBy): (f: GeoData -> string)
    ensures forall d :: f(d) == GroupKey(grouping, d)
  {
    d => GroupKey(grouping, d)
  }

  /** `groupData`: each item appended to its group's list, the groups listed in the order first met. */
  method GroupData(data: seq<GeoData>, grouping: GroupBy) returns (groups: OM.OrderedMap<string, seq<GeoData>>)
    ensures groups == GU.GroupedInOrder(data, GroupKeyFn(grouping))
  {
    groups := GU.GroupBy(data, GroupKeyFn(grouping));
  }

  /** Grouping by value partitions the data into at most the three bands, each holding its band's items in order. */
  lemma {:induction false} GroupByValuePartitions(data: seq<GeoData>)
    ensures var m := GU.Grouped(data, GroupKeyFn(ByValueBand));
            (forall g :: g in m ==> g == "高值" || g == "中值" || g == "低值")
            && (forall g :: g in m ==> m[g] == GU.ItemsWith(data, GroupKeyFn(ByValueBand), g))
            && (forall d :: d in data && d.value > 500.0 ==> "高值" in m && d in m["高值"])
            && (forall d :: d in data && d.value <= 200.0 ==> "低值" in m && d in m["低值"])
  {
    var key := GroupKeyFn(ByValueBand);
    GU.GroupedPartition(data, key);
    forall g | g in GU.Grouped(data, key)
      ensures g == "高值" || g == "中值" || g == "低值"
    {
      var d :| d in data && key(d) == g;
    }
  }

  // ---------------------------------------------------------------------
  // CSV export and import.

  const CsvHeader: string := "name,lng,lat,value"

  /** One CSV row; `show` is the number-to-text conversion of a template literal. */
  function CsvRow(d: GeoData, show: real -> string): string
  {
    T.Join([d.name, show(d.lng), show(d.lat), show(d.value)], ",")
  }

  /** `exportData(data, 'csv')`: the header line, then one row per item joined by newlines. */
  function ExportCsv(data: seq<GeoData>, show: real -> string): (r: string)
    ensures |data| > 0 ==> r == T.Join([CsvHeader] + seq(|data|, k requires 0 <= k < |data| => CsvRow(data[k], show)), "\n")
  {
    var rows := seq(|data|, k requires 0 <= k < |data| => CsvRow(data[k], show));
    assert |data| > 0 ==> ([CsvHeader] + rows)[1..] == rows;
    CsvHeader + "\n" + T.Join(rows, "\n")
  }

  /** An imported item: a coordinate that `parseFloat` cannot read is NaN, shown as `None`. */
  datatype Imported = Imported(name: string, lng: Option<real>, lat: Option<real>, value: real)

  /** `parseFloat` of a field that may be missing. */
  function FieldNumber(fields: seq<string>, k: nat, parse: string -> Option<real>): Option<real>
  {
    if k < |fields| then parse(fields[k]) else None
  }

  /** One CSV line read back: `parseFloat(values[3]) || 0` for the value. */
  function ImportRow(line: string, parse: string -> Option<real>): Imported
  {
    var fields := T.Split(line, ',');
    var v := FieldNumber(fields, 3, parse);
    Imported(fields[0], FieldNumber(fields, 1, parse), FieldNumber(fields, 2, parse), if v.Some? then v.value else 0.0)
  }

  /** `importData(text, 'csv')`: every line after the first, read as a row. */
  function ImportCsv(text: string, parse: string -> Option<real>): (r: seq<Imported>)
    ensures |r| == |T.Split(text, '\n')| - 1
  {
    var lines := T.Split(text, '\n');
    seq(|lines| - 1, k requires 0 <= k < |lines| - 1 => ImportRow(lines[k + 1], parse))
  }

  /**
   * Exporting non-empty data and importing it again gives every item back,
   * provided neither the names nor the number texts hold a comma or a
   * newline and `parse` reads back what `show` writes.
   */
  lemma {:induction false} CsvRoundTrip(data: seq<GeoData>, show: real -> string, parse: string -> Option<real>)
    requires |data| > 0
    requires forall k :: 0 <= k < |data| ==> ',' !in data[k].name && '\n' !in data[k].name
    requires forall x :: parse(show(x)) == Some(x) && ',' !in show(x) && '\n' !in show(x)
    ensures ImportCsv(ExportCsv(data, show), parse)
            == seq(|data|, k requires 0 <= k < |data| => Imported(data[k].name, Some(data[k].lng), Some(data[k].lat), data[k].value))
  {
    var rows := seq(|data|, k requires 0 <= k < |data| => CsvRow(data[k], show));
    var lines := [CsvHeader] + rows;
    forall k | 0 <= k < |data|
      ensures '\n' !in rows[k] && ImportRow(rows[k], parse) == Imported(data[k].name, Some(data[k].lng), Some(data[k].lat), data[k].value)
    {
      CsvRowRoundTrip(data[k], show, parse);
    }
    assert '\n' !in CsvHeader;
    assert forall k :: 0 <= k < |lines| ==> '\n' !in lines[k];
    T.SplitJoin(lines, '\n');
    assert T.Split(ExportCsv(data, show), '\n') == lines;
  }

  /** One row, split at its commas, gives the item back. */
  lemma {:induction false} CsvRowRoundTrip(d: GeoData, show: real -> string, parse: string -> Option<real>)
    requires ',' !in d.name && '\n' !in d.name
    requires forall x :: parse(show(x)) == Some(x) && ',' !in show(x) && '\n' !in show(x)
    ensures '\n' !in CsvRow(d, show)
    ensures ImportRow(CsvRow(d, show), parse) == Imported(d.name, Some(d.lng), Some(d.lat), d.value)
  {
    var parts := [d.name, show(d.lng), show(d.lat), show(d.value)];
    assert parse(show(d.lng)) == Some(d.lng) && parse(show(d.lat)) == Some(d.lat) && parse(show(d.value)) == Some(d.value);
    T.SplitJoin(parts, ',');
    JoinAvoids(parts, ",", '\n');
  }

  /** A joined text holds a character only if a part or the separator does. */
  lemma {:induction false} JoinAvoids(parts: seq<string>, sep: string, c: char)
    requires c !in sep && forall k :: 0 <= k < |parts| ==> c !in parts[k]
    ensures c !in T.Join(parts, sep)
  {
    if |parts| > 1 {
      JoinAvoids(parts[1..], sep, c);
    }
  }

  /** Exporting nothing leaves a trailing newline, so importing it gives one item with an empty name and no coordinates. */
  lemma {:induction false} CsvEmptyRoundTrip(show: real -> string, parse: string -> Option<real>)
    ensures ImportCsv(ExportCsv([], show), parse) == [Imported("", None, None, 0.0)]
  {
    var text := ExportCsv([], show);
    assert text == CsvHeader + "\n" + "";
    assert '\n' !in CsvHeader;
    T.SplitSep(CsvHeader, "", '\n');
    assert T.Split(text, '\n') == [CsvHeader, ""] by {
      assert text == CsvHeader + ['\n'] + "";
    }
    assert T.Split("", ',') == [""];
    assert ImportRow("", parse) == Imported("", None, None, 0.0);
  }

  // ---------------------------------------------------------------------
  // The object: its index and the cache `clearCache` empties.

  class InteractiveFeaturesInstance {
    var indexOrder: seq<string>
    var searchIndex: map<string, seq<GeoData>>
    var filterCache: map<string, seq<GeoData>>

    function CurrentIndex(): Index
      reads this
    {
      Index(indexOrder, searchIndex)
    }

    ghost predicate Valid()
      reads this
    {
      WellFormed(CurrentIndex())
    }

    constructor ()
      ensures Valid() && CurrentIndex() == EmptyIndex && filterCache == map[]
    {
      indexOrder := [];
      searchIndex := map[];
      filterCache := map[];
    }

    /** `addToIndex`. */
    method AddToIndex(key: string, item: GeoData)
      modifies this`indexOrder, this`searchIndex
      ensures CurrentIndex() == Add(old(CurrentIndex()), key, item)
    {
      ghost var entries := searchIndex;
      if key !in searchIndex {
        indexOrder := indexOrder + [key];
        searchIndex := searchIndex[key := []];
        assert searchIndex[key] + [item] == [item];
      }
      searchIndex := searchIndex[key := searchIndex[key] + [item]];
      assert key !in entries ==> searchIndex == entries[key := [item]];
    }

    /** Files one item under each of its keys: the lowered name, the initials, then every suffix. */
    method IndexItem(item: GeoData)
      modifies this`indexOrder, this`searchIndex
      ensures CurrentIndex() == AddKeys(old(CurrentIndex()), KeysFor(item), item)
    {
      var name := T.Lower(item.name);
      var initials := T.Lower(PinyinInitials(item.name));
      IndexUnder(name, initials, item);
    }

    /** Files an item under a name, then under some initials, then under each suffix of the name, longest first. */
    method IndexUnder(name: string, initials: string, item: GeoData)
      modifies this`indexOrder, this`searchIndex
      ensures CurrentIndex() == AddKeys(old(CurrentIndex()), [name, initials] + Suffixes(name), item)
    {
      var base := CurrentIndex();
      ghost var keys := [name, initials] + Suffixes(name);
      assert keys[0] == name && keys[1] == initials && keys[..0] == [];
      AddKeysSnoc(base, keys, 0, item);
      AddToIndex(name, item);
      assert CurrentIndex() == AddKeys(base, keys[..1], item);
      AddKeysSnoc(base, keys, 1, item);
      AddToIndex(initials, item);
      assert CurrentIndex() == AddKeys(base, keys[..2], item);
      var j := 0;
      while j < |name|
        invariant 0 <= j <= |name|
        invariant CurrentIndex() == AddKeys(base, keys[..j + 2], item)
      {
        ghost var before := CurrentIndex();
        assert keys[j + 2] == name[j..];
        AddKeysSnoc(base, keys, j + 2, item);
        AddToIndex(name[j..], item);
        assert CurrentIndex() == Add(before, keys[j + 2], item);
        j := j + 1;
      }
      assert keys[..j + 2] == keys;
    }

    /** `buildSearchIndex`: the old index dropped, then every item filed under each of its keys. */
    method BuildSearchIndex(data: seq<GeoData>)
      modifies this`indexOrder, this`searchIndex
      ensures Valid() && CurrentIndex() == Built(data, KeysFor)
    {
      indexOrder := [];
      searchIndex := map[];
      var i := 0;
      while i < |data|
        invariant 0 <= i <= |data|
        invariant CurrentIndex() == Built(data[..i], KeysFor)
      {
        BuiltSnoc(data, KeysFor, i);
        IndexItem(data[i]);
        i := i + 1;
      }
      assert data[..i] == data;
    }

    /** Adds the items not yet in `results`, in order. */
    method AddItems(results: seq<GeoData>, items: seq<GeoData>) returns (r: seq<GeoData>)
      ensures r == AddAll(results, items)
    {
      r := results;
      var j := 0;
      while j < |items|
        invariant 0 <= j <= |items|
        invariant r == AddAll(results, items[..j])
      {
        assert items[..j + 1][..j] == items[..j];
        if items[j] !in r {
          r := r + [items[j]];
        }
        j := j + 1;
      }
      assert items[..j] == items;
    }

    /** The fuzzy pass: the items of every key that includes the term, in key order. */
    method FuzzyPass(base: seq<GeoData>, term: string) returns (results: seq<GeoData>)
      requires Valid()
      ensures results == Fuzzy(base, CurrentIndex(), indexOrder, term)
    {
      results := base;
      var i := 0;
      while i < |indexOrder|
        invariant 0 <= i <= |indexOrder|
        invariant results == Fuzzy(base, CurrentIndex(), indexOrder[..i], term)
      {
        assert indexOrder[..i + 1][..i] == indexOrder[..i];
        var key := indexOrder[i];
        assert key in searchIndex;
        if T.Includes(key, term) {
          results := AddItems(results, searchIndex[key]);
        }
        i := i + 1;
      }
      assert indexOrder[..i] == indexOrder;
    }

    /**
     * `search`: a blank query returns the data itself; any other query
     * returns the items under the exact key, then those under every key that
     * includes it, each once, whatever the data.
     */
    method Search(query: string, data: seq<GeoData>) returns (results: seq<GeoData>)
      requires Valid()
      ensures results == SearchResult(CurrentIndex(), query, data)
      ensures T.Trim(query) == "" ==> results == data
      ensures T.Trim(query) != "" ==> results == SearchOf(CurrentIndex(), T.Trim(T.Lower(query))) && Distinct(results)
    {
      if T.Trim(query) == "" {
        return data;
      }
      var term := T.Trim(T.Lower(query));
      var exact: seq<GeoData> := [];
      if term in searchIndex {
        exact := AddItems([], searchIndex[term]);
      }
      results := FuzzyPass(exact, term);
    }

    /** `multiFilter`. */
    method MultiFilter(data: seq<GeoData>, f: Filters) returns (result: seq<GeoData>)
      requires Valid()
      ensures result == MultiFilterOf(CurrentIndex(), data, f)
    {
      result := data;
      if f.search.Some? && f.search.value != "" {
        result := Search(f.search.value, result);
      }
      if f.valueRange.Some? {
        result := FilterByValue(result, f.valueRange.value.0, f.valueRange.value.1);
      }
      if f.bounds.Some? {
        result := FilterByBounds(result, f.bounds.value);
      }
      if f.regions.Some? && |f.regions.value| > 0 {
        result := FilterByRegion(result, f.regions.value);
      }
    }

    /** `clearCache`: the index and the cache emptied. */
    method ClearCache()
      modifies this
      ensures Valid() && CurrentIndex() == EmptyIndex && filterCache == map[]
    {
      indexOrder := [];
      searchIndex := map[];
      filterCache := map[];
    }
  }
}
