// Icon dictionaries and the strip layout of the icon atlas: each icon is
// placed to the right of the previous one on a single row
// (packages/core/src/deckgl/iconAtlas.ts). Rasterising an SVG is a
// parameter that yields its pixel size, or nothing when the image fails to
// load; drawing and the data URL are not modelled.
module IconAtlas {
  import opened Wrappers

  /** One `[key, svg]` pair of an icon dictionary. */
  datatype IconEntry = IconEntry(key: string, svg: string)

  /** An icon dictionary: its keys in property order, and the value of each. */
  datatype Dict = Dict(keys: seq<string>, values: map<string, string>)

  /** No key is listed twice, and the listed keys are exactly the keys holding values. */
  ghost predicate WellFormed(d: Dict)
  {
    (forall i, j :: 0 <= i < j < |d.keys| ==> d.keys[i] != d.keys[j])
    && (forall k :: k in d.values <==> k in d.keys)
  }

  /** `Object.entries(d)`: the pairs in property order. */
  function Entries(d: Dict): (r: seq<IconEntry>)
    requires WellFormed(d)
    ensures |r| == |d.keys|
    ensures forall i :: 0 <= i < |r| ==> r[i] == IconEntry(d.keys[i], d.values[d.keys[i]])
  {
    seq(|d.keys|, i requires 0 <= i < |d.keys| => IconEntry(d.keys[i], d.values[d.keys[i]]))
  }

  /** `d[key] = svg`: an existing key keeps its place and takes the new value; a new key goes last. */
  function Assign(d: Dict, key: string, svg: string): (r: Dict)
    requires WellFormed(d)
    ensures WellFormed(r)
    ensures r.values == d.values[key := svg]
    ensures r.keys == if key in d.values then d.keys else d.keys + [key]
  {
    if key in d.values then Dict(d.keys, d.values[key := svg]) else Dict(d.keys + [key], d.values[key := svg])
  }

  /** Assigning the given keys of `b`, in order, onto `a`. */
  function AssignAll(a: Dict, ks: seq<string>, b: map<string, string>): (r: Dict)
    requires WellFormed(a)
    requires forall k :: k in ks ==> k in b
    ensures WellFormed(r)
  {
    if |ks| == 0 then a
    else Assign(AssignAll(a, ks[..|ks| - 1], b), ks[|ks| - 1], b[ks[|ks| - 1]])
  }

  /** `{...a, ...b}`. */
  function Spread(a: Dict, b: Dict): (r: Dict)
    requires WellFormed(a) && WellFormed(b)
    ensures WellFormed(r)
  {
    AssignAll(a, b.keys, b.values)
  }

  /** The keys of `ks` that `a` does not hold, each once, in order of first appearance. */
  function NewKeys(known: set<string>, ks: seq<string>): seq<string>
  {
    if |ks| == 0 then []
    else
      var front := NewKeys(known, ks[..|ks| - 1]);
      var k := ks[|ks| - 1];
      if k in known || k in front then front else front + [k]
  }

  lemma {:induction false} AssignAllValues(a: Dict, ks: seq<string>, b: map<string, string>)
    requires WellFormed(a)
    requires forall k :: k in ks ==> k in b
    ensures forall k :: k in AssignAll(a, ks, b).values <==> k in a.values || k in ks
    ensures forall k :: k in AssignAll(a, ks, b).values ==>
              AssignAll(a, ks, b).values[k] == if k in ks then b[k] else a.values[k]
  {
    if |ks| > 0 {
      var init := ks[..|ks| - 1];
      assert forall j :: j in ks <==> j in init || j == ks[|ks| - 1];
      AssignAllValues(a, init, b);
    }
  }

  lemma {:induction false} AssignAllKeys(a: Dict, ks: seq<string>, b: map<string, string>)
    requires WellFormed(a)
    requires forall k :: k in ks ==> k in b
    ensures AssignAll(a, ks, b).keys == a.keys + NewKeys(a.values.Keys, ks)
  {
    if |ks| > 0 {
      var init := ks[..|ks| - 1];
      var k := ks[|ks| - 1];
      assert forall j :: j in init ==> j in ks;
      AssignAllKeys(a, init, b);
      var before := AssignAll(a, init, b);
      assert k in before.keys <==> k in a.keys || k in NewKeys(a.values.Keys, init);
    }
  }

  /**
   * Spreading gives every key of `b` its value from `b` and every other
   * key its value from `a`; the keys of `a` stay in place and `b`'s new
   * keys follow in `b`'s order.
   */
  lemma SpreadEffect(a: Dict, b: Dict)
    requires WellFormed(a) && WellFormed(b)
    ensures Spread(a, b).values == a.values + b.values
    ensures Spread(a, b).keys == a.keys + NewKeys(a.values.Keys, b.keys)
  {
    SpreadValues(a, b);
    AssignAllKeys(a, b.keys, b.values);
  }

  lemma SpreadValues(a: Dict, b: Dict)
    requires WellFormed(a) && WellFormed(b)
    ensures Spread(a, b).values == a.values + b.values
  {
    var r := AssignAll(a, b.keys, b.values);
    assert r == Spread(a, b);
    AssignAllValues(a, b.keys, b.values);
    forall k | k in r.values
      ensures k in b.values ==> r.values[k] == b.values[k]
      ensures k !in b.values ==> k in a.values && r.values[k] == a.values[k]
    {
    }
    assert r.values.Keys == a.values.Keys + b.values.Keys;
  }

  /** The pixel size of a rasterised icon. */
  datatype Size = Size(width: nat, height: nat)

  /** One icon's place in the atlas. */
  datatype IconRect = IconRect(x: nat, y: nat, width: nat, height: nat, mask: bool)

  /** The icon mapping and the canvas size. */
  datatype AtlasLayout = AtlasLayout(mapping: map<string, IconRect>, width: nat, height: nat)

  const LoadError: string := "Failed to load SVG"
  const ContextError: string := "Failed to get 2D context from canvas"

  function Max(a: nat, b: nat): nat { if a >= b then a else b }

  /** Every icon loads. */
  predicate AllLoad(es: seq<IconEntry>, rasterize: string -> Option<Size>)
  {
    forall k :: 0 <= k < |es| ==> rasterize(es[k].svg).Some?
  }

  /**
   * The layout loop: each icon at `x = canvasWidth`, `y = 0`, with its own
   * size and `mask: true`; the width grows by the icon's width and the
   * height becomes the largest so far. Nothing when an icon fails to load.
   */
  function LayoutOf(es: seq<IconEntry>, rasterize: string -> Option<Size>): (r: Option<AtlasLayout>)
    ensures r.Some? <==> AllLoad(es, rasterize)
  {
    if |es| == 0 then Some(AtlasLayout(map[], 0, 0))
    else
      var e := es[|es| - 1];
      assert forall k :: 0 <= k < |es| - 1 ==> es[..|es| - 1][k] == es[k];
      match LayoutOf(es[..|es| - 1], rasterize)
      case None => None
      case Some(l) =>
        match rasterize(e.svg)
        case None => None
        case Some(sz) =>
          Some(AtlasLayout(l.mapping[e.key := IconRect(l.width, 0, sz.width, sz.height, true)],
                           l.width + sz.width, Max(l.height, sz.height)))
  }

  /** The sizes of icons that all load. */
  function SizesOf(es: seq<IconEntry>, rasterize: string -> Option<Size>): (r: seq<Size>)
    requires AllLoad(es, rasterize)
    ensures |r| == |es| && forall k :: 0 <= k < |es| ==> r[k] == rasterize(es[k].svg).value
  {
    seq(|es|, k requires 0 <= k < |es| => rasterize(es[k].svg).value)
  }

  /** The summed width. */
  function TotalWidth(sizes: seq<Size>): nat
  {
    if |sizes| == 0 then 0 else TotalWidth(sizes[..|sizes| - 1]) + sizes[|sizes| - 1].width
  }

  /** The largest height, 0 for none. */
  function MaxHeight(sizes: seq<Size>): nat
  {
    if |sizes| == 0 then 0 else Max(MaxHeight(sizes[..|sizes| - 1]), sizes[|sizes| - 1].height)
  }

  /** The rectangle icon `k` should get: after all earlier icons, on the top row, at its own size. */
  function RectAt(sizes: seq<Size>, k: nat): IconRect
    requires k < |sizes|
  {
    IconRect(TotalWidth(sizes[..k]), 0, sizes[k].width, sizes[k].height, true)
  }

  predicate DistinctEntryKeys(es: seq<IconEntry>)
  {
    forall i, j :: 0 <= i < j < |es| ==> es[i].key != es[j].key
  }

  /** Dropping the last icon drops the last size. */
  lemma SizesOfPrefix(es: seq<IconEntry>, rasterize: string -> Option<Size>)
    requires |es| > 0 && AllLoad(es, rasterize)
    ensures AllLoad(es[..|es| - 1], rasterize)
    ensures SizesOf(es[..|es| - 1], rasterize) == SizesOf(es, rasterize)[..|es| - 1]
  {
    assert forall k :: 0 <= k < |es| - 1 ==> es[..|es| - 1][k] == es[k];
  }

  /** The canvas is as wide as all icons together and as tall as the tallest. */
  lemma {:induction false} LayoutSize(es: seq<IconEntry>, rasterize: string -> Option<Size>)
    requires AllLoad(es, rasterize)
    ensures LayoutOf(es, rasterize).value.width == TotalWidth(SizesOf(es, rasterize))
    ensures LayoutOf(es, rasterize).value.height == MaxHeight(SizesOf(es, rasterize))
  {
    if |es| > 0 {
      SizesOfPrefix(es, rasterize);
      LayoutSize(es[..|es| - 1], rasterize);
    }
  }

  /** The mapping holds exactly the icons' keys. */
  lemma {:induction false} LayoutKeys(es: seq<IconEntry>, rasterize: string -> Option<Size>)
    requires AllLoad(es, rasterize)
    ensures forall key :: key in LayoutOf(es, rasterize).value.mapping <==> exists k :: 0 <= k < |es| && es[k].key == key
  {
    if |es| > 0 {
      var n := |es| - 1;
      var init := es[..n];
      SizesOfPrefix(es, rasterize);
      LayoutKeys(init, rasterize);
      var l := LayoutOf(es, rasterize).value;
      assert l.mapping.Keys == LayoutOf(init, rasterize).value.mapping.Keys + {es[n].key};
      forall key | key in l.mapping
        ensures exists k :: 0 <= k < |es| && es[k].key == key
      {
        if key != es[n].key {
          var k :| 0 <= k < n && init[k].key == key;
          assert es[k].key == key;
        }
      }
      forall k | 0 <= k < |es|
        ensures es[k].key in l.mapping
      {
        if k < n {
          assert init[k] == es[k];
        }
      }
    }
  }

  /**
   * With distinct keys each icon sits at `x` = the widths of the icons
   * before it, `y = 0`, at its own size, with `mask = true`.
   */
  lemma {:induction false} LayoutRects(es: seq<IconEntry>, rasterize: string -> Option<Size>)
    requires DistinctEntryKeys(es) && AllLoad(es, rasterize)
    ensures forall k :: 0 <= k < |es| ==>
              es[k].key in LayoutOf(es, rasterize).value.mapping &&
              LayoutOf(es, rasterize).value.mapping[es[k].key] == RectAt(SizesOf(es, rasterize), k)
  {
    if |es| > 0 {
      var n := |es| - 1;
      var init := es[..n];
      SizesOfPrefix(es, rasterize);
      assert forall k :: 0 <= k < n ==> init[k] == es[k];
      LayoutRects(init, rasterize);
      LayoutSize(init, rasterize);
      var sizes := SizesOf(es, rasterize);
      var sizes0 := SizesOf(init, rasterize);
      assert sizes0 == sizes[..n];
      var l0 := LayoutOf(init, rasterize).value;
      var l := LayoutOf(es, rasterize).value;
      assert l0.width == TotalWidth(sizes[..n]);
      assert l.mapping == l0.mapping[es[n].key := RectAt(sizes, n)];
      forall k | 0 <= k < n
        ensures es[k].key in l.mapping && l.mapping[es[k].key] == RectAt(sizes, k)
      {
        assert es[k].key != es[n].key;
        assert sizes0[..k] == sizes[..k];
        assert l0.mapping[init[k].key] == RectAt(sizes0, k);
      }
    }
  }

  lemma {:induction false} TotalWidthMonotone(sizes: seq<Size>, i: nat, j: nat)
    requires i <= j <= |sizes|
    ensures TotalWidth(sizes[..i]) <= TotalWidth(sizes[..j])
  {
    if i < j {
      TotalWidthMonotone(sizes, i, j - 1);
      assert sizes[..j][..j - 1] == sizes[..j - 1];
    }
  }

  lemma {:induction false} MaxHeightBound(sizes: seq<Size>, k: nat)
    requires k < |sizes|
    ensures sizes[k].height <= MaxHeight(sizes)
  {
    var n := |sizes| - 1;
    if k < n {
      assert sizes[..n][k] == sizes[k];
      MaxHeightBound(sizes[..n], k);
    }
  }

  /** Rectangles of different icons do not overlap, and every rectangle lies inside the canvas. */
  lemma RectsDisjointAndInside(sizes: seq<Size>, i: nat, j: nat)
    requires i < j < |sizes|
    ensures RectAt(sizes, i).x + RectAt(sizes, i).width <= RectAt(sizes, j).x
    ensures RectAt(sizes, j).x + RectAt(sizes, j).width <= TotalWidth(sizes)
    ensures RectAt(sizes, j).y == 0 && RectAt(sizes, j).height <= MaxHeight(sizes)
  {
    assert sizes[..i + 1][..i] == sizes[..i];
    TotalWidthMonotone(sizes, i + 1, j);
    assert sizes[..j + 1][..j] == sizes[..j];
    TotalWidthMonotone(sizes, j + 1, |sizes|);
    assert sizes[..|sizes|] == sizes;
    MaxHeightBound(sizes, j);
  }

  /** What `buildIconAtlas` settles with: the layout, or the error it throws. */
  function AtlasResult(icons: Dict, rasterize: string -> Option<Size>, hasContext: bool): Result<AtlasLayout>
    requires WellFormed(icons)
  {
    match LayoutOf(Entries(icons), rasterize)
    case None => Err(LoadError)
    case Some(l) => if hasContext then Ok(l) else Err(ContextError)
  }

  /** The layout loop of `buildIconAtlas`, stopping at the first icon that fails to load. */
  method LayoutIcons(es: seq<IconEntry>, rasterize: string -> Option<Size>) returns (r: Option<AtlasLayout>)
    ensures r == LayoutOf(es, rasterize)
  {
    var mapping: map<string, IconRect> := map[];
    var canvasWidth: nat := 0;
    var canvasHeight: nat := 0;
    var i := 0;
    while i < |es|
      invariant 0 <= i <= |es|
      invariant LayoutOf(es[..i], rasterize) == Some(AtlasLayout(mapping, canvasWidth, canvasHeight))
    {
      assert es[..i + 1][..i] == es[..i];
      var img := rasterize(es[i].svg);
      if img.None? {
        assert !AllLoad(es, rasterize);
        return None;
      }
      mapping := mapping[es[i].key := IconRect(canvasWidth, 0, img.value.width, img.value.height, true)];
      canvasWidth := canvasWidth + img.value.width;
      canvasHeight := Max(canvasHeight, img.value.height);
      i := i + 1;
    }
    assert es[..i] == es;
    r := Some(AtlasLayout(mapping, canvasWidth, canvasHeight));
  }

  /**
   * Builds the atlas layout: the layout loop over the icons' entries, then
   * a failure when the canvas has no 2D context.
   */
  method BuildIconAtlas(icons: Dict, rasterize: string -> Option<Size>, hasContext: bool)
    returns (r: Result<AtlasLayout>)
    requires WellFormed(icons)
    ensures LayoutOf(Entries(icons), rasterize).None? ==> r == Err(LoadError)
    ensures LayoutOf(Entries(icons), rasterize).Some? ==>
              r == if hasContext then Ok(LayoutOf(Entries(icons), rasterize).value) else Err(ContextError)
    ensures r == AtlasResult(icons, rasterize, hasContext)
  {
    var layout := LayoutIcons(Entries(icons), rasterize);
    if layout.None? {
      return Err(LoadError);
    }
    if !hasContext {
      return Err(ContextError);
    }
    r := Ok(layout.value);
  }

  /** The entries of a dictionary have distinct keys, so the layout lemmas apply to every atlas built. */
  lemma EntriesDistinct(icons: Dict)
    requires WellFormed(icons)
    ensures DistinctEntryKeys(Entries(icons))
  {
  }
}
