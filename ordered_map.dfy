// A JavaScript `Map`, as the registries and the grouping code use it: `set`
// inserts a new key last and overwrites an existing one in place, `delete`
// drops a key and reports whether it was there, `keys()` lists the keys in
// insertion order.
module OrderedMaps {
  import opened Wrappers

  /** The keys in insertion order, and the value under each. */
  datatype OrderedMap<K(==, !new), V> = OrderedMap(keys: seq<K>, entries: map<K, V>)

  /** Each key is listed once, and exactly the keys of the entries are listed. */
  ghost predicate Valid<K(!new), V>(m: OrderedMap<K, V>)
  {
    Distinct(m.keys) && (forall k :: k in m.entries <==> k in m.keys)
  }

  predicate Distinct<K(==, !new)>(keys: seq<K>)
  {
    forall i, j :: 0 <= i < j < |keys| ==> keys[i] != keys[j]
  }

  function Empty<K(==, !new), V>(): (r: OrderedMap<K, V>)
    ensures Valid(r)
  {
    OrderedMap([], map[])
  }

  /** `get`: the value under the key, if any. */
  function Get<K(==, !new), V>(m: OrderedMap<K, V>, k: K): (r: Option<V>)
    ensures r.Some? <==> k in m.entries
    ensures r.Some? ==> r.value == m.entries[k]
  {
    if k in m.entries then Some(m.entries[k]) else None
  }

  /** `set`: the value stored under the key; a new key goes last, an existing one keeps its place. */
  function Set<K(==, !new), V>(m: OrderedMap<K, V>, k: K, v: V): (r: OrderedMap<K, V>)
    ensures Get(r, k) == Some(v)
    ensures forall j :: j != k ==> Get(r, j) == Get(m, j)
    ensures k in m.entries ==> r.keys == m.keys
    ensures k !in m.entries ==> r.keys == m.keys + [k]
  {
    OrderedMap(if k in m.entries then m.keys else m.keys + [k], m.entries[k := v])
  }

  /** The keys without one of them, in order. */
  function Without<K(==, !new)>(keys: seq<K>, k: K): (r: seq<K>)
    ensures forall x :: x in r <==> x in keys && x != k
    ensures |r| <= |keys|
  {
    if |keys| == 0 then []
    else if keys[0] == k then Without(keys[1..], k)
    else [keys[0]] + Without(keys[1..], k)
  }

  /** A key not listed leaves the list as it was. */
  lemma {:induction false} WithoutAbsent<K(!new)>(keys: seq<K>, k: K)
    requires k !in keys
    ensures Without(keys, k) == keys
  {
    if |keys| > 0 {
      WithoutAbsent(keys[1..], k);
    }
  }

  /** Dropping a key from distinct keys leaves them distinct. */
  lemma {:induction false} WithoutDistinct<K(!new)>(keys: seq<K>, k: K)
    ensures Distinct(keys) ==> Distinct(Without(keys, k))
  {
    if |keys| > 0 && Distinct(keys) {
      var rest := keys[1..];
      assert Distinct(rest) by {
        forall i, j | 0 <= i < j < |rest|
          ensures rest[i] != rest[j]
        {
          assert rest[i] == keys[i + 1] && rest[j] == keys[j + 1];
        }
      }
      WithoutDistinct(rest, k);
      assert keys[0] !in rest by {
        forall m | 0 <= m < |rest|
          ensures rest[m] != keys[0]
        {
          assert rest[m] == keys[m + 1];
        }
      }
      var w := Without(rest, k);
      if keys[0] != k {
        var r := [keys[0]] + w;
        forall i, j | 0 <= i < j < |r|
          ensures r[i] != r[j]
        {
          if i == 0 {
            assert r[j] == w[j - 1] && w[j - 1] in w;
          } else {
            assert r[i] == w[i - 1] && r[j] == w[j - 1];
          }
        }
      }
    }
  }

  /** `delete`: the key dropped; whether it was there is `Has` beforehand. */
  function Delete<K(==, !new), V>(m: OrderedMap<K, V>, k: K): (r: OrderedMap<K, V>)
    ensures Valid(m) ==> Valid(r)
    ensures Get(r, k) == None
    ensures forall j :: j != k ==> Get(r, j) == Get(m, j)
    ensures r.keys == Without(m.keys, k)
  {
    WithoutDistinct(m.keys, k);
    OrderedMap(Without(m.keys, k), m.entries - {k})
  }

  /** Deleting a key that is not there changes nothing. */
  lemma DeleteAbsent<K(!new), V>(m: OrderedMap<K, V>, k: K)
    requires Valid(m) && k !in m.entries
    ensures Delete(m, k) == m
  {
    WithoutAbsent(m.keys, k);
    assert m.entries - {k} == m.entries;
  }

  /** Setting a key keeps a map well formed. */
  lemma SetValid<K(!new), V>(m: OrderedMap<K, V>, k: K, v: V)
    requires Valid(m)
    ensures Valid(Set(m, k, v))
  {
  }

  /** A new key goes last, under its value. */
  lemma SetNew<K(!new), V>(m: OrderedMap<K, V>, k: K, v: V)
    requires k !in m.entries
    ensures Set(m, k, v) == OrderedMap(m.keys + [k], m.entries[k := v])
  {
  }

  /** Setting distinct keys one after the other, from nothing, lists them in that order. */
  lemma SetDistinct4<K(!new), V>(a: K, b: K, c: K, d: K, va: V, vb: V, vc: V, vd: V)
    requires a != b && a != c && a != d && b != c && b != d && c != d
    ensures Set(Set(Set(Set(Empty(), a, va), b, vb), c, vc), d, vd)
            == OrderedMap([a, b, c, d], map[a := va, b := vb, c := vc, d := vd])
  {
    var e: OrderedMap<K, V> := Empty();
    var one := OrderedMap([a], map[a := va]);
    assert Set(e, a, va) == one by {
      SetNew(e, a, va);
      assert [] + [a] == [a];
    }
    var two := OrderedMap([a, b], map[a := va, b := vb]);
    assert Set(one, b, vb) == two by {
      SetNew(one, b, vb);
      assert [a] + [b] == [a, b];
    }
    var three := OrderedMap([a, b, c], map[a := va, b := vb, c := vc]);
    assert Set(two, c, vc) == three by {
      SetNew(two, c, vc);
      assert [a, b] + [c] == [a, b, c];
    }
    assert Set(three, d, vd) == OrderedMap([a, b, c, d], map[a := va, b := vb, c := vc, d := vd]) by {
      SetNew(three, d, vd);
      assert [a, b, c] + [d] == [a, b, c, d];
    }
  }

  /** Setting the same value twice is setting it once. */
  lemma SetTwice<K(!new), V>(m: OrderedMap<K, V>, k: K, v: V)
    ensures Set(Set(m, k, v), k, v) == Set(m, k, v)
  {
  }

  /** Deleting a key just set restores a map that did not hold it. */
  lemma DeleteUndoesSet<K(!new), V>(m: OrderedMap<K, V>, k: K, v: V)
    requires Valid(m) && k !in m.entries
    ensures Delete(Set(m, k, v), k) == m
  {
    WithoutAbsent(m.keys, k);
    assert Without(m.keys + [k], k) == m.keys by {
      AppendWithout(m.keys, k);
    }
    assert m.entries[k := v] - {k} == m.entries;
  }

  lemma {:induction false} AppendWithout<K(!new)>(keys: seq<K>, k: K)
    ensures Without(keys + [k], k) == Without(keys, k)
  {
    if |keys| == 0 {
      assert keys + [k] == [k];
      assert Without([k], k) == Without([k][1..], k);
    } else {
      assert (keys + [k])[1..] == keys[1..] + [k];
      AppendWithout(keys[1..], k);
    }
  }

  /** The keys a map lists after each of `xs` is set in turn: each distinct one once, where it was first set. */
  function FirstSeen<K(==, !new)>(xs: seq<K>): seq<K>
  {
    if |xs| == 0 then []
    else
      var r := FirstSeen(xs[..|xs| - 1]);
      if xs[|xs| - 1] in r then r else r + [xs[|xs| - 1]]
  }

  /** Where `x` first occurs in `xs`, or `|xs|` when it does not. */
  function FirstIndex<K(==, !new)>(xs: seq<K>, x: K): (r: nat)
    ensures r <= |xs|
    ensures r < |xs| <==> x in xs
    ensures r < |xs| ==> xs[r] == x
    ensures forall p :: 0 <= p < r ==> xs[p] != x
  {
    if |xs| == 0 then 0
    else if xs[0] == x then 0
    else
      var r := FirstIndex(xs[1..], x);
      assert forall p :: 1 <= p < 1 + r ==> xs[p] == xs[1..][p - 1];
      1 + r
  }

  /** Appending to a list moves no first occurrence, and places a new one at the end. */
  lemma FirstIndexAppend<K(!new)>(xs: seq<K>, y: K, x: K)
    ensures x in xs ==> FirstIndex(xs + [y], x) == FirstIndex(xs, x)
    ensures x !in xs && x == y ==> FirstIndex(xs + [y], x) == |xs|
  {
    var ys := xs + [y];
    var a, b := FirstIndex(xs, x), FirstIndex(ys, x);
    if x in xs {
      assert ys[a] == x;
      assert b < |xs| ==> ys[b] == xs[b];
    } else if x == y {
      assert ys[|xs|] == x;
      assert forall p :: 0 <= p < |xs| ==> ys[p] == xs[p];
    }
  }

  /**
   * The keys come each once, exactly those set, and in the order each was
   * first set.
   */
  lemma {:induction false} FirstSeenOrder<K(!new)>(xs: seq<K>)
    ensures Distinct(FirstSeen(xs))
    ensures forall x :: x in FirstSeen(xs) <==> x in xs
    ensures forall i, j :: 0 <= i < j < |FirstSeen(xs)| ==> FirstIndex(xs, FirstSeen(xs)[i]) < FirstIndex(xs, FirstSeen(xs)[j])
  {
    if |xs| > 0 {
      var n := |xs| - 1;
      var init, y := xs[..n], xs[n];
      assert xs == init + [y];
      FirstSeenOrder(init);
      var r0 := FirstSeen(init);
      var r := FirstSeen(xs);
      forall x | x in r0
        ensures FirstIndex(xs, x) == FirstIndex(init, x)
      {
        FirstIndexAppend(init, y, x);
      }
      if y !in r0 {
        FirstIndexAppend(init, y, y);
        assert r == r0 + [y];
        forall i, j | 0 <= i < j < |r|
          ensures FirstIndex(xs, r[i]) < FirstIndex(xs, r[j])
        {
          assert r[i] == r0[i] && r[i] in r0;
          assert FirstIndex(xs, r[i]) == FirstIndex(init, r[i]) < |init|;
          if j < |r0| {
            assert r[j] == r0[j] && r[j] in r0;
            assert FirstIndex(xs, r[j]) == FirstIndex(init, r[j]);
            assert FirstIndex(init, r0[i]) < FirstIndex(init, r0[j]);
          } else {
            assert r[j] == y && FirstIndex(xs, y) == |init|;
          }
        }
      }
    }
  }
}
