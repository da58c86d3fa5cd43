// The navigation state singleton: current level, country, adcode and
// GeoJSON, with per-property change listeners (packages/core/src/MapStateManager.ts).
module MapState {
  import opened Wrappers
  import opened GeoTypes
  import opened MapTypes

  /** A listener function, identified by an opaque id. */
  type ListenerId = nat

  /** The value handed to a listener, for whichever property changed. */
  datatype StateValue = LevelValue(level: MapLevel) | TextValue(text: string) | GeoValue(data: Option<FeatureCollection>)

  /** One call `listener(newValue, oldValue)` made while notifying `property`. */
  datatype Delivery = Delivery(listener: ListenerId, property: string, newValue: StateValue, oldValue: StateValue)

  /** The registry key under which a property's listeners are kept. */
  function ListenerKey(property: string): string
  {
    "property-" + property
  }

  /** The calls made by notifying `ls` in registration order. */
  function Deliveries(ls: seq<ListenerId>, property: string, nv: StateValue, ov: StateValue): (r: seq<Delivery>)
    ensures |r| == |ls|
  {
    if |ls| == 0 then []
    else Deliveries(ls[..|ls| - 1], property, nv, ov) + [Delivery(ls[|ls| - 1], property, nv, ov)]
  }

  /** Call `k` goes to listener `k` with the property and both values. */
  lemma {:induction false} DeliveriesAt(ls: seq<ListenerId>, property: string, nv: StateValue, ov: StateValue, k: nat)
    requires k < |ls|
    ensures Deliveries(ls, property, nv, ov)[k] == Delivery(ls[k], property, nv, ov)
  {
    if k < |ls| - 1 {
      DeliveriesAt(ls[..|ls| - 1], property, nv, ov, k);
    }
  }

  /** The listeners registered under `key`, none when the key is absent. */
  function ListenersAt(m: map<string, seq<ListenerId>>, key: string): seq<ListenerId>
  {
    if key in m then m[key] else []
  }

  /** `splice(indexOf(x), 1)`: drops the first occurrence of `x`, if any. */
  function RemoveFirst(s: seq<ListenerId>, x: ListenerId): (r: seq<ListenerId>)
    ensures x !in s ==> r == s
  {
    if |s| == 0 then []
    else if s[0] == x then s[1..] else [s[0]] + RemoveFirst(s[1..], x)
  }

  /** When `x` occurs, exactly one occurrence of it goes and everything else stays. */
  lemma {:induction false} RemoveFirstRemovesOne(s: seq<ListenerId>, x: ListenerId)
    requires x in s
    ensures |RemoveFirst(s, x)| == |s| - 1
    ensures multiset(RemoveFirst(s, x)) == multiset(s) - multiset{x}
  {
    assert s == [s[0]] + s[1..];
    if s[0] != x {
      RemoveFirstRemovesOne(s[1..], x);
    }
  }

  /** Registering a listener appends it to its key's list, creating the list if needed. */
  function Subscribed(m: map<string, seq<ListenerId>>, key: string, l: ListenerId): (r: map<string, seq<ListenerId>>)
    ensures key in r && r[key] == ListenersAt(m, key) + [l]
    ensures forall k :: k != key ==> (k in r <==> k in m) && (k in m ==> r[k] == m[k])
  {
    m[key := ListenersAt(m, key) + [l]]
  }

  /**
   * The effect of an unsubscribe closure: when the key is present, drop the
   * first registration of the listener, and delete the key once its list is
   * empty; when the key is absent, nothing.
   */
  function Unsubscribed(m: map<string, seq<ListenerId>>, key: string, l: ListenerId): (r: map<string, seq<ListenerId>>)
    ensures key !in m ==> r == m
    ensures key in m && l !in m[key] && |m[key]| > 0 ==> r == m
    ensures key in r ==> key in m && r[key] == RemoveFirst(m[key], l) && |r[key]| > 0
    ensures key in m && key !in r ==> RemoveFirst(m[key], l) == []
    ensures forall k :: k != key ==> (k in r <==> k in m) && (k in m ==> r[k] == m[k])
  {
    if key !in m then m
    else
      var rest := RemoveFirst(m[key], l);
      if |rest| == 0 then m - {key} else m[key := rest]
  }

  /** Every list kept in the registry is non-empty: empty lists are deleted. */
  predicate NoEmptyLists(m: map<string, seq<ListenerId>>)
  {
    forall k :: k in m ==> |m[k]| > 0
  }

  /** Calling an unsubscribe closure a second time changes nothing when the listener was registered once. */
  lemma UnsubscribeTwiceIsOnce(m: map<string, seq<ListenerId>>, key: string, l: ListenerId)
    requires NoEmptyLists(m)
    requires key in m ==> multiset(m[key])[l] <= 1
    ensures Unsubscribed(Unsubscribed(m, key, l), key, l) == Unsubscribed(m, key, l)
  {
    var once := Unsubscribed(m, key, l);
    if key in once {
      var rest := once[key];
      assert multiset(rest)[l] == 0 by {
        if l in m[key] {
          RemoveFirstRemovesOne(m[key], l);
        }
      }
      assert l !in rest;
    }
  }

  /** Subscribing a fresh listener and then unsubscribing it restores the registry exactly. */
  lemma SubscribeThenUnsubscribe(m: map<string, seq<ListenerId>>, key: string, l: ListenerId)
    requires NoEmptyLists(m)
    requires l !in ListenersAt(m, key)
    ensures Unsubscribed(Subscribed(m, key, l), key, l) == m
  {
    RemoveFirstAppended(ListenersAt(m, key), l);
  }

  lemma {:induction false} RemoveFirstAppended(s: seq<ListenerId>, l: ListenerId)
    requires l !in s
    ensures RemoveFirst(s + [l], l) == s
  {
    if |s| > 0 {
      assert (s + [l])[1..] == s[1..] + [l];
      RemoveFirstAppended(s[1..], l);
    }
  }

  class MapStateManager {
    var curLevel: MapLevel
    var country: string
    var adcode: string
    var geoData: Option<FeatureCollection>
    var listeners: map<string, seq<ListenerId>>
    /** Every listener call made so far, in order. */
    var delivered: seq<Delivery>

    ghost predicate Valid()
      reads this
    {
      NoEmptyLists(listeners)
    }

    /** World level, China as country and adcode, no GeoJSON. */
    predicate AtDefaults()
      reads this
    {
      curLevel == World && country == "100000" && adcode == "100000" && geoData == None
    }

    /** What notifying `property` would call right now. */
    function Notifications(property: string, nv: StateValue, ov: StateValue): seq<Delivery>
      reads this
    {
      Deliveries(ListenersAt(listeners, ListenerKey(property)), property, nv, ov)
    }

    constructor ()
      ensures Valid() && AtDefaults()
      ensures listeners == map[] && delivered == []
    {
      curLevel, country, adcode, geoData := World, "100000", "100000", None;
      listeners, delivered := map[], [];
    }

    /** Calls each of the property's listeners with (new, old), in registration order. */
    method Notify(property: string, nv: StateValue, ov: StateValue)
      modifies this`delivered
      ensures delivered == old(delivered) + Notifications(property, nv, ov)
    {
      var ls := ListenersAt(listeners, ListenerKey(property));
      var i := 0;
      while i < |ls|
        invariant 0 <= i <= |ls|
        invariant delivered == old(delivered) + Deliveries(ls[..i], property, nv, ov)
      {
        assert ls[..i + 1][..i] == ls[..i];
        delivered := delivered + [Delivery(ls[i], property, nv, ov)];
        i := i + 1;
      }
      assert ls[..i] == ls;
    }

    method SetCurLevel(level: MapLevel)
      modifies this`curLevel, this`delivered
      ensures curLevel == level
      ensures delivered == old(delivered) + Notifications("curLevel", LevelValue(level), LevelValue(old(curLevel)))
    {
      var oldValue := curLevel;
      curLevel := level;
      Notify("curLevel", LevelValue(level), LevelValue(oldValue));
    }

    method SetCountry(c: string)
      modifies this`country, this`delivered
      ensures country == c
      ensures delivered == old(delivered) + Notifications("country", TextValue(c), TextValue(old(country)))
    {
      var oldValue := country;
      country := c;
      Notify("country", TextValue(c), TextValue(oldValue));
    }

    method SetAdcode(code: string)
      modifies this`adcode, this`delivered
      ensures adcode == code
      ensures delivered == old(delivered) + Notifications("adcode", TextValue(code), TextValue(old(adcode)))
    {
      var oldValue := adcode;
      adcode := code;
      Notify("adcode", TextValue(code), TextValue(oldValue));
    }

    /** The `geoData` setter. */
    method SetGeoDataProperty(data: Option<FeatureCollection>)
      modifies this`geoData, this`delivered
      ensures geoData == data
      ensures delivered == old(delivered) + Notifications("geoData", GeoValue(data), GeoValue(old(geoData)))
    {
      var oldValue := geoData;
      geoData := data;
      Notify("geoData", GeoValue(data), GeoValue(oldValue));
    }

    /** `setGeoData(x)`: the same as assigning `geoData = x`, notification included. */
    method SetGeoData(data: FeatureCollection)
      modifies this`geoData, this`delivered
      ensures geoData == Some(data)
      ensures delivered == old(delivered) + Notifications("geoData", GeoValue(Some(data)), GeoValue(old(geoData)))
    {
      SetGeoDataProperty(Some(data));
    }

    /** Back to the defaults, silently, keeping every listener. */
    method Reset()
      modifies this`curLevel, this`country, this`adcode, this`geoData
      ensures AtDefaults()
    {
      curLevel, country, adcode, geoData := World, "100000", "100000", None;
    }

    /** Registers a listener; the matching `Unsubscribe` call models the returned closure. */
    method OnPropertyChange(property: string, l: ListenerId)
      requires Valid()
      modifies this`listeners
      ensures Valid()
      ensures listeners == Subscribed(old(listeners), ListenerKey(property), l)
    {
      var key := ListenerKey(property);
      if key !in listeners {
        listeners := listeners[key := []];
      }
      listeners := listeners[key := listeners[key] + [l]];
    }

    method Unsubscribe(property: string, l: ListenerId)
      requires Valid()
      modifies this`listeners
      ensures Valid()
      ensures listeners == Unsubscribed(old(listeners), ListenerKey(property), l)
    {
      var key := ListenerKey(property);
      if key in listeners {
        var before := listeners[key];
        var ls := before;
        var index := IndexOf(ls, l);
        if index > -1 {
          ls := ls[..index] + ls[index + 1..];
          RemoveFirstAt(before, l, index);
        }
        assert ls == RemoveFirst(before, l);
        if |ls| == 0 {
          listeners := listeners - {key};
        } else {
          listeners := listeners[key := ls];
        }
      }
    }

    /** Drops every listener, then resets. */
    method Destroy()
      modifies this
      ensures listeners == map[] && AtDefaults() && Valid()
      ensures delivered == old(delivered)
    {
      listeners := map[];
      Reset();
    }
  }

  /** `indexOf`: the first position of `x`, or -1. */
  function IndexOf(s: seq<ListenerId>, x: ListenerId): (r: int)
    ensures -1 <= r < |s|
    ensures r == -1 <==> x !in s
    ensures r >= 0 ==> s[r] == x && x !in s[..r]
  {
    if |s| == 0 then -1
    else if s[0] == x then 0
    else
      var k := IndexOf(s[1..], x);
      if k == -1 then -1 else
        assert s[..k + 1] == [s[0]] + s[1..][..k];
        k + 1
  }

  lemma {:induction false} RemoveFirstAt(s: seq<ListenerId>, x: ListenerId, i: nat)
    requires i < |s| && s[i] == x && x !in s[..i]
    ensures RemoveFirst(s, x) == s[..i] + s[i + 1..]
  {
    if i > 0 {
      assert s[1..][..i - 1] == s[1..i];
      assert s[0] in s[..i];
      RemoveFirstAt(s[1..], x, i - 1);
      assert s[..i] == [s[0]] + s[1..][..i - 1];
      assert s[i + 1..] == s[1..][i..];
    }
  }

  lemma {:induction false} DeliveriesAppend(a: seq<ListenerId>, b: seq<ListenerId>, property: string, nv: StateValue, ov: StateValue)
    ensures Deliveries(a + b, property, nv, ov) == Deliveries(a, property, nv, ov) + Deliveries(b, property, nv, ov)
  {
    if |b| > 0 {
      var b' := b[..|b| - 1];
      assert (a + b)[..|a + b| - 1] == a + b';
      DeliveriesAppend(a, b', property, nv, ov);
    } else {
      assert a + b == a;
    }
  }
}
