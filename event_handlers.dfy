// The per-event handler lists both renderer adapters keep
// (packages/core/src/adapters/EChartsRenderer.ts and
// packages/core/src/adapters/DeckGLRenderer.ts carry the same `on`, `off`
// and `emit`). A handler is identified by an opaque number standing for the
// function object; `indexOf` compares functions by identity, which the
// number equality models. Removing the first occurrence is the same
// `splice(indexOf(..), 1)` the navigation state's listener lists use.
module EventHandlers {
  import opened Wrappers
  import MS = MapState

  type Handler = nat

  /** The `eventHandlers` Map: event name to its handlers in registration order. */
  type Handlers = map<string, seq<Handler>>

  /** The handlers `emit` calls for an event: none for an event never registered. */
  function HandlersOf(m: Handlers, event: string): seq<Handler>
  {
    if event in m then m[event] else []
  }

  /** `on`: creates the event's list if needed, then appends the handler. */
  function On(m: Handlers, event: string, h: Handler): (r: Handlers)
    ensures event in r && r[event] == HandlersOf(m, event) + [h]
    ensures forall e :: e in m ==> e in r
    ensures forall e :: e != event ==> (e in r <==> e in m) && (e in m ==> r[e] == m[e])
  {
    m[event := HandlersOf(m, event) + [h]]
  }

  /** `off`: removes the first registration of the handler for that event; nothing else changes. */
  function Off(m: Handlers, event: string, h: Handler): (r: Handlers)
    ensures r.Keys == m.Keys
    ensures forall e :: e in m && e != event ==> r[e] == m[e]
    ensures event in m ==> r[event] == MS.RemoveFirst(m[event], h)
  {
    if event in m then m[event := MS.RemoveFirst(m[event], h)] else m
  }

  /** `off` of a handler never registered for the event changes nothing. */
  lemma OffAbsentIsNoOp(m: Handlers, event: string, h: Handler)
    requires h !in HandlersOf(m, event)
    ensures Off(m, event, h) == m
  {
  }

  /**
   * `off` undoes `on`: registering a handler that was not yet there and then
   * removing it leaves every event's handler list as it was.
   */
  lemma OnThenOff(m: Handlers, event: string, h: Handler)
    requires h !in HandlersOf(m, event)
    ensures forall e :: HandlersOf(Off(On(m, event, h), event, h), e) == HandlersOf(m, e)
  {
    MS.RemoveFirstAppended(HandlersOf(m, event), h);
  }

  /** Removing the first `h` from a list whose front already holds one touches only the front. */
  lemma {:induction false} RemoveFirstInFront(a: seq<Handler>, b: seq<Handler>, h: Handler)
    requires h in a
    ensures MS.RemoveFirst(a + b, h) == MS.RemoveFirst(a, h) + b
  {
    assert (a + b)[0] == a[0];
    if a[0] != h {
      assert (a + b)[1..] == a[1..] + b;
      RemoveFirstInFront(a[1..], b, h);
    }
  }

  /** Registering the same handler twice makes `emit` call it twice, and one `off` removes only one of them. */
  lemma OnTwiceOffOnce(m: Handlers, event: string, h: Handler)
    requires h !in HandlersOf(m, event)
    ensures HandlersOf(Off(On(On(m, event, h), event, h), event, h), event) == HandlersOf(m, event) + [h]
  {
    var s := HandlersOf(m, event);
    RemoveFirstInFront(s + [h], [h], h);
    MS.RemoveFirstAppended(s, h);
  }

  /** One handler call made by `emit`. */
  datatype Call<T> = Call(handler: Handler, event: string, data: T)

  /** `emit`: the event's handlers called in registration order with the data; an unknown event calls none. */
  function Emit<T>(m: Handlers, event: string, data: T): (r: seq<Call<T>>)
    ensures |r| == |HandlersOf(m, event)|
    ensures forall k :: 0 <= k < |r| ==> r[k] == Call(HandlersOf(m, event)[k], event, data)
    ensures event !in m ==> r == []
  {
    var hs := HandlersOf(m, event);
    seq(|hs|, k requires 0 <= k < |hs| => Call(hs[k], event, data))
  }
}
