// Easing curves, one animation's update step and the manager that steps
// every running animation once per frame (packages/utils/src/animation.ts).
// The frame clock is a parameter; `onUpdate` and `onComplete` calls are
// recorded in order instead of being made.
module Animation {
  import opened Wrappers

  datatype Easing = Linear | EaseInQuad | EaseOutQuad | EaseInOutQuad | EaseInCubic | EaseOutCubic | EaseInOutCubic

  /** The `easing` table lookup; a name not in the table falls back to linear. */
  function EasingByName(name: string): (e: Easing)
    ensures name == "linear" ==> e == Linear
    ensures name == "easeInOutQuad" ==> e == EaseInOutQuad
  {
    if name == "easeInQuad" then EaseInQuad
    else if name == "easeOutQuad" then EaseOutQuad
    else if name == "easeInOutQuad" then EaseInOutQuad
    else if name == "easeInCubic" then EaseInCubic
    else if name == "easeOutCubic" then EaseOutCubic
    else if name == "easeInOutCubic" then EaseInOutCubic
    else Linear
  }

  /** The names of the table. */
  predicate KnownEasing(name: string)
  {
    name in {"linear", "easeInQuad", "easeOutQuad", "easeInOutQuad", "easeInCubic", "easeOutCubic", "easeInOutCubic"}
  }

  /** An unknown name behaves as linear. */
  lemma UnknownEasingIsLinear(name: string)
    requires !KnownEasing(name)
    ensures EasingByName(name) == Linear
  {
  }

  function Apply(e: Easing, t: real): real
  {
    match e
    case Linear => t
    case EaseInQuad => t * t
    case EaseOutQuad => t * (2.0 - t)
    case EaseInOutQuad => if t < 0.5 then 2.0 * t * t else -1.0 + (4.0 - 2.0 * t) * t
    case EaseInCubic => t * t * t
    case EaseOutCubic => (t - 1.0) * (t - 1.0) * (t - 1.0) + 1.0
    case EaseInOutCubic => if t < 0.5 then 4.0 * t * t * t else (t - 1.0) * (2.0 * t - 2.0) * (2.0 * t - 2.0) + 1.0
  }

  /** Every easing starts at 0 and ends at 1. */
  lemma EasingEnds(e: Easing)
    ensures Apply(e, 0.0) == 0.0 && Apply(e, 1.0) == 1.0
  {
  }

  /** What a caller may leave out of an animation's configuration. */
  datatype ConfigInput = ConfigInput(enabled: Option<bool>, duration: Option<real>, easing: Option<string>,
                                     delay: Option<real>, kind: Option<string>, from: real, to: real,
                                     loop: bool, hasOnComplete: bool)

  /** The configuration with its defaults filled in. */
  datatype Config = Config(enabled: bool, duration: real, easing: string, delay: real, kind: string,
                           from: real, to: real, loop: bool, hasOnComplete: bool)

  /** The constructor's defaults: enabled, 1000 ms, easeInOutQuad, no delay, fade-in. */
  function Resolve(c: ConfigInput): (r: Config)
    ensures c.enabled.None? ==> r.enabled
    ensures c.duration.None? ==> r.duration == 1000.0
    ensures c.easing.None? ==> r.easing == "easeInOutQuad"
    ensures c.delay.None? ==> r.delay == 0.0
    ensures c.kind.None? ==> r.kind == "fadeIn"
    ensures c.enabled.Some? ==> r.enabled == c.enabled.value
    ensures c.duration.Some? ==> r.duration == c.duration.value
    ensures c.easing.Some? ==> r.easing == c.easing.value
    ensures c.delay.Some? ==> r.delay == c.delay.value
    ensures c.kind.Some? ==> r.kind == c.kind.value
    ensures r.from == c.from && r.to == c.to && r.loop == c.loop && r.hasOnComplete == c.hasOnComplete
  {
    Config(c.enabled.GetOr(true), c.duration.GetOr(1000.0), c.easing.GetOr("easeInOutQuad"),
           c.delay.GetOr(0.0), c.kind.GetOr("fadeIn"), c.from, c.to, c.loop, c.hasOnComplete)
  }

  /** An animation: its configuration and its start time, where null and 0 both mean "not started". */
  datatype AnimState = AnimState(config: Config, startTime: Option<real>)

  predicate Started(a: AnimState)
  {
    a.startTime.Some? && a.startTime.value != 0.0
  }

  /** `duration || 1000`. */
  function EffectiveDuration(d: real): (r: real)
    ensures r != 0.0
  {
    if d == 0.0 then 1000.0 else d
  }

  /** What one update produces: the new state, the eased progress, the value, and whether it completed. */
  datatype Step = Step(next: AnimState, progress: real, value: real, complete: bool)

  /** The elapsed time of an update at `now`, measured from the start it fixes. */
  function StartOf(a: AnimState, now: real): real
  {
    if Started(a) then a.startTime.value else now
  }

  /**
   * `update(now)`: the first update fixes the start; progress is the eased
   * `min(elapsed / duration, 1)`; once `elapsed >= duration` a looping
   * animation restarts at `now` and reports not complete, any other completes.
   */
  function Advance(a: AnimState, now: real): Step
  {
    StepFrom(a.config, StartOf(a, now), now)
  }

  /** The update at `now` of an animation whose start is fixed at `start`. */
  function StepFrom(c: Config, start: real, now: real): Step
  {
    var elapsed := now - start;
    var duration := EffectiveDuration(c.duration);
    var ratio := elapsed / duration;
    var progress := Apply(EasingByName(c.easing), if ratio <= 1.0 then ratio else 1.0);
    var value := c.from + (c.to - c.from) * progress;
    var done := elapsed >= duration;
    var next := if done && c.loop then AnimState(c, Some(now)) else AnimState(c, Some(start));
    Step(next, progress, value, done && !c.loop)
  }

  /**
   * An update completes iff the elapsed time reached the duration and the
   * animation does not loop; a looping one restarts at `now`; the start
   * otherwise stays where the first update put it.
   */
  lemma UpdateCompletion(a: AnimState, now: real)
    ensures var s := Advance(a, now);
            var elapsed := now - StartOf(a, now);
            (s.complete <==> elapsed >= EffectiveDuration(a.config.duration) && !a.config.loop)
            && (elapsed >= EffectiveDuration(a.config.duration) && a.config.loop ==> s.next.startTime == Some(now))
            && (elapsed < EffectiveDuration(a.config.duration) ==> s.next.startTime == Some(StartOf(a, now)))
            && s.next.config == a.config
  {
  }

  /** A start time of 0 counts as not started: it behaves exactly like null. */
  lemma ZeroStartIsUnset(c: Config, now: real)
    ensures Advance(AnimState(c, Some(0.0)), now) == Advance(AnimState(c, None), now)
    ensures Advance(AnimState(c, None), now).next.startTime == Some(now)
  {
    assert StartOf(AnimState(c, Some(0.0)), now) == now == StartOf(AnimState(c, None), now);
  }

  /** The first update of an animation with a positive duration starts it at `now`, at progress 0 and the `from` value. */
  lemma FirstUpdate(a: AnimState, now: real)
    requires !Started(a) && a.config.duration > 0.0
    ensures var s := Advance(a, now);
            s.progress == 0.0 && s.value == a.config.from && !s.complete && s.next.startTime == Some(now)
  {
    EasingEnds(EasingByName(a.config.easing));
  }

  /** A completing update reports progress 1 and the `to` value, for a positive duration. */
  lemma CompletionReachesTarget(a: AnimState, now: real)
    requires a.config.duration > 0.0
    requires now - StartOf(a, now) >= a.config.duration
    ensures Advance(a, now).progress == 1.0 && Advance(a, now).value == a.config.to
  {
    var d := a.config.duration;
    var elapsed := now - StartOf(a, now);
    assert elapsed / d >= 1.0 by {
      assert elapsed / d * d == elapsed;
    }
    EasingEnds(EasingByName(a.config.easing));
  }

  /** One animation. */
  class Animation {
    var state: AnimState

    constructor (config: ConfigInput)
      ensures state == AnimState(Resolve(config), None)
    {
      state := AnimState(Resolve(config), None);
    }

    method Update(now: real) returns (complete: bool, progress: real, value: real)
      modifies this
      ensures Step(state, progress, value, complete) == Advance(old(state), now)
    {
      var s := Advance(state, now);
      state := s.next;
      complete := s.complete;
      progress := s.progress;
      value := s.value;
    }
  }

  /** One registered animation; the manager keeps them in the order their ids were first set. */
  datatype Entry = Entry(id: string, anim: AnimState)

  /** A callback made during a frame. */
  datatype Callback = OnUpdate(id: string, progress: real, value: real) | OnComplete(id: string)

  function Ids(entries: seq<Entry>): (r: seq<string>)
    ensures |r| == |entries|
    ensures forall k :: 0 <= k < |entries| ==> r[k] == entries[k].id
  {
    seq(|entries|, k requires 0 <= k < |entries| => entries[k].id)
  }

  predicate DistinctIds(entries: seq<Entry>)
  {
    forall i, j :: 0 <= i < j < |entries| ==> entries[i].id != entries[j].id
  }

  /** `animations.set(id, a)`: an existing id keeps its place and takes the new animation; a new id goes last. */
  function SetEntry(entries: seq<Entry>, id: string, a: AnimState): (r: seq<Entry>)
    requires DistinctIds(entries)
    ensures DistinctIds(r)
    ensures id in Ids(entries) ==> |r| == |entries| && forall k :: 0 <= k < |r| ==>
              r[k] == (if entries[k].id == id then Entry(id, a) else entries[k])
    ensures id !in Ids(entries) ==> r == entries + [Entry(id, a)]
  {
    if id in Ids(entries) then
      seq(|entries|, k requires 0 <= k < |entries| => if entries[k].id == id then Entry(id, a) else entries[k])
    else entries + [Entry(id, a)]
  }

  /** `animations.delete(id)`: the other entries, in order. */
  function DeleteEntry(entries: seq<Entry>, id: string): (r: seq<Entry>)
    ensures forall e :: e in r <==> e in entries && e.id != id
    ensures DistinctIds(entries) ==> DistinctIds(r)
    ensures |r| <= |entries|
  {
    if |entries| == 0 then []
    else
      var front := DeleteEntry(entries[..|entries| - 1], id);
      var last := entries[|entries| - 1];
      assert forall e :: e in entries <==> e in entries[..|entries| - 1] || e == last;
      if last.id == id then front else front + [last]
  }

  /**
   * Deletion keeps the order of what stays: deleting from two parts joined
   * is deleting from each part, and one entry stays exactly when its id is
   * another.
   */
  lemma {:induction false} DeleteEntryKeepsOrder(a: seq<Entry>, b: seq<Entry>, e: Entry, id: string)
    ensures DeleteEntry(a + b, id) == DeleteEntry(a, id) + DeleteEntry(b, id)
    ensures DeleteEntry([e], id) == if e.id == id then [] else [e]
  {
    assert [e][..0] == [];
    DeleteEntryAppend(a, b, id);
  }

  lemma {:induction false} DeleteEntryAppend(a: seq<Entry>, b: seq<Entry>, id: string)
    ensures DeleteEntry(a + b, id) == DeleteEntry(a, id) + DeleteEntry(b, id)
  {
    if |b| == 0 {
      assert a + b == a;
    } else {
      var init := b[..|b| - 1];
      var last := b[|b| - 1];
      var stays := if last.id == id then [] else [last];
      assert (a + b)[..|a + b| - 1] == a + init;
      assert (a + b)[|a + b| - 1] == last;
      DeleteEntryAppend(a, init, id);
      assert DeleteEntry(a + b, id) == DeleteEntry(a + init, id) + stays;
      assert DeleteEntry(b, id) == DeleteEntry(init, id) + stays;
    }
  }

  /** Deleting an id removes it and nothing else; deleting it again changes nothing. */
  lemma {:induction false} DeleteEntryIdempotent(entries: seq<Entry>, id: string)
    ensures DeleteEntry(DeleteEntry(entries, id), id) == DeleteEntry(entries, id)
    ensures id !in Ids(DeleteEntry(entries, id))
  {
    if |entries| > 0 {
      DeleteEntryIdempotent(entries[..|entries| - 1], id);
    }
    var r := DeleteEntry(entries, id);
    assert forall k :: 0 <= k < |r| ==> r[k] in r;
  }

  /**
   * One frame over the entries in order: each animation is updated, its
   * `onUpdate` made and, when it completes, its `onComplete` (if any);
   * completed ones are dropped, the others keep their new state.
   */
  function Frame(entries: seq<Entry>, now: real): (r: (seq<Entry>, seq<Callback>))
    ensures |r.0| <= |entries|
  {
    if |entries| == 0 then ([], [])
    else
      var init := entries[..|entries| - 1];
      var front := Frame(init, now);
      var last := entries[|entries| - 1];
      var s := Advance(last.anim, now);
      var calls := CallsOf(last, now);
      if s.complete then (front.0, front.1 + calls)
      else
        (front.0 + [Entry(last.id, s.next)], front.1 + calls)
  }

  /** The callbacks one entry's update makes: `onUpdate`, then `onComplete` when it completes and has one. */
  function CallsOf(e: Entry, now: real): (r: seq<Callback>)
    ensures |r| >= 1 && r[0] == OnUpdate(e.id, Advance(e.anim, now).progress, Advance(e.anim, now).value)
    ensures |r| == 2 <==> Advance(e.anim, now).complete && e.anim.config.hasOnComplete
    ensures |r| == 2 ==> r[1] == OnComplete(e.id)
  {
    var s := Advance(e.anim, now);
    [OnUpdate(e.id, s.progress, s.value)] + if s.complete && e.anim.config.hasOnComplete then [OnComplete(e.id)] else []
  }

  /** A frame over one more entry extends the frame over the others by that entry's update. */
  lemma FrameSnoc(entries: seq<Entry>, e: Entry, now: real)
    ensures var f := Frame(entries, now);
            var s := Advance(e.anim, now);
            Frame(entries + [e], now) == (if s.complete then f.0 else f.0 + [Entry(e.id, s.next)], f.1 + CallsOf(e, now))
  {
    assert (entries + [e])[..|entries|] == entries;
  }

  /** After a frame, exactly the animations that did not complete remain, each with its updated state. */
  lemma {:induction false} FrameKeepsIncomplete(entries: seq<Entry>, now: real, k: nat)
    requires k < |entries|
    ensures !Advance(entries[k].anim, now).complete ==> Entry(entries[k].id, Advance(entries[k].anim, now).next) in Frame(entries, now).0
  {
    var n := |entries| - 1;
    if k < n {
      assert entries[..n][k] == entries[k];
      FrameKeepsIncomplete(entries[..n], now, k);
    }
  }

  /** Everything left after a frame is the updated state of an animation that did not complete. */
  lemma {:induction false} FrameOnlyIncomplete(entries: seq<Entry>, now: real, e: Entry)
    requires e in Frame(entries, now).0
    ensures exists k :: 0 <= k < |entries| && entries[k].id == e.id
                        && !Advance(entries[k].anim, now).complete && e.anim == Advance(entries[k].anim, now).next
  {
    var n := |entries| - 1;
    var init := entries[..n];
    var s := Advance(entries[n].anim, now);
    if e in Frame(init, now).0 {
      FrameOnlyIncomplete(init, now, e);
      var k :| 0 <= k < n && init[k].id == e.id && !Advance(init[k].anim, now).complete && e.anim == Advance(init[k].anim, now).next;
      assert entries[k] == init[k];
    } else {
      assert e == Entry(entries[n].id, s.next);
    }
  }

  /** Completed animations are gone after the frame, when ids are distinct. */
  lemma FrameDropsComplete(entries: seq<Entry>, now: real, k: nat)
    requires k < |entries| && DistinctIds(entries)
    requires Advance(entries[k].anim, now).complete
    ensures entries[k].id !in Ids(Frame(entries, now).0)
  {
    var r := Frame(entries, now).0;
    if entries[k].id in Ids(r) {
      var j :| 0 <= j < |r| && r[j].id == entries[k].id;
      assert r[j] in r;
      FrameOnlyIncomplete(entries, now, r[j]);
    }
  }

  /** A frame keeps only ids it was given, so distinct ids stay distinct. */
  lemma {:induction false} FrameKeepsDistinct(entries: seq<Entry>, now: real)
    requires DistinctIds(entries)
    ensures DistinctIds(Frame(entries, now).0)
    ensures forall k :: 0 <= k < |Frame(entries, now).0| ==> Frame(entries, now).0[k].id in Ids(entries)
  {
    if |entries| > 0 {
      var n := |entries| - 1;
      var init := entries[..n];
      assert forall i :: 0 <= i < n ==> init[i] == entries[i];
      FrameKeepsDistinct(init, now);
      var f := Frame(init, now).0;
      forall k | 0 <= k < |f|
        ensures f[k].id != entries[n].id && f[k].id in Ids(entries)
      {
        var j :| 0 <= j < |init| && Ids(init)[j] == f[k].id;
        assert init[j] == entries[j];
      }
    }
  }

  /** The animation registry and whether a frame is scheduled. */
  class AnimationManager {
    var animations: seq<Entry>
    var running: bool
    var callbacks: seq<Callback>

    ghost predicate Valid()
      reads this
    {
      DistinctIds(animations)
    }

    constructor ()
      ensures Valid() && animations == [] && !running && callbacks == []
    {
      animations := [];
      running := false;
      callbacks := [];
    }

    /** `create`: registers a fresh animation under `id` and schedules frames if none are. */
    method Create(id: string, config: ConfigInput)
      requires Valid()
      modifies this
      ensures Valid()
      ensures animations == SetEntry(old(animations), id, AnimState(Resolve(config), None))
      ensures running
      ensures callbacks == old(callbacks)
    {
      animations := SetEntry(animations, id, AnimState(Resolve(config), None));
      running := true;
    }

    /** `stop`: removes `id`; frames stop once nothing is left. */
    method Stop(id: string)
      requires Valid()
      modifies this
      ensures Valid()
      ensures animations == DeleteEntry(old(animations), id)
      ensures running == (old(running) && |animations| > 0)
      ensures callbacks == old(callbacks)
    {
      animations := DeleteEntry(animations, id);
      if |animations| == 0 && running {
        running := false;
      }
    }

    /** `stopAll`: forgets every animation and stops the frames. */
    method StopAll()
      modifies this
      ensures Valid() && animations == [] && !running
      ensures callbacks == old(callbacks)
    {
      animations := [];
      running := false;
    }

    /** One animation frame at time `now`; frames continue while animations remain. */
    method AnimateFrame(now: real)
      requires Valid()
      modifies this
      ensures Valid()
      ensures animations == Frame(old(animations), now).0
      ensures callbacks == old(callbacks) + Frame(old(animations), now).1
      ensures running == (|animations| > 0)
    {
      var remaining: seq<Entry> := [];
      var made: seq<Callback> := [];
      var entries := animations;
      var i := 0;
      while i < |entries|
        invariant 0 <= i <= |entries|
        invariant (remaining, made) == Frame(entries[..i], now)
        invariant callbacks == old(callbacks) && entries == old(animations)
      {
        var entry := entries[i];
        assert entries[..i + 1] == entries[..i] + [entry];
        FrameSnoc(entries[..i], entry, now);
        var s := Advance(entry.anim, now);
        var calls := [OnUpdate(entry.id, s.progress, s.value)];
        if s.complete && entry.anim.config.hasOnComplete {
          calls := calls + [OnComplete(entry.id)];
        }
        assert calls == CallsOf(entry, now);
        made := made + calls;
        if !s.complete {
          remaining := remaining + [Entry(entry.id, s.next)];
        }
        i := i + 1;
      }
      assert entries[..i] == entries;
      FrameKeepsDistinct(entries, now);
      animations := remaining;
      callbacks := callbacks + made;
      running := |animations| > 0;
    }
  }
}
