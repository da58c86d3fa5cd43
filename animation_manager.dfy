// The animation manager (packages/core/src/animation-manager.ts): the
// registry of animation presets, custom animations built over a preset, the
// application of an animation to an ECharts option, and the staggered,
// region-switch and data-update animations.
module AnimationManager {
  import opened Wrappers
  import opened ChartOption
  import OM = OrderedMaps

  /** An animation preset; its type is one of 'fadeIn', 'slideIn', 'zoomIn' and 'bounce', or absent. */
  datatype Animation = Animation(name: string, enabled: bool, duration: real, easing: string,
                                 delay: Option<real>, kind: Option<string>)

  // ---------------------------------------------------------------------
  // The presets.

  const FadeInPreset: Animation := Animation("fadeIn", true, 1000.0, "cubicOut", Some(0.0), Some("fadeIn"))
  const SlideInPreset: Animation := Animation("slideIn", true, 800.0, "cubicOut", Some(100.0), Some("slideIn"))
  const ZoomInPreset: Animation := Animation("zoomIn", true, 600.0, "backOut", Some(0.0), Some("zoomIn"))
  const BouncePreset: Animation := Animation("bounce", true, 1200.0, "bounceOut", Some(200.0), Some("bounce"))
  const QuickPreset: Animation := Animation("quick", true, 300.0, "cubicOut", Some(0.0), Some("fadeIn"))
  const SlowPreset: Animation := Animation("slow", true, 2000.0, "cubicInOut", Some(0.0), Some("fadeIn"))

  /** The registry the presets make, in the order they are registered. */
  const Presets: OM.OrderedMap<string, Animation> :=
    OM.OrderedMap(["fadeIn", "slideIn", "zoomIn", "bounce", "quick", "slow"],
                  map["fadeIn" := FadeInPreset, "slideIn" := SlideInPreset, "zoomIn" := ZoomInPreset,
                      "bounce" := BouncePreset, "quick" := QuickPreset, "slow" := SlowPreset])

  lemma PresetsValid()
    ensures OM.Valid(Presets) && "fadeIn" in Presets.entries
  {
  }

  /** The easing names ECharts accepts, as `getEasingFunctions` lists them. */
  const EasingFunctions: seq<string> := [
    "linear", "quadraticIn", "quadraticOut", "quadraticInOut", "cubicIn", "cubicOut", "cubicInOut",
    "quarticIn", "quarticOut", "quarticInOut", "quinticIn", "quinticOut", "quinticInOut",
    "sinusoidalIn", "sinusoidalOut", "sinusoidalInOut", "exponentialIn", "exponentialOut", "exponentialInOut",
    "circularIn", "circularOut", "circularInOut", "elasticIn", "elasticOut", "elasticInOut",
    "backIn", "backOut", "backInOut", "bounceIn", "bounceOut", "bounceInOut"]

  /** Thirty-one easings, and every preset's easing is among them. */
  lemma PresetEasingsListed()
    ensures |EasingFunctions| == 31
    ensures forall k :: k in Presets.entries ==> Presets.entries[k].easing in EasingFunctions
  {
    assert EasingFunctions[5] == "cubicOut" && EasingFunctions[26] == "backOut";
    assert EasingFunctions[29] == "bounceOut" && EasingFunctions[6] == "cubicInOut";
  }

  // ---------------------------------------------------------------------
  // Custom animations.

  datatype AnimationOverrides = AnimationOverrides(enabled: Option<bool>, duration: Option<real>, easing: Option<string>,
                                                   delay: Option<real>, kind: Option<string>)

  /** `{ ...base, ...overrides, name }`. */
  function Customised(base: Animation, name: string, o: AnimationOverrides): (a: Animation)
    ensures a.name == name
  {
    Animation(name, o.enabled.GetOr(base.enabled), o.duration.GetOr(base.duration), o.easing.GetOr(base.easing),
              if o.delay.Some? then o.delay else base.delay, if o.kind.Some? then o.kind else base.kind)
  }

  /** An override wins; what it leaves out is the base's; nothing but the name changes without overrides. */
  lemma CustomisedOverridesWin(base: Animation, name: string, o: AnimationOverrides)
    ensures var a := Customised(base, name, o);
            (o.duration.Some? ==> a.duration == o.duration.value) && (o.duration.None? ==> a.duration == base.duration)
            && (o.delay.Some? ==> a.delay == o.delay) && (o.delay.None? ==> a.delay == base.delay)
            && (o == AnimationOverrides(None, None, None, None, None) ==> a == base.(name := name))
  {
  }

  // ---------------------------------------------------------------------
  // Applying an animation.

  /** The four types an `AnimationConfig` may name. */
  const KnownTypes: seq<string> := ["fadeIn", "slideIn", "zoomIn", "bounce"]

  /** `getAnimationType`: the ECharts name of an animation type; only zoomIn is renamed, and any other type, or none, means fadeIn. */
  function AnimationType(kind: Option<string>): (r: string)
    ensures kind == Some("zoomIn") ==> r == "scale"
    ensures kind.None? || kind.value !in KnownTypes ==> r == "fadeIn"
    ensures kind.Some? && kind.value in KnownTypes && kind.value != "zoomIn" ==> r == kind.value
  {
    if kind == Some("fadeIn") then "fadeIn"
    else if kind == Some("slideIn") then "slideIn"
    else if kind == Some("zoomIn") then "scale"
    else if kind == Some("bounce") then "bounce"
    else "fadeIn"
  }

  /** Distinct known types keep distinct ECharts names. */
  lemma AnimationTypeDistinct(i: int, j: int)
    requires 0 <= i < |KnownTypes| && 0 <= j < |KnownTypes|
    ensures AnimationType(Some(KnownTypes[i])) == AnimationType(Some(KnownTypes[j])) <==> i == j
  {
  }

  /** `animation.delay`, which is `undefined` when it is not given. */
  function DelayValue(delay: Option<real>): Value
  {
    if delay.Some? then Number(delay.value) else Undef
  }

  /** What a tooltip is given: the animation switched on, with the duration and easing. */
  function TooltipAnimation(a: Animation): Fields
  {
    map["animation" := Flag(true), "animationDuration" := Number(a.duration), "animationEasing" := Text(a.easing)]
  }

  /** What the geo component is given: the tooltip's, and the delay. */
  function GeoAnimation(a: Animation): Fields
  {
    TooltipAnimation(a)["animationDelay" := DelayValue(a.delay)]
  }

  /** What every series is given: the geo component's, and the ECharts animation type. */
  function SeriesAnimation(a: Animation): Fields
  {
    GeoAnimation(a)["animationType" := Text(AnimationType(a.kind))]
  }

  /** One series, spread, with the animation's fields over it. */
  function AnimatedSeries(a: Animation, series: Value): Value
  {
    Obj(Spread(series) + SeriesAnimation(a))
  }

  /** Every series animated, in order. */
  function AnimatedAll(a: Animation, items: seq<Value>): (r: seq<Value>)
    ensures |r| == |items|
  {
    seq(|items|, i requires 0 <= i < |items| => AnimatedSeries(a, items[i]))
  }

  lemma AnimatedAllTwice(a: Animation, items: seq<Value>)
    ensures AnimatedAll(a, AnimatedAll(a, items)) == AnimatedAll(a, items)
  {
    forall i | 0 <= i < |items|
      ensures AnimatedSeries(a, AnimatedAll(a, items)[i]) == AnimatedAll(a, items)[i]
    {
      MergeTwice(Spread(items[i]), SeriesAnimation(a));
    }
  }

  /** `series.map(...)`, which fails on a series that is truthy but not an array. */
  predicate SeriesFails(base: Fields)
  {
    "series" in base && Truthy(base["series"]) && !base["series"].Arr?
  }

  /**
   * `applyAnimation`: a disabled animation returns the option itself;
   * otherwise every series, the geo component and the tooltip take the
   * animation's fields. None is the TypeError of a series that cannot be
   * mapped.
   */
  function ApplyAnimation(a: Animation, base: Fields): (r: Option<Fields>)
    ensures r.None? <==> a.enabled && SeriesFails(base)
    ensures !a.enabled ==> r == Some(base)
    ensures r.Some? ==> r.value.Keys == base.Keys
    ensures r.Some? ==> forall k :: k in base && k != "series" && k != "geo" && k != "tooltip" ==> r.value[k] == base[k]
  {
    if !a.enabled then Some(base)
    else if SeriesFails(base) then None
    else
      var c1 := if "series" in base && base["series"].Arr? then
                  base["series" := Arr(AnimatedAll(a, base["series"].items))]
                else base;
      var c2 := if HasObject(base, "geo") then c1["geo" := Obj(base["geo"].fields + GeoAnimation(a))] else c1;
      Some(if HasObject(base, "tooltip") then c2["tooltip" := Obj(base["tooltip"].fields + TooltipAnimation(a))] else c2)
  }

  /**
   * With an enabled animation, every series is kept in place with the
   * animation's fields over its own, and the geo component and the tooltip
   * take theirs.
   */
  lemma ApplyAnimationFields(a: Animation, base: Fields)
    requires a.enabled && !SeriesFails(base)
    ensures var r := ApplyAnimation(a, base).value;
            ("series" in base && base["series"].Arr? ==>
               r["series"].Arr? && |r["series"].items| == |base["series"].items|
               && forall i :: 0 <= i < |base["series"].items| ==>
                    r["series"].items[i].Obj?
                    && (forall k :: k in SeriesAnimation(a) ==> r["series"].items[i].fields[k] == SeriesAnimation(a)[k])
                    && (forall k :: k in Spread(base["series"].items[i]) && k !in SeriesAnimation(a) ==>
                          r["series"].items[i].fields[k] == Spread(base["series"].items[i])[k]))
            && (HasObject(base, "geo") ==> forall k :: k in GeoAnimation(a) ==> r["geo"].fields[k] == GeoAnimation(a)[k])
            && (HasObject(base, "tooltip") ==> forall k :: k in TooltipAnimation(a) ==> r["tooltip"].fields[k] == TooltipAnimation(a)[k])
  {
  }

  /** What `ApplyAnimation` puts under each property of the option. */
  lemma ApplyAnimationAt(a: Animation, base: Fields, k: string)
    requires a.enabled && !SeriesFails(base)
    ensures Prop(ApplyAnimation(a, base).value, k) ==
              if k == "series" && k in base && base[k].Arr? then Arr(AnimatedAll(a, base[k].items))
              else if k == "geo" && HasObject(base, k) then Obj(base[k].fields + GeoAnimation(a))
              else if k == "tooltip" && HasObject(base, k) then Obj(base[k].fields + TooltipAnimation(a))
              else Prop(base, k)
  {
  }

  /** Applying an animation twice is applying it once. */
  lemma ApplyAnimationTwice(a: Animation, base: Fields)
    requires ApplyAnimation(a, base).Some?
    ensures ApplyAnimation(a, ApplyAnimation(a, base).value) == ApplyAnimation(a, base)
  {
    var once := ApplyAnimation(a, base).value;
    if a.enabled {
      ApplyAnimationAt(a, base, "series");
      assert !SeriesFails(once);
      var twice := ApplyAnimation(a, once).value;
      forall k | k in once
        ensures k in twice && twice[k] == once[k]
      {
        ApplyAnimationAt(a, base, k);
        ApplyAnimationAt(a, once, k);
        if k == "series" && base[k].Arr? {
          AnimatedAllTwice(a, base[k].items);
        } else if k == "geo" && HasObject(base, k) {
          MergeTwice(base[k].fields, GeoAnimation(a));
        } else if k == "tooltip" && HasObject(base, k) {
          MergeTwice(base[k].fields, TooltipAnimation(a));
        }
      }
      assert twice.Keys == once.Keys;
      assert twice == once;
    }
  }

  /** `animation.delay || 0`. */
  function DelayOrZero(delay: Option<real>): real
  {
    delay.GetOr(0.0)
  }

  /**
   * `createDataLoadingAnimation`: a disabled animation returns the data;
   * otherwise each item takes the duration and easing, and a delay that
   * starts at the animation's and grows by 50 ms per item.
   */
  function DataLoading(data: seq<Value>, a: Animation): (r: seq<Value>)
    ensures |r| == |data|
    ensures !a.enabled ==> r == data
    ensures a.enabled ==> forall i :: 0 <= i < |data| ==> LoadingItem(r[i], data[i], a, i)
  {
    if !a.enabled then data
    else seq(|data|, i requires 0 <= i < |data| => Loaded(data[i], a, i))
  }

  /** `{...item, animationDelay, animationDuration, animationEasing}` for the item at place `i`. */
  function Loaded(item: Value, a: Animation, i: nat): (r: Value)
    ensures LoadingItem(r, item, a, i)
  {
    Obj(Spread(item) + map["animationDelay" := Number(DelayOrZero(a.delay) + (i as real) * 50.0),
                           "animationDuration" := Number(a.duration), "animationEasing" := Text(a.easing)])
  }

  /** The names of the three properties a loading animation sets on each item. */
  const LoadingKeys: set<string> := {"animationDelay", "animationDuration", "animationEasing"}

  /**
   * The `i`-th loaded item: an object holding the item's own properties (`{...item}`)
   * and the three animation properties, the delay being the animation's delay
   * (0 when unset) plus 50 ms per place.
   */
  ghost predicate LoadingItem(v: Value, item: Value, a: Animation, i: nat)
  {
    && v.Obj?
    && v.fields.Keys == Spread(item).Keys + LoadingKeys
    && v.fields["animationDelay"] == Number(DelayOrZero(a.delay) + i as real * 50.0)
    && v.fields["animationDuration"] == Number(a.duration)
    && v.fields["animationEasing"] == Text(a.easing)
    && forall k :: k in Spread(item) && k !in LoadingKeys ==> v.fields[k] == Spread(item)[k]
  }

  /** The items' delays are staggered: the `i`-th has the animation's delay plus 50 ms per place, so two items differ by 50 ms per place between them. */
  lemma DataLoadingStaggered(data: seq<Value>, a: Animation, i: int, j: int)
    requires a.enabled && 0 <= i <= j < |data|
    ensures var r := DataLoading(data, a);
            r[i].Obj? && r[j].Obj?
            && r[i].fields["animationDelay"].Number? && r[j].fields["animationDelay"].Number?
            && r[j].fields["animationDelay"].n - r[i].fields["animationDelay"].n == (j - i) as real * 50.0
            && r[i].fields["animationDelay"].n == DelayOrZero(a.delay) + i as real * 50.0
  {
    assert LoadingItem(DataLoading(data, a)[i], data[i], a, i);
    assert LoadingItem(DataLoading(data, a)[j], data[j], a, j);
  }

  /**
   * `createRegionSwitchAnimation`: nothing when disabled; otherwise the
   * animation's fields and a transition between the two regions with the
   * same duration and easing.
   */
  function RegionSwitch(fromRegion: string, toRegion: string, a: Animation): (r: Fields)
    ensures !a.enabled ==> r == map[]
    ensures a.enabled ==> "transition" in r && "animation" in r
  {
    if !a.enabled then map[]
    else GeoAnimation(a)["transition" := Obj(map["from" := Text(fromRegion), "to" := Text(toRegion),
                                                 "duration" := Number(a.duration), "easing" := Text(a.easing)])]
  }

  /** The transition runs from the first region to the second, and agrees with the animation's own duration and easing. */
  lemma RegionSwitchTransition(fromRegion: string, toRegion: string, a: Animation)
    requires a.enabled
    ensures var r := RegionSwitch(fromRegion, toRegion, a);
            var t := Spread(Prop(r, "transition"));
            Prop(t, "from") == Text(fromRegion) && Prop(t, "to") == Text(toRegion)
            && Prop(t, "duration") == Prop(r, "animationDuration") && Prop(t, "easing") == Prop(r, "animationEasing")
  {
  }

  /**
   * `createDataUpdateAnimation`: the new data, with the animation's fields
   * and the type 'update' when enabled; the old data plays no part.
   */
  function DataUpdate(oldData: seq<Value>, newData: seq<Value>, a: Animation): (r: Fields)
    ensures Prop(r, "data") == Arr(newData)
    ensures !a.enabled ==> r.Keys == {"data"}
    ensures a.enabled ==> Prop(r, "animationType") == Text("update") && Prop(r, "animationDuration") == Number(a.duration)
  {
    if !a.enabled then map["data" := Arr(newData)]
    else GeoAnimation(a)["data" := Arr(newData)]["animationType" := Text("update")]
  }

  /** Whatever the old data, the update is the same. */
  lemma DataUpdateIgnoresOld(old1: seq<Value>, old2: seq<Value>, newData: seq<Value>, a: Animation)
    ensures DataUpdate(old1, newData, a) == DataUpdate(old2, newData, a)
  {
  }

  // ---------------------------------------------------------------------
  // The registry.

  class AnimationManagerInstance {
    var animations: OM.OrderedMap<string, Animation>

    /** The registry is well formed and always holds 'fadeIn', the fallback of custom animations. */
    ghost predicate Valid()
      reads this
    {
      OM.Valid(animations) && "fadeIn" in animations.entries
    }

    /** The six presets, registered in order. */
    constructor ()
      ensures Valid()
      ensures animations == Presets
    {
      animations := OM.Empty();
      new;
      InitializeDefaultAnimations();
      PresetsValid();
    }

    method InitializeDefaultAnimations()
      requires animations == OM.Empty()
      modifies this`animations
      ensures animations == Presets
    {
      RegisterAnimation(FadeInPreset);
      assert animations.keys == ["fadeIn"];
      RegisterAnimation(SlideInPreset);
      assert animations.keys == ["fadeIn", "slideIn"];
      RegisterAnimation(ZoomInPreset);
      assert animations == OM.OrderedMap(["fadeIn", "slideIn", "zoomIn"],
                                         map["fadeIn" := FadeInPreset, "slideIn" := SlideInPreset, "zoomIn" := ZoomInPreset]);
      RegisterLaterPresets();
    }

    method RegisterLaterPresets()
      requires animations == OM.OrderedMap(["fadeIn", "slideIn", "zoomIn"],
                                           map["fadeIn" := FadeInPreset, "slideIn" := SlideInPreset, "zoomIn" := ZoomInPreset])
      modifies this`animations
      ensures animations == Presets
    {
      RegisterAnimation(BouncePreset);
      RegisterAnimation(QuickPreset);
      assert animations.keys == ["fadeIn", "slideIn", "zoomIn", "bounce", "quick"];
      RegisterAnimation(SlowPreset);
      assert animations.keys == ["fadeIn", "slideIn", "zoomIn", "bounce", "quick", "slow"];
    }

    /** `registerAnimation`: stored under its name, a new name last. */
    method RegisterAnimation(animation: Animation)
      modifies this`animations
      ensures animations.entries == old(animations.entries)[animation.name := animation]
      ensures animations.keys == if animation.name in old(animations.entries) then old(animations.keys)
                                 else old(animations.keys) + [animation.name]
      ensures old(Valid()) ==> Valid()
    {
      if Valid() {
        OM.SetValid(animations, animation.name, animation);
      }
      animations := OM.Set(animations, animation.name, animation);
    }

    function GetAnimation(name: string): (r: Option<Animation>)
      reads this
      ensures r.Some? <==> name in animations.entries
      ensures r.Some? ==> r.value == animations.entries[name]
    {
      OM.Get(animations, name)
    }

    function GetAnimationNames(): seq<string>
      reads this
    {
      animations.keys
    }

    /**
     * `createCustomAnimation`: the named base, or 'fadeIn' when there is no
     * such animation, customised and registered under the new name.
     */
    method CreateCustomAnimation(name: string, baseAnimation: Option<string>, overrides: AnimationOverrides)
      returns (a: Animation)
      requires Valid()
      modifies this`animations
      ensures Valid()
      ensures var b := baseAnimation.GetOr("fadeIn");
              a == Customised(if b in old(animations.entries) then old(animations.entries)[b]
                              else old(animations.entries)["fadeIn"], name, overrides)
      ensures animations == OM.Set(old(animations), name, a)
    {
      var found := GetAnimation(baseAnimation.GetOr("fadeIn"));
      var base := if found.Some? then found.value else animations.entries["fadeIn"];
      a := Customised(base, name, overrides);
      RegisterAnimation(a);
    }
  }
}
