// The theme manager (packages/core/src/theme-manager.ts): the registry of
// themes with its five presets, the current theme, the protected 'default'
// theme, custom themes merged over a base, and the application of a theme
// to an ECharts option.
module ThemeManager {
  import opened Wrappers
  import opened ChartOption
  import OM = OrderedMaps

  datatype Colors = Colors(primary: string, secondary: string, background: string, text: string,
                           border: string, area: string, emphasis: string, select: string)
  datatype Fonts = Fonts(family: string, size: real, weight: string)
  datatype Effects = Effects(shadow: bool, gradient: bool, animation: bool)
  datatype Theme = Theme(name: string, colors: Colors, fonts: Fonts, effects: Effects)

  // ---------------------------------------------------------------------
  // The presets.

  const DefaultTheme: Theme := Theme("default",
    Colors("#5470c6", "#91cc75", "#ffffff", "#333333", "#cccccc", "#f0f0f0", "#ff6b6b", "#4ecdc4"),
    Fonts("Arial, sans-serif", 12.0, "normal"), Effects(false, false, true))
  const DarkTheme: Theme := Theme("dark",
    Colors("#5dade2", "#58d68d", "#2c3e50", "#ecf0f1", "#34495e", "#34495e", "#e74c3c", "#f39c12"),
    Fonts("Arial, sans-serif", 12.0, "normal"), Effects(true, true, true))
  const TechTheme: Theme := Theme("tech",
    Colors("#00d4ff", "#00ff88", "#0a0a0a", "#00ff88", "#00d4ff", "#1a1a1a", "#ff0080", "#ffaa00"),
    Fonts("Consolas, monospace", 11.0, "bold"), Effects(true, true, true))
  const NatureTheme: Theme := Theme("nature",
    Colors("#2ecc71", "#f39c12", "#f8f9fa", "#2c3e50", "#95a5a6", "#ecf0f1", "#e74c3c", "#9b59b6"),
    Fonts("Georgia, serif", 13.0, "normal"), Effects(false, true, true))
  const BusinessTheme: Theme := Theme("business",
    Colors("#34495e", "#3498db", "#ffffff", "#2c3e50", "#bdc3c7", "#f8f9fa", "#e74c3c", "#f39c12"),
    Fonts("Helvetica, Arial, sans-serif", 12.0, "500"), Effects(true, false, false))

  /** The registry the presets make, in the order they are registered. */
  const Presets: OM.OrderedMap<string, Theme> :=
    OM.OrderedMap(["default", "dark", "tech", "nature", "business"],
                  map["default" := DefaultTheme, "dark" := DarkTheme, "tech" := TechTheme,
                      "nature" := NatureTheme, "business" := BusinessTheme])

  lemma PresetsValid()
    ensures OM.Valid(Presets) && "default" in Presets.entries
  {
  }

  // ---------------------------------------------------------------------
  // Custom themes.

  /** The colours an override may give; each one it leaves out comes from the base. */
  datatype ColorOverrides = ColorOverrides(primary: Option<string>, secondary: Option<string>, background: Option<string>,
                                           text: Option<string>, border: Option<string>, area: Option<string>,
                                           emphasis: Option<string>, select: Option<string>)
  datatype FontOverrides = FontOverrides(family: Option<string>, size: Option<real>, weight: Option<string>)
  datatype EffectOverrides = EffectOverrides(shadow: Option<bool>, gradient: Option<bool>, animation: Option<bool>)
  datatype ThemeOverrides = ThemeOverrides(colors: Option<ColorOverrides>, fonts: Option<FontOverrides>,
                                           effects: Option<EffectOverrides>)

  const NoColorOverrides: ColorOverrides := ColorOverrides(None, None, None, None, None, None, None, None)

  /** `{ ...base.colors, ...overrides.colors }`. */
  function MergeColors(base: Colors, o: Option<ColorOverrides>): Colors
  {
    var c := o.GetOr(NoColorOverrides);
    Colors(c.primary.GetOr(base.primary), c.secondary.GetOr(base.secondary), c.background.GetOr(base.background),
           c.text.GetOr(base.text), c.border.GetOr(base.border), c.area.GetOr(base.area),
           c.emphasis.GetOr(base.emphasis), c.select.GetOr(base.select))
  }

  function MergeFonts(base: Fonts, o: Option<FontOverrides>): Fonts
  {
    var f := o.GetOr(FontOverrides(None, None, None));
    Fonts(f.family.GetOr(base.family), f.size.GetOr(base.size), f.weight.GetOr(base.weight))
  }

  function MergeEffects(base: Effects, o: Option<EffectOverrides>): Effects
  {
    var e := o.GetOr(EffectOverrides(None, None, None));
    Effects(e.shadow.GetOr(base.shadow), e.gradient.GetOr(base.gradient), e.animation.GetOr(base.animation))
  }

  /** The theme `createCustomTheme` builds: the base with each group merged under its overrides, and the name forced. */
  function Customised(base: Theme, name: string, o: ThemeOverrides): (t: Theme)
    ensures t.name == name
  {
    Theme(name, MergeColors(base.colors, o.colors), MergeFonts(base.fonts, o.fonts), MergeEffects(base.effects, o.effects))
  }

  /** Without overrides a custom theme is its base under a new name. */
  lemma CustomisedWithoutOverrides(base: Theme, name: string)
    ensures Customised(base, name, ThemeOverrides(None, None, None)) == base.(name := name)
  {
  }

  /** A value given by an override wins; one it leaves out is the base's. */
  lemma CustomisedOverridesWin(base: Theme, name: string, o: ThemeOverrides)
    ensures var t := Customised(base, name, o);
            (o.colors.Some? && o.colors.value.primary.Some? ==> t.colors.primary == o.colors.value.primary.value)
            && ((o.colors.None? || o.colors.value.primary.None?) ==> t.colors.primary == base.colors.primary)
            && (o.fonts.Some? && o.fonts.value.size.Some? ==> t.fonts.size == o.fonts.value.size.value)
            && ((o.fonts.None? || o.fonts.value.size.None?) ==> t.fonts.size == base.fonts.size)
            && (o.effects.Some? && o.effects.value.shadow.Some? ==> t.effects.shadow == o.effects.value.shadow.value)
            && ((o.effects.None? || o.effects.value.shadow.None?) ==> t.effects.shadow == base.effects.shadow)
  {
  }

  /** Customising a custom theme again with the same overrides changes nothing. */
  lemma CustomisedTwice(base: Theme, name: string, o: ThemeOverrides)
    ensures Customised(Customised(base, name, o), name, o) == Customised(base, name, o)
  {
  }

  // ---------------------------------------------------------------------
  // Applying a theme to an option.

  const ShadowStyle: Fields := map["shadowBlur" := Number(10.0), "shadowColor" := Text("rgba(0, 0, 0, 0.3)"),
                                   "shadowOffsetX" := Number(2.0), "shadowOffsetY" := Number(2.0)]

  /** A linear gradient from the primary to the secondary colour, as the item colour. */
  function GradientStyle(c: Colors): Fields
  {
    map["color" := Obj(map["type" := Text("linear"), "x" := Number(0.0), "y" := Number(0.0), "x2" := Number(1.0), "y2" := Number(1.0),
                           "colorStops" := Arr([Obj(map["offset" := Number(0.0), "color" := Text(c.primary)]),
                                                Obj(map["offset" := Number(1.0), "color" := Text(c.secondary)])])])]
  }

  function TextStyleOf(t: Theme): Fields
  {
    map["fontFamily" := Text(t.fonts.family), "fontSize" := Number(t.fonts.size),
        "fontWeight" := Text(t.fonts.weight), "color" := Text(t.colors.text)]
  }

  /** What the theme spreads over a geo item style: its colours, then the shadow, then the gradient, each when the theme asks. */
  function ItemOverrides(t: Theme): Fields
  {
    var coloured := map["areaColor" := Text(t.colors.area), "borderColor" := Text(t.colors.border), "color" := Text(t.colors.primary)];
    var shadowed := if t.effects.shadow then coloured + ShadowStyle else coloured;
    if t.effects.gradient then shadowed + GradientStyle(t.colors) else shadowed
  }

  /** The geo item style under a theme; the source's successive spreads over one object amount to one spread of their union. */
  function ThemedItemStyle(t: Theme, itemStyle: Fields): Fields
  {
    itemStyle + ItemOverrides(t)
  }

  /** An `emphasis` or `select` section with its item style's area colour set. */
  function WithAreaColor(section: Fields, color: string): Fields
  {
    section + map["itemStyle" := Obj(Spread(Prop(section, "itemStyle")) + map["areaColor" := Text(color)])]
  }

  /** What the theme assigns on a geo component. */
  function GeoOverrides(t: Theme, geo: Fields): Fields
  {
    map["itemStyle" := Obj(ThemedItemStyle(t, Spread(Prop(geo, "itemStyle")))),
        "emphasis" := Obj(WithAreaColor(Spread(Prop(geo, "emphasis")), t.colors.emphasis)),
        "select" := Obj(WithAreaColor(Spread(Prop(geo, "select")), t.colors.select))]
  }

  function ThemedGeo(t: Theme, geo: Fields): Fields
  {
    geo + GeoOverrides(t, geo)
  }

  /** The three sections of a themed geo component. */
  lemma ThemedGeoAt(t: Theme, geo: Fields)
    ensures var g := ThemedGeo(t, geo);
            Prop(g, "itemStyle") == Obj(ThemedItemStyle(t, Spread(Prop(geo, "itemStyle"))))
            && Prop(g, "emphasis") == Obj(WithAreaColor(Spread(Prop(geo, "emphasis")), t.colors.emphasis))
            && Prop(g, "select") == Obj(WithAreaColor(Spread(Prop(geo, "select")), t.colors.select))
  {
    AssignedThree(geo, "itemStyle", "emphasis", "select", Obj(ThemedItemStyle(t, Spread(Prop(geo, "itemStyle")))),
                  Obj(WithAreaColor(Spread(Prop(geo, "emphasis")), t.colors.emphasis)),
                  Obj(WithAreaColor(Spread(Prop(geo, "select")), t.colors.select)));
  }

  /** A highlighted section's item style has the colour it was given. */
  lemma WithAreaColorAt(section: Fields, color: string)
    ensures Prop(Spread(Prop(WithAreaColor(section, color), "itemStyle")), "areaColor") == Text(color)
  {
  }

  /** A tooltip or legend with the theme's text style spread over its own. */
  function WithTextStyle(holder: Fields, style: Fields): Fields
  {
    holder + map["textStyle" := Obj(Spread(Prop(holder, "textStyle")) + style)]
  }

  /** The properties `applyTheme` restyles. */
  predicate Themed(k: string)
  {
    k == "geo" || k == "tooltip" || k == "legend"
  }

  /** A themed property's object after the theme: a geo component's colours and effects, or a tooltip's or legend's text style. */
  function Restyle(t: Theme, k: string, fields: Fields): Fields
  {
    if k == "geo" then ThemedGeo(t, fields) else WithTextStyle(fields, TextStyleOf(t))
  }

  /**
   * `applyTheme`: a geo component takes the theme's colours and effects, a
   * tooltip and a legend its text style; anything else is left alone.
   */
  function ApplyTheme(t: Theme, base: Fields): (r: Fields)
    ensures r.Keys == base.Keys
    ensures forall k :: k in base && !Themed(k) ==> r[k] == base[k]
    ensures !HasObject(base, "geo") ==> Prop(r, "geo") == Prop(base, "geo")
  {
    map k | k in base :: if Themed(k) && base[k].Obj? then Obj(Restyle(t, k, base[k].fields)) else base[k]
  }

  /** The item style a geo component ends up with. */
  function GeoItemStyle(config: Fields): Fields
  {
    Spread(Prop(Spread(Prop(config, "geo")), "itemStyle"))
  }

  /** The geo item style after the theme is the themed style of the one before. */
  lemma ApplyThemeGeoItem(t: Theme, base: Fields)
    requires HasObject(base, "geo")
    ensures GeoItemStyle(ApplyTheme(t, base)) == ThemedItemStyle(t, GeoItemStyle(base))
  {
    ApplyThemeAt(t, base, "geo");
    ThemedGeoAt(t, base["geo"].fields);
  }

  /** The colours the theme spreads over a geo item style. */
  lemma ItemOverridesColours(t: Theme)
    ensures var o := ItemOverrides(t);
            Prop(o, "areaColor") == Text(t.colors.area) && Prop(o, "borderColor") == Text(t.colors.border)
            && Prop(o, "color") == (if t.effects.gradient then GradientStyle(t.colors)["color"] else Text(t.colors.primary))
  {
    if t.effects.gradient {
      assert "areaColor" !in GradientStyle(t.colors) && "borderColor" !in GradientStyle(t.colors);
    }
  }

  /** The shadow the theme spreads over a geo item style, and nothing besides it and the colours. */
  lemma ItemOverridesShadow(t: Theme)
    ensures var o := ItemOverrides(t);
            (forall k :: k in ShadowStyle ==> Prop(o, k) == if t.effects.shadow then ShadowStyle[k] else Undef)
            && (forall k :: k in o ==> k in ShadowStyle || k == "areaColor" || k == "borderColor" || k == "color")
  {
    var o := ItemOverrides(t);
    forall k | k in ShadowStyle
      ensures k != "color" && k != "areaColor" && k != "borderColor"
    {
    }
    assert forall k :: k in ShadowStyle ==> Prop(o, k) == if t.effects.shadow then ShadowStyle[k] else Undef;
  }

  /** A themed item style has the area and border colours, and its colour is the gradient when the theme has one and the primary colour otherwise. */
  lemma ThemedItemColours(t: Theme, before: Fields)
    ensures var item := ThemedItemStyle(t, before);
            Prop(item, "areaColor") == Text(t.colors.area) && Prop(item, "borderColor") == Text(t.colors.border)
            && (t.effects.gradient ==> Prop(item, "color") == GradientStyle(t.colors)["color"])
            && (!t.effects.gradient ==> Prop(item, "color") == Text(t.colors.primary))
  {
    ItemOverridesColours(t);
  }

  /** The shadow is set exactly when the theme has one, and otherwise left as it was. */
  lemma ThemedItemShadow(t: Theme, before: Fields)
    ensures var item := ThemedItemStyle(t, before);
            (t.effects.shadow ==> forall k :: k in ShadowStyle ==> Prop(item, k) == ShadowStyle[k])
            && (!t.effects.shadow ==> forall k :: k in ShadowStyle ==> Prop(item, k) == Prop(before, k))
  {
    ItemOverridesShadow(t);
  }

  /** Every property of the item style the theme does not set is kept. */
  lemma ThemedItemKeeps(t: Theme, before: Fields)
    ensures var item := ThemedItemStyle(t, before);
            forall k :: k in before && k !in ShadowStyle && k != "areaColor" && k != "borderColor" && k != "color"
              ==> k in item && item[k] == before[k]
  {
    ItemOverridesShadow(t);
  }

  /** With a geo component, its item style takes the theme's colours and effects as `ThemedItemColours` and `ThemedItemShadow` state. */
  lemma ApplyThemeGeo(t: Theme, base: Fields)
    requires HasObject(base, "geo")
    ensures var item := GeoItemStyle(ApplyTheme(t, base));
            var before := GeoItemStyle(base);
            Prop(item, "areaColor") == Text(t.colors.area) && Prop(item, "borderColor") == Text(t.colors.border)
            && (t.effects.gradient ==> Prop(item, "color") == GradientStyle(t.colors)["color"])
            && (!t.effects.gradient ==> Prop(item, "color") == Text(t.colors.primary))
            && (t.effects.shadow ==> forall k :: k in ShadowStyle ==> Prop(item, k) == ShadowStyle[k])
            && (!t.effects.shadow ==> forall k :: k in ShadowStyle ==> Prop(item, k) == Prop(before, k))
  {
    ApplyThemeGeoItem(t, base);
    ThemedItemColours(t, GeoItemStyle(base));
    ThemedItemShadow(t, GeoItemStyle(base));
  }

  /** Hovered and selected areas take the theme's emphasis and select colours. */
  lemma ApplyThemeHighlight(t: Theme, base: Fields)
    requires HasObject(base, "geo")
    ensures var geo := Spread(Prop(ApplyTheme(t, base), "geo"));
            Prop(Spread(Prop(Spread(Prop(geo, "emphasis")), "itemStyle")), "areaColor") == Text(t.colors.emphasis)
            && Prop(Spread(Prop(Spread(Prop(geo, "select")), "itemStyle")), "areaColor") == Text(t.colors.select)
  {
    var geo := base["geo"].fields;
    ApplyThemeAt(t, base, "geo");
    ThemedGeoAt(t, geo);
    WithAreaColorAt(Spread(Prop(geo, "emphasis")), t.colors.emphasis);
    WithAreaColorAt(Spread(Prop(geo, "select")), t.colors.select);
  }

  /** The theme's text style reaches an option's tooltip and legend. */
  lemma ApplyThemeText(t: Theme, base: Fields)
    ensures forall k :: k in ["tooltip", "legend"] && HasObject(base, k) ==>
              var style := Spread(Prop(Spread(Prop(ApplyTheme(t, base), k)), "textStyle"));
              forall f :: f in TextStyleOf(t) ==> Prop(style, f) == TextStyleOf(t)[f]
  {
  }

  lemma WithTextStyleTwice(holder: Fields, style: Fields)
    ensures WithTextStyle(WithTextStyle(holder, style), style) == WithTextStyle(holder, style)
  {
    var h := WithTextStyle(holder, style);
    MergeTwice(Spread(Prop(holder, "textStyle")), style);
    assert Prop(h, "textStyle") == Obj(Spread(Prop(holder, "textStyle")) + style);
  }

  /** What `ApplyTheme` puts under each property of the option. */
  lemma ApplyThemeAt(t: Theme, base: Fields, k: string)
    ensures Prop(ApplyTheme(t, base), k) ==
              if k == "geo" && HasObject(base, k) then Obj(ThemedGeo(t, base[k].fields))
              else if (k == "tooltip" || k == "legend") && HasObject(base, k) then Obj(WithTextStyle(base[k].fields, TextStyleOf(t)))
              else Prop(base, k)
  {
  }

  /** Applying a theme twice is applying it once. */
  lemma ApplyThemeTwice(t: Theme, base: Fields)
    ensures ApplyTheme(t, ApplyTheme(t, base)) == ApplyTheme(t, base)
  {
    var once := ApplyTheme(t, base);
    var twice := ApplyTheme(t, once);
    forall k | k in once
      ensures k in twice && twice[k] == once[k]
    {
      ApplyThemeAt(t, base, k);
      ApplyThemeAt(t, once, k);
      if k == "geo" && HasObject(base, k) {
        ThemedGeoTwice(t, base[k].fields);
      } else if (k == "tooltip" || k == "legend") && HasObject(base, k) {
        WithTextStyleTwice(base[k].fields, TextStyleOf(t));
      }
    }
  }

  lemma ThemedGeoTwice(t: Theme, geo: Fields)
    ensures ThemedGeo(t, ThemedGeo(t, geo)) == ThemedGeo(t, geo)
  {
    var g1 := ThemedGeo(t, geo);
    ThemedItemStyleTwice(t, Spread(Prop(geo, "itemStyle")));
    WithAreaColorTwice(Spread(Prop(geo, "emphasis")), t.colors.emphasis);
    WithAreaColorTwice(Spread(Prop(geo, "select")), t.colors.select);
    ThemedGeoAt(t, geo);
    assert GeoOverrides(t, g1) == GeoOverrides(t, geo);
    MergeTwice(geo, GeoOverrides(t, geo));
  }

  lemma WithAreaColorTwice(section: Fields, color: string)
    ensures WithAreaColor(WithAreaColor(section, color), color) == WithAreaColor(section, color)
  {
    var w := WithAreaColor(section, color);
    MergeTwice(Spread(Prop(section, "itemStyle")), map["areaColor" := Text(color)]);
    assert Prop(w, "itemStyle") == Obj(Spread(Prop(section, "itemStyle")) + map["areaColor" := Text(color)]);
  }

  lemma ThemedItemStyleTwice(t: Theme, itemStyle: Fields)
    ensures ThemedItemStyle(t, ThemedItemStyle(t, itemStyle)) == ThemedItemStyle(t, itemStyle)
  {
    MergeTwice(itemStyle, ItemOverrides(t));
  }

  // ---------------------------------------------------------------------
  // The registry.

  class ThemeManagerInstance {
    var themes: OM.OrderedMap<string, Theme>
    var currentTheme: string

    /** The registry is well formed and always holds the default theme. */
    ghost predicate Valid()
      reads this
    {
      OM.Valid(themes) && "default" in themes.entries
    }

    /** The five presets, registered in order; 'default' is current. */
    constructor ()
      ensures Valid() && currentTheme == "default"
      ensures themes == Presets
    {
      themes := OM.Empty();
      currentTheme := "default";
      new;
      InitializeDefaultThemes();
      PresetsValid();
    }

    /** The presets registered one after the other into the empty registry. */
    method InitializeDefaultThemes()
      requires themes == OM.Empty()
      modifies this`themes
      ensures themes == Presets
    {
      RegisterTheme(DefaultTheme);
      RegisterTheme(DarkTheme);
      assert themes == OM.OrderedMap(["default", "dark"], map["default" := DefaultTheme, "dark" := DarkTheme]);
      RegisterLaterPresets();
    }

    method RegisterLaterPresets()
      requires themes == OM.OrderedMap(["default", "dark"], map["default" := DefaultTheme, "dark" := DarkTheme])
      modifies this`themes
      ensures themes == Presets
    {
      RegisterTheme(TechTheme);
      RegisterTheme(NatureTheme);
      assert themes.keys == ["default", "dark", "tech", "nature"];
      RegisterTheme(BusinessTheme);
      assert themes.keys == ["default", "dark", "tech", "nature", "business"];
    }

    /** `registerTheme`: stored under its name, a new name last. */
    method RegisterTheme(theme: Theme)
      modifies this`themes
      ensures themes.entries == old(themes.entries)[theme.name := theme]
      ensures themes.keys == if theme.name in old(themes.entries) then old(themes.keys) else old(themes.keys) + [theme.name]
    {
      if Valid() {
        OM.SetValid(themes, theme.name, theme);
      }
      themes := OM.Set(themes, theme.name, theme);
    }

    function GetTheme(name: string): (r: Option<Theme>)
      reads this
      ensures r.Some? <==> name in themes.entries
      ensures r.Some? ==> r.value == themes.entries[name]
    {
      OM.Get(themes, name)
    }

    function GetThemeNames(): seq<string>
      reads this
    {
      themes.keys
    }

    /** `setCurrentTheme`: switches and answers true exactly when the theme is registered. */
    method SetCurrentTheme(name: string) returns (ok: bool)
      modifies this`currentTheme
      ensures ok <==> name in themes.entries
      ensures ok ==> currentTheme == name
      ensures !ok ==> currentTheme == old(currentTheme)
    {
      if name in themes.entries {
        currentTheme := name;
        return true;
      }
      return false;
    }

    /** The current theme, none if it has been removed. */
    function GetCurrentTheme(): Option<Theme>
      reads this
    {
      OM.Get(themes, currentTheme)
    }

    /** `removeTheme`: 'default' is refused; any other name is deleted, answering whether it was there. */
    method RemoveTheme(name: string) returns (removed: bool)
      requires Valid()
      modifies this`themes
      ensures Valid()
      ensures name == "default" ==> !removed && themes == old(themes)
      ensures name != "default" ==> removed == (name in old(themes.entries)) && themes == OM.Delete(old(themes), name)
    {
      if name == "default" {
        return false;
      }
      removed := name in themes.entries;
      themes := OM.Delete(themes, name);
    }

    /**
     * `createCustomTheme`: the named base, or 'default' when there is no
     * such theme, customised and registered under the new name.
     */
    method CreateCustomTheme(name: string, baseTheme: Option<string>, overrides: ThemeOverrides) returns (t: Theme)
      requires Valid()
      modifies this`themes
      ensures Valid()
      ensures var b := baseTheme.GetOr("default");
              t == Customised(if b in old(themes.entries) then old(themes.entries)[b] else old(themes.entries)["default"], name, overrides)
      ensures themes == OM.Set(old(themes), name, t)
    {
      var found := GetTheme(baseTheme.GetOr("default"));
      var base := if found.Some? then found.value else themes.entries["default"];
      t := Customised(base, name, overrides);
      RegisterTheme(t);
    }
  }

  /** Removing the current theme leaves no current theme, while its name stays current. */
  method RemoveCurrent(m: ThemeManagerInstance)
    requires m.Valid() && m.currentTheme == "dark" && "dark" in m.themes.entries
    modifies m
    ensures m.Valid() && m.GetCurrentTheme().None? && m.currentTheme == "dark"
  {
    var removed := m.RemoveTheme("dark");
  }
}
