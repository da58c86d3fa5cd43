// The tooltip manager (packages/core/src/tooltip-manager.ts): the registry
// of tooltip presets, custom tooltips merged over a preset, the application
// of a tooltip to an ECharts option, the template formatter with its
// placeholders, and the statistics and region tooltips.
module TooltipManager {
  import opened Wrappers
  import opened ChartOption
  import OM = OrderedMaps
  import T = Text
  import GU = GeoUtils

  datatype Trigger = Item | Axis | NoTrigger

  function TriggerName(t: Trigger): string
  {
    match t
    case Item => "item"
    case Axis => "axis"
    case NoTrigger => "none"
  }

  /**
   * A tooltip configuration. The optional properties are values, `Undef`
   * when absent: the formatter is a text or a function, the position a
   * text or a pair of numbers.
   */
  datatype TooltipConfig = TooltipConfig(enabled: bool, trigger: Trigger, formatter: Value, backgroundColor: Value,
                                         borderColor: Value, textStyle: Value, position: Value)

  // ---------------------------------------------------------------------
  // The presets.

  function Style(color: string, fontSize: real): Value
  {
    Obj(map["color" := Text(color), "fontSize" := Number(fontSize)])
  }

  const DefaultTooltip: TooltipConfig :=
    TooltipConfig(true, Item, Undef, Text("rgba(0, 0, 0, 0.8)"), Text("#333"), Style("#fff", 12.0), Text("top"))
  const SimpleTooltip: TooltipConfig :=
    TooltipConfig(true, Item, Undef, Text("rgba(255, 255, 255, 0.9)"), Text("#ddd"), Style("#333", 11.0), Text("top"))
  const CardTooltip: TooltipConfig :=
    TooltipConfig(true, Item, Undef, Text("#fff"), Text("#e0e0e0"),
                  Obj(map["color" := Text("#333"), "fontSize" := Number(13.0), "fontWeight" := Text("bold")]), Text("top"))
  const DarkTooltip: TooltipConfig :=
    TooltipConfig(true, Item, Undef, Text("rgba(44, 62, 80, 0.95)"), Text("#34495e"), Style("#ecf0f1", 12.0), Text("top"))

  /** The registry the presets make, in the order they are registered. */
  const Presets: OM.OrderedMap<string, TooltipConfig> :=
    OM.OrderedMap(["default", "simple", "card", "dark"],
                  map["default" := DefaultTooltip, "simple" := SimpleTooltip, "card" := CardTooltip, "dark" := DarkTooltip])

  /** Registering the presets one after the other, from nothing, makes `Presets`. */
  lemma PresetsBuilt()
    ensures OM.Set(OM.Set(OM.Set(OM.Set(OM.Empty(), "default", DefaultTooltip), "simple", SimpleTooltip),
                          "card", CardTooltip), "dark", DarkTooltip) == Presets
  {
    assert "card"[0] != "dark"[0];
    OM.SetDistinct4("default", "simple", "card", "dark", DefaultTooltip, SimpleTooltip, CardTooltip, DarkTooltip);
  }

  lemma PresetsValid()
    ensures OM.Valid(Presets) && "default" in Presets.entries
  {
  }

  // ---------------------------------------------------------------------
  // Applying a tooltip.

  /** The formatter `getDefaultFormatter` hands out for item tooltips. */
  const ItemFormatter: Value := Func("defaultItemFormatter")

  /** `getDefaultFormatter`: the item formatter for item tooltips, and the empty text otherwise. */
  function DefaultFormatter(trigger: Trigger): (r: Value)
    ensures Truthy(r) <==> trigger == Item
  {
    if trigger == Item then ItemFormatter else Text("")
  }

  /** `tooltip.formatter || getDefaultFormatter(tooltip.trigger)`. */
  function FormatterOf(t: TooltipConfig): (r: Value)
    ensures Truthy(t.formatter) ==> r == t.formatter
    ensures !Truthy(t.formatter) ==> r == DefaultFormatter(t.trigger)
  {
    if Truthy(t.formatter) then t.formatter else DefaultFormatter(t.trigger)
  }

  /** The properties an enabled tooltip sets. */
  function Shown(t: TooltipConfig): Fields
  {
    map["show" := Flag(true), "trigger" := Text(TriggerName(t.trigger)), "backgroundColor" := t.backgroundColor,
        "borderColor" := t.borderColor, "textStyle" := t.textStyle, "position" := t.position,
        "formatter" := FormatterOf(t)]
  }

  /**
   * `applyTooltip`: a disabled tooltip replaces the option's tooltip by one
   * that is hidden; an enabled one sets its properties over the option's
   * tooltip. Nothing else in the option changes.
   */
  function ApplyTooltip(t: TooltipConfig, base: Fields): (r: Fields)
    ensures r.Keys == base.Keys + {"tooltip"}
    ensures forall k :: k in base && k != "tooltip" ==> r[k] == base[k]
    ensures !t.enabled ==> r["tooltip"] == Obj(map["show" := Flag(false)])
  {
    if !t.enabled then base["tooltip" := Obj(map["show" := Flag(false)])]
    else base["tooltip" := Obj(Spread(Prop(base, "tooltip")) + Shown(t))]
  }

  /**
   * An enabled tooltip is shown with its own trigger and formatter, an
   * empty formatter falling back to the default one; an item tooltip
   * always ends up with a formatter; the option's other tooltip settings
   * are kept.
   */
  lemma ApplyTooltipShown(t: TooltipConfig, base: Fields)
    requires t.enabled
    ensures var tip := ApplyTooltip(t, base)["tooltip"];
            tip.Obj? && tip.fields["show"] == Flag(true) && tip.fields["trigger"] == Text(TriggerName(t.trigger))
            && (Truthy(t.formatter) ==> tip.fields["formatter"] == t.formatter)
            && (t.trigger == Item ==> Truthy(tip.fields["formatter"]))
            && forall k :: k in Spread(Prop(base, "tooltip")) && k !in Shown(t) ==>
                 tip.fields[k] == Spread(Prop(base, "tooltip"))[k]
  {
  }

  /** Applying a tooltip twice is applying it once. */
  lemma ApplyTooltipTwice(t: TooltipConfig, base: Fields)
    ensures ApplyTooltip(t, ApplyTooltip(t, base)) == ApplyTooltip(t, base)
  {
    if t.enabled {
      MergeTwice(Spread(Prop(base, "tooltip")), Shown(t));
    }
  }

  // ---------------------------------------------------------------------
  // The template formatter.

  /** `String(v)`, with the rendering of anything but a text left to `show`. */
  function Display(v: Value, show: Value -> string): string
  {
    if v.Text? then v.s else show(v)
  }

  /** `v || fallback`: a truthy value shown, the fallback text for any falsy one. */
  function OrElse(v: Value, fallback: string, show: Value -> string): (r: string)
    ensures !Truthy(v) ==> r == fallback
    ensures Truthy(v) ==> r == Display(v, show)
  {
    if Truthy(v) then Display(v, show) else fallback
  }

  /** `v ?? ''`: only a missing value shows as nothing. */
  function UnlessMissing(v: Value, show: Value -> string): (r: string)
    ensures v.Undef? ==> r == ""
    ensures !v.Undef? ==> r == Display(v, show)
  {
    if v.Undef? then "" else Display(v, show)
  }

  /** `items.join(', ')`: a missing item shows as nothing. */
  function JoinValues(items: seq<Value>, show: Value -> string): string
  {
    T.Join(seq(|items|, i requires 0 <= i < |items| => UnlessMissing(items[i], show)), ", ")
  }

  /** `{field}`. */
  function Placeholder(field: string): (p: string)
    ensures |p| == |field| + 2 && p[0] == '{'
  {
    "{" + field + "}"
  }

  /** `params[field] || (params.data && params.data[field]) || ''`. */
  function FieldText(params: Fields, field: string, show: Value -> string): string
  {
    var direct := Prop(params, field);
    var data := Prop(params, "data");
    if Truthy(direct) then Display(direct, show)
    else if Truthy(data) then OrElse(Prop(Spread(data), field), "", show)
    else ""
  }

  /** Each data field's placeholder replaced, in the order the fields are given. */
  function ReplaceFields(text: string, fields: seq<string>, params: Fields, show: Value -> string): string
  {
    if |fields| == 0 then text
    else
      var last := fields[|fields| - 1];
      T.ReplaceAll(ReplaceFields(text, fields[..|fields| - 1], params, show), Placeholder(last), FieldText(params, last, show))
  }

  /** `items[i]`, `undefined` past the end. */
  function ItemAt(items: seq<Value>, i: nat): Value
  {
    if i < |items| then items[i] else Undef
  }

  /**
   * A coordinate or the data value as text: as written (`v || ''`) any falsy
   * value shows as nothing; with `zeroShown` only a missing one does.
   */
  function CoordText(v: Value, show: Value -> string, zeroShown: bool): string
  {
    if zeroShown then UnlessMissing(v, show) else OrElse(v, "", show)
  }

  /** `{lng}`, `{lat}` and `{data}` replaced by the coordinates and the value. */
  function Coordinates(s: string, items: seq<Value>, show: Value -> string, zeroShown: bool): string
  {
    var withLng := T.ReplaceAll(s, "{lng}", CoordText(ItemAt(items, 0), show, zeroShown));
    var withLat := T.ReplaceAll(withLng, "{lat}", CoordText(ItemAt(items, 1), show, zeroShown));
    T.ReplaceAll(withLat, "{data}", CoordText(ItemAt(items, 2), show, zeroShown))
  }

  /**
   * The formatter `createCustomFormatter` makes, applied to `params`, with
   * the coordinates rendered by `CoordText`. None is the TypeError of a value
   * that is set but is not an array, whose `join` does not exist.
   */
  function FormatWith(template: string, dataFields: seq<string>, params: Fields, show: Value -> string,
                      zeroShown: bool): (r: Option<string>)
    ensures r.None? <==> Truthy(Prop(params, "value")) && !Prop(params, "value").Arr?
  {
    var v := Prop(params, "value");
    if Truthy(v) && !v.Arr? then None
    else
      var withName := T.ReplaceAll(template, "{name}", OrElse(Prop(params, "name"), "", show));
      var withValue := T.ReplaceAll(withName, "{value}", if v.Arr? then JoinValues(v.items, show) else "");
      var withFields := ReplaceFields(withValue, dataFields, params, show);
      Some(if v.Arr? then Coordinates(withFields, v.items, show, zeroShown) else withFields)
  }

  /** The formatter as written: a coordinate or value of zero, being falsy, shows as nothing. */
  function CustomFormatAsWritten(template: string, dataFields: seq<string>, params: Fields, show: Value -> string): Option<string>
  {
    FormatWith(template, dataFields, params, show, false)
  }

  /** The formatter with only a missing coordinate or value shown as nothing. */
  function CustomFormat(template: string, dataFields: seq<string>, params: Fields, show: Value -> string): Option<string>
  {
    FormatWith(template, dataFields, params, show, true)
  }

  /**
   * `createCustomFormatter(template, dataFields)(params)`: the name, the
   * value, each data field in turn, then the coordinates.
   */
  method Format(template: string, dataFields: seq<string>, params: Fields, show: Value -> string)
    returns (result: Option<string>)
    ensures result == CustomFormat(template, dataFields, params, show)
  {
    var v := Prop(params, "value");
    if Truthy(v) && !v.Arr? {
      return None;
    }
    var s := T.ReplaceAll(template, "{name}", OrElse(Prop(params, "name"), "", show));
    s := T.ReplaceAll(s, "{value}", if v.Arr? then JoinValues(v.items, show) else "");
    ghost var withValue := s;
    var i := 0;
    while i < |dataFields|
      invariant 0 <= i <= |dataFields|
      invariant s == ReplaceFields(withValue, dataFields[..i], params, show)
    {
      assert dataFields[..i + 1][..i] == dataFields[..i];
      s := T.ReplaceAll(s, Placeholder(dataFields[i]), FieldText(params, dataFields[i], show));
      i := i + 1;
    }
    assert dataFields[..i] == dataFields;
    if v.Arr? {
      s := Coordinates(s, v.items, show, true);
    }
    return Some(s);
  }

  /** Replacing a pattern whose first character the text lacks leaves the text as it is. */
  lemma ReplaceAbsent(s: string, p: string, r: string)
    requires |p| > 0 && p[0] !in s
    ensures T.ReplaceAll(s, p, r) == s
  {
    T.ReplacePlain(s, "", p, r);
    assert s + "" == s;
  }

  /** A text that does not start with the pattern, and lacks its first character after that, is left as it is. */
  lemma ReplaceMiss(s: string, p: string, r: string)
    requires |s| > 0 && |p| > 0 && !T.StartsWith(s, p) && p[0] !in s[1..]
    ensures T.ReplaceAll(s, p, r) == s
  {
    ReplaceAbsent(s[1..], p, r);
    assert [s[0]] + s[1..] == s;
  }

  /** A text without '{' comes through every data field's replacement unchanged. */
  lemma {:induction false} ReplaceFieldsPlain(s: string, fields: seq<string>, params: Fields, show: Value -> string)
    requires '{' !in s
    ensures ReplaceFields(s, fields, params, show) == s
  {
    if |fields| > 0 {
      ReplaceFieldsPlain(s, fields[..|fields| - 1], params, show);
      var last := fields[|fields| - 1];
      ReplaceAbsent(s, Placeholder(last), FieldText(params, last, show));
    }
  }

  /** Joining texts without '{' by a text without '{' gives a text without '{'. */
  lemma {:induction false} JoinPlain(pieces: seq<string>, sep: string)
    requires forall k :: 0 <= k < |pieces| ==> '{' !in pieces[k]
    requires '{' !in sep
    ensures '{' !in T.Join(pieces, sep)
  {
    if |pieces| > 1 {
      JoinPlain(pieces[1..], sep);
      assert T.Join(pieces, sep) == pieces[0] + sep + T.Join(pieces[1..], sep);
    }
  }

  /**
   * Without a value, a template of plain pieces around `{name}` shows the
   * name at every placeholder, whatever the data fields, provided neither
   * the pieces nor the name hold a '{'.
   */
  lemma NamePlaceholders(pieces: seq<string>, dataFields: seq<string>, params: Fields, show: Value -> string)
    requires |pieces| > 0 && forall k :: 0 <= k < |pieces| ==> '{' !in pieces[k]
    requires !Truthy(Prop(params, "value"))
    requires '{' !in OrElse(Prop(params, "name"), "", show)
    ensures CustomFormat(T.Join(pieces, "{name}"), dataFields, params, show)
            == Some(T.Join(pieces, OrElse(Prop(params, "name"), "", show)))
  {
    var name := OrElse(Prop(params, "name"), "", show);
    var template := T.Join(pieces, "{name}");
    var withName := T.Join(pieces, name);
    assert T.ReplaceAll(template, "{name}", name) == withName by {
      T.ReplaceJoin(pieces, "{name}", name);
    }
    assert T.ReplaceAll(withName, "{value}", "") == withName by {
      JoinPlain(pieces, name);
      ReplaceAbsent(withName, "{value}", "");
    }
    assert ReplaceFields(withName, dataFields, params, show) == withName by {
      JoinPlain(pieces, name);
      ReplaceFieldsPlain(withName, dataFields, params, show);
    }
    FormatWithoutValue(template, dataFields, params, show, true);
  }

  /** Without a value, the formatter's steps one after the other. */
  lemma FormatWithoutValue(template: string, dataFields: seq<string>, params: Fields, show: Value -> string,
                           zeroShown: bool)
    requires !Truthy(Prop(params, "value"))
    ensures var withName := T.ReplaceAll(template, "{name}", OrElse(Prop(params, "name"), "", show));
            FormatWith(template, dataFields, params, show, zeroShown)
              == Some(ReplaceFields(T.ReplaceAll(withName, "{value}", ""), dataFields, params, show))
  {
  }

  /**
   * Replacing a placeholder that differs, at its second character, from the
   * one joining plain pieces leaves the joined text as it is.
   */
  lemma {:induction false} ReplaceJoinMiss(pieces: seq<string>, q: string, p: string, r: string)
    requires |pieces| > 0 && forall k :: 0 <= k < |pieces| ==> '{' !in pieces[k]
    requires |q| > 1 && |p| > 1 && q[0] == '{' && p[0] == '{' && q[1] != p[1] && '{' !in q[1..]
    ensures T.ReplaceAll(T.Join(pieces, q), p, r) == T.Join(pieces, q)
  {
    if |pieces| == 1 {
      ReplaceAbsent(pieces[0], p, r);
    } else {
      var rest := T.Join(pieces[1..], q);
      ReplaceJoinMiss(pieces[1..], q, p, r);
      assert T.Join(pieces, q) == pieces[0] + (q + rest);
      T.ReplacePlain(pieces[0], q + rest, p, r);
      assert !T.StartsWith(q + rest, p) by {
        if |p| <= |q + rest| {
          assert (q + rest)[..|p|][1] == q[1];
        }
      }
      assert (q + rest)[1..] == q[1..] + rest;
      T.ReplacePlain(q[1..], rest, p, r);
      assert [q[0]] + (q[1..] + rest) == q + rest;
    }
  }

  /**
   * A template of plain pieces around `{value}` shows the joined value at
   * every placeholder, whatever the data fields, provided neither the
   * pieces nor the joined value hold a '{'.
   */
  lemma ValuePlaceholders(pieces: seq<string>, dataFields: seq<string>, params: Fields, show: Value -> string)
    requires |pieces| > 0 && forall k :: 0 <= k < |pieces| ==> '{' !in pieces[k]
    requires Prop(params, "value").Arr?
    requires '{' !in JoinValues(Prop(params, "value").items, show)
    ensures CustomFormat(T.Join(pieces, "{value}"), dataFields, params, show)
            == Some(T.Join(pieces, JoinValues(Prop(params, "value").items, show)))
  {
    var items := Prop(params, "value").items;
    var joined := JoinValues(items, show);
    var template := T.Join(pieces, "{value}");
    var name := OrElse(Prop(params, "name"), "", show);
    var s := T.Join(pieces, joined);
    assert T.ReplaceAll(template, "{name}", name) == template by {
      ValueTagShape();
      ReplaceJoinMiss(pieces, "{value}", "{name}", name);
    }
    assert T.ReplaceAll(template, "{value}", joined) == s by {
      T.ReplaceJoin(pieces, "{value}", joined);
    }
    assert '{' !in s by {
      JoinPlain(pieces, joined);
    }
    assert ReplaceFields(s, dataFields, params, show) == s by {
      ReplaceFieldsPlain(s, dataFields, params, show);
    }
    assert Coordinates(s, items, show, true) == s by {
      CoordinatesPlain(s, items, show, true);
    }
    FormatWithArray(template, dataFields, params, show, true);
  }

  /** `{value}` holds no further '{' and differs from `{name}` at its second character. */
  lemma ValueTagShape()
    ensures |"{value}"| > 1 && |"{name}"| > 1 && "{value}"[0] == '{' && "{name}"[0] == '{'
    ensures "{value}"[1] != "{name}"[1] && '{' !in "{value}"[1..]
  {
    assert "{value}"[1..] == "value}";
  }

  /** With an array value, the formatter's steps one after the other. */
  lemma FormatWithArray(template: string, dataFields: seq<string>, params: Fields, show: Value -> string,
                        zeroShown: bool)
    requires Prop(params, "value").Arr?
    ensures var items := Prop(params, "value").items;
            var withName := T.ReplaceAll(template, "{name}", OrElse(Prop(params, "name"), "", show));
            var withValue := T.ReplaceAll(withName, "{value}", JoinValues(items, show));
            FormatWith(template, dataFields, params, show, zeroShown)
              == Some(Coordinates(ReplaceFields(withValue, dataFields, params, show), items, show, zeroShown))
  {
  }

  /** A text without '{' has no coordinate placeholders to replace. */
  lemma CoordinatesPlain(s: string, items: seq<Value>, show: Value -> string, zeroShown: bool)
    requires '{' !in s
    ensures Coordinates(s, items, show, zeroShown) == s
  {
    ReplaceAbsent(s, "{lng}", CoordText(ItemAt(items, 0), show, zeroShown));
    ReplaceAbsent(s, "{lat}", CoordText(ItemAt(items, 1), show, zeroShown));
    ReplaceAbsent(s, "{data}", CoordText(ItemAt(items, 2), show, zeroShown));
  }

  /** A value set to something other than an array makes the formatter throw. */
  lemma FormatFailsOnScalarValue(template: string, dataFields: seq<string>, params: Fields, show: Value -> string)
    requires Prop(params, "value") == Number(5.0)
    ensures CustomFormat(template, dataFields, params, show).None?
    ensures CustomFormatAsWritten(template, dataFields, params, show).None?
  {
  }

  /**
   * As written, `{data}` shows nothing for a data value of zero, though
   * `{value}` shows it; with only a missing value shown as nothing, the
   * zero appears.
   */
  lemma ZeroDataAsWritten(show: Value -> string)
    requires show(Number(0.0)) == "0"
    ensures var params := map["value" := Arr([Number(116.4), Number(39.9), Number(0.0)])];
            CustomFormatAsWritten("{data}", [], params, show) == Some("")
            && CustomFormat("{data}", [], params, show) == Some("0")
  {
    DataTemplate(show, false);
    DataTemplate(show, true);
  }

  /** The template `{data}` over a point whose data value is zero renders that value's text. */
  lemma DataTemplate(show: Value -> string, zeroShown: bool)
    ensures var params := map["value" := Arr([Number(116.4), Number(39.9), Number(0.0)])];
            FormatWith("{data}", [], params, show, zeroShown) == Some(CoordText(Number(0.0), show, zeroShown))
  {
    var items := [Number(116.4), Number(39.9), Number(0.0)];
    var params := map["value" := Arr(items)];
    assert T.ReplaceAll("{data}", "{name}", OrElse(Prop(params, "name"), "", show)) == "{data}" by {
      assert "{data}"[..6][1] != "{name}"[1];
      ReplaceMiss("{data}", "{name}", OrElse(Prop(params, "name"), "", show));
    }
    assert T.ReplaceAll("{data}", "{value}", JoinValues(items, show)) == "{data}" by {
      assert "{data}"[..6][1] != "{value}"[1];
      ReplaceMiss("{data}", "{value}", JoinValues(items, show));
    }
    assert ReplaceFields("{data}", [], params, show) == "{data}";
    assert Coordinates("{data}", items, show, zeroShown) == CoordText(Number(0.0), show, zeroShown) by {
      ReplaceData(CoordText(items[0], show, zeroShown), CoordText(items[1], show, zeroShown),
                  CoordText(items[2], show, zeroShown));
    }
    FormatWithArray("{data}", [], params, show, zeroShown);
  }

  /** `{data}` alone: the coordinates' placeholders miss it, and its own is replaced. */
  lemma ReplaceData(lng: string, lat: string, data: string)
    ensures T.ReplaceAll(T.ReplaceAll(T.ReplaceAll("{data}", "{lng}", lng), "{lat}", lat), "{data}", data) == data
  {
    assert "{data}"[..5][1] != "{lng}"[1] && "{data}"[..5][1] != "{lat}"[1];
    ReplaceMiss("{data}", "{lng}", lng);
    ReplaceMiss("{data}", "{lat}", lat);
    assert T.StartsWith("{data}", "{data}");
    assert "{data}"[|"{data}"|..] == "";
  }

  // ---------------------------------------------------------------------
  // Statistics and region tooltips.

  /** `values.reduce((sum, val) => sum + val, 0)`. */
  function Sum(values: seq<real>): real
  {
    if |values| == 0 then 0.0 else Sum(values[..|values| - 1]) + values[|values| - 1]
  }

  /** `Math.max(...values)`. */
  function Largest(values: seq<real>): (m: real)
    requires |values| > 0
    ensures forall k :: 0 <= k < |values| ==> values[k] <= m
    ensures m in values
  {
    if |values| == 1 then values[0]
    else
      var rest := Largest(values[1..]);
      if values[0] >= rest then values[0] else rest
  }

  /** `Math.min(...values)`. */
  function Smallest(values: seq<real>): (m: real)
    requires |values| > 0
    ensures forall k :: 0 <= k < |values| ==> m <= values[k]
    ensures m in values
  {
    if |values| == 1 then values[0]
    else
      var rest := Smallest(values[1..]);
      if values[0] <= rest then values[0] else rest
  }

  lemma {:induction false} SumBounds(values: seq<real>, lo: real, hi: real)
    requires forall k :: 0 <= k < |values| ==> lo <= values[k] <= hi
    ensures |values| as real * lo <= Sum(values) <= |values| as real * hi
  {
    if |values| > 0 {
      SumBounds(values[..|values| - 1], lo, hi);
    }
  }

  datatype DataStats = DataStats(total: real, average: real, max: real, min: real)

  /** `item.value[2] || 0` for each item, the third entry given as a number or missing. */
  function ThirdValues(thirds: seq<Option<real>>): (r: seq<real>)
    ensures |r| == |thirds|
  {
    seq(|thirds|, i requires 0 <= i < |thirds| => thirds[i].GetOr(0.0))
  }

  /** `calculateDataStats`: all zero without data; otherwise the total, the mean, the largest and the smallest value. */
  function CalculateDataStats(thirds: seq<Option<real>>): (r: DataStats)
    ensures |thirds| == 0 ==> r == DataStats(0.0, 0.0, 0.0, 0.0)
    ensures |thirds| > 0 ==> forall k :: 0 <= k < |thirds| ==> r.min <= thirds[k].GetOr(0.0) <= r.max
    ensures |thirds| > 0 ==> r.max in ThirdValues(thirds) && r.min in ThirdValues(thirds)
    ensures r.total == Sum(ThirdValues(thirds))
    ensures |thirds| > 0 ==> r.average == r.total / |thirds| as real
  {
    if |thirds| == 0 then DataStats(0.0, 0.0, 0.0, 0.0)
    else
      var values := ThirdValues(thirds);
      assert forall k :: 0 <= k < |thirds| ==> values[k] == thirds[k].GetOr(0.0);
      DataStats(Sum(values), Sum(values) / |values| as real, Largest(values), Smallest(values))
  }

  /** The statistics are ordered: the smallest value, then the mean, then the largest. */
  lemma StatsOrdered(thirds: seq<Option<real>>)
    ensures var s := CalculateDataStats(thirds);
            s.min <= s.average <= s.max
  {
    if |thirds| > 0 {
      MeanWithinExtremes(ThirdValues(thirds));
    }
  }

  /** The mean of some values lies between their smallest and their largest. */
  lemma MeanWithinExtremes(values: seq<real>)
    requires |values| > 0
    ensures Smallest(values) <= Sum(values) / |values| as real <= Largest(values)
  {
    MeanBetween(values, Smallest(values), Largest(values));
  }

  /** The mean lies within any bounds every value keeps to. */
  lemma MeanBetween(values: seq<real>, lo: real, hi: real)
    requires |values| > 0
    requires forall k :: 0 <= k < |values| ==> lo <= values[k] <= hi
    ensures lo <= Sum(values) / |values| as real <= hi
  {
    SumBounds(values, lo, hi);
    GU.DivideBounds(Sum(values), |values| as real, lo, hi);
  }

  /** A missing value counts as zero: each value is the given one or zero. */
  lemma StatsMissingAsZero(thirds: seq<Option<real>>)
    requires |thirds| > 0
    ensures CalculateDataStats(thirds).max >= 0.0 || exists k :: 0 <= k < |thirds| && thirds[k].Some?
    ensures (forall k :: 0 <= k < |thirds| ==> thirds[k].None?) ==> CalculateDataStats(thirds) == DataStats(0.0, 0.0, 0.0, 0.0)
  {
    var values := ThirdValues(thirds);
    if forall k :: 0 <= k < |thirds| ==> thirds[k].None? {
      assert forall k :: 0 <= k < |values| ==> values[k] == 0.0;
      SumBounds(values, 0.0, 0.0);
    } else {
      var k :| 0 <= k < |thirds| && thirds[k].Some?;
    }
  }

  const StatsFormatter: Value := Func("dataStatsFormatter")

  /**
   * `createDataStatsTooltip`: an enabled item tooltip whose formatter
   * shows, beside the item, the statistics of the data.
   */
  function DataStatsTooltip(thirds: seq<Option<real>>): (r: (TooltipConfig, DataStats))
    ensures r.0.enabled && r.0.trigger == Item && Truthy(r.0.formatter)
    ensures r.1 == CalculateDataStats(thirds)
  {
    (TooltipConfig(true, Item, StatsFormatter, Text("rgba(255, 255, 255, 0.95)"), Text("#ddd"), Style("#333", 12.0), Text("top")),
     CalculateDataStats(thirds))
  }

  const RegionKeys: seq<string> := ["code", "type", "population", "area"]

  /** The region's code, type, population and area as the region tooltip shows them, 'N/A' for each one unset. */
  function RegionInfo(regionData: Fields, show: Value -> string): (r: seq<string>)
    ensures |r| == |RegionKeys|
    ensures forall i :: 0 <= i < |RegionKeys| && !Truthy(Prop(regionData, RegionKeys[i])) ==> r[i] == "N/A"
    ensures forall i :: 0 <= i < |RegionKeys| && Truthy(Prop(regionData, RegionKeys[i])) ==>
              r[i] == Display(Prop(regionData, RegionKeys[i]), show)
  {
    seq(|RegionKeys|, i requires 0 <= i < |RegionKeys| => OrElse(Prop(regionData, RegionKeys[i]), "N/A", show))
  }

  const RegionFormatter: Value := Func("regionInfoFormatter")

  /** `createRegionInfoTooltip`: an enabled item tooltip whose formatter shows the region's details. */
  function RegionInfoTooltip(regionData: Fields, show: Value -> string): (r: (TooltipConfig, seq<string>))
    ensures r.0.enabled && r.0.trigger == Item && Truthy(r.0.formatter)
    ensures r.1 == RegionInfo(regionData, show)
  {
    (TooltipConfig(true, Item, RegionFormatter, Text("rgba(52, 73, 94, 0.95)"), Text("#34495e"), Style("#ecf0f1", 13.0), Text("top")),
     RegionInfo(regionData, show))
  }

  // ---------------------------------------------------------------------
  // Custom tooltips.

  datatype TooltipOverrides = TooltipOverrides(enabled: Option<bool>, trigger: Option<Trigger>, formatter: Option<Value>,
                                               backgroundColor: Option<Value>, borderColor: Option<Value>,
                                               textStyle: Option<Value>, position: Option<Value>)

  /** `{ ...base, ...overrides }`. */
  function Customised(base: TooltipConfig, o: TooltipOverrides): TooltipConfig
  {
    TooltipConfig(o.enabled.GetOr(base.enabled), o.trigger.GetOr(base.trigger), o.formatter.GetOr(base.formatter),
                  o.backgroundColor.GetOr(base.backgroundColor), o.borderColor.GetOr(base.borderColor),
                  o.textStyle.GetOr(base.textStyle), o.position.GetOr(base.position))
  }

  /** An override wins, what it leaves out is the base's, and customising twice is customising once. */
  lemma CustomisedOverridesWin(base: TooltipConfig, o: TooltipOverrides)
    ensures o.formatter.Some? ==> Customised(base, o).formatter == o.formatter.value
    ensures o.formatter.None? ==> Customised(base, o).formatter == base.formatter
    ensures o == TooltipOverrides(None, None, None, None, None, None, None) ==> Customised(base, o) == base
    ensures Customised(Customised(base, o), o) == Customised(base, o)
  {
  }

  // ---------------------------------------------------------------------
  // The registry.

  class TooltipManagerInstance {
    var tooltips: OM.OrderedMap<string, TooltipConfig>

    /** The registry is well formed and always holds 'default', the fallback of custom tooltips. */
    ghost predicate Valid()
      reads this
    {
      OM.Valid(tooltips) && "default" in tooltips.entries
    }

    /** The four presets, registered in order. */
    constructor ()
      ensures Valid()
      ensures tooltips == Presets
    {
      tooltips := OM.Empty();
      new;
      RegisterTooltip("default", DefaultTooltip);
      RegisterTooltip("simple", SimpleTooltip);
      RegisterTooltip("card", CardTooltip);
      RegisterTooltip("dark", DarkTooltip);
      PresetsBuilt();
      PresetsValid();
    }

    /** `registerTooltip`: the configuration, without its name, stored under the name; a new name goes last. */
    method RegisterTooltip(name: string, config: TooltipConfig)
      modifies this`tooltips
      ensures tooltips.entries == old(tooltips.entries)[name := config]
      ensures tooltips.keys == if name in old(tooltips.entries) then old(tooltips.keys) else old(tooltips.keys) + [name]
      ensures old(Valid()) ==> Valid()
      ensures tooltips == OM.Set(old(tooltips), name, config)
    {
      if Valid() {
        OM.SetValid(tooltips, name, config);
      }
      tooltips := OM.Set(tooltips, name, config);
    }

    function GetTooltip(name: string): (r: Option<TooltipConfig>)
      reads this
      ensures r.Some? <==> name in tooltips.entries
      ensures r.Some? ==> r.value == tooltips.entries[name]
    {
      OM.Get(tooltips, name)
    }

    function GetTooltipNames(): seq<string>
      reads this
    {
      tooltips.keys
    }

    /**
     * `createCustomTooltip`: the named base, or 'default' when there is no
     * such tooltip, with the overrides over it, registered under the name.
     */
    method CreateCustomTooltip(name: string, baseTooltip: Option<string>, overrides: TooltipOverrides)
      returns (t: TooltipConfig)
      requires Valid()
      modifies this`tooltips
      ensures Valid()
      ensures var b := baseTooltip.GetOr("default");
              t == Customised(if b in old(tooltips.entries) then old(tooltips.entries)[b]
                              else old(tooltips.entries)["default"], overrides)
      ensures tooltips == OM.Set(old(tooltips), name, t)
    {
      var found := GetTooltip(baseTooltip.GetOr("default"));
      var base := if found.Some? then found.value else tooltips.entries["default"];
      t := Customised(base, overrides);
      RegisterTooltip(name, t);
    }
  }
}
