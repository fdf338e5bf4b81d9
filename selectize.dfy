/**
 * The option normalisation of `sselectize($name, $list, $selected, $options)`:
 * the literals it writes into the Selectize.js call (`create`, `maxItems`,
 * `preload`), the table and field it searches, the value and label fields
 * (`key`, `display`), the extra `js_options` entries, and the ids and names
 * of the rendered widget and of the hidden element that may carry the
 * submitted value. The guessing of tables and routes from the framework and
 * the script text around these pieces are not modelled; the URL the route
 * lookup settles on is a parameter.
 */
module Selectize {
  import opened Php

  // ---------------------------------------------------------------------
  // Flags

  /** An option is switched on when it is set and is neither `false` nor `'false'` (`!==`). */
  predicate Enabled(options: Options, key: string) {
    IsSet(options, key) && options[key] != Bool(false) && options[key] != Str("false")
  }

  /**
   * The `'true'`/`'false'` literal of a switch: `create` is read this way, and
   * so is the corrected `preload`.
   */
  function Switch(options: Options, key: string): (r: string)
    ensures r == "true" <==> Enabled(options, key)
    ensures r == "false" <==> !Enabled(options, key)
  {
    if Enabled(options, key) then "true" else "false"
  }

  /** Both literals are non-empty strings, so `!$create` never holds. */
  lemma SwitchAlwaysTruthy(options: Options, key: string)
    ensures Truthy(Str(Switch(options, key)))
  {
  }

  /** `$multiple`, the value given as `maxItems:` */
  function MultipleFlag(options: Options): (r: Value)
    ensures !Enabled(options, "multiple") ==> r == Str("1")
    ensures Enabled(options, "multiple") && CtypeDigit(options["multiple"]) ==> r == options["multiple"]
    ensures Enabled(options, "multiple") && !CtypeDigit(options["multiple"]) ==> r == Str("null")
    ensures r == Str("1") || r == Str("null") || CtypeDigit(r)
  {
    if Enabled(options, "multiple") then
      if CtypeDigit(options["multiple"]) then options["multiple"] else Str("null")
    else Str("1")
  }

  /** A single-item widget: `$multiple != 1` fails. */
  predicate IsSingle(multiple: Value) {
    LooseEq(multiple, Int(1))
  }

  /**
   * The source tests the flag against `1` in one place and against `'1'` in
   * another; on every value the flag can take the two tests agree.
   */
  lemma MultipleComparisonsAgree(options: Options)
    ensures IsSingle(MultipleFlag(options)) <==> LooseEq(MultipleFlag(options), Str("1"))
    ensures !Enabled(options, "multiple") ==> IsSingle(MultipleFlag(options))
  {
    var m := MultipleFlag(options);
    assert DigitPrefix("1") == "1";
    assert LeadingInt("1") == 1;
    assert IsNumeric("1");
    match m
    case Str(d) =>
      if d != "null" {
        AllDigitsPrefix(d);
        assert d[0] != '-';
        assert IsNumeric(d);
      } else {
        assert !IsNumeric(d) && DigitPrefix(d) == "";
      }
    case _ =>
  }

  /**
   * `$preload` as written: `'false'` is tested with a loose `==`, so any value
   * loosely equal to the string `'false'`, `true` among them, switches it off.
   */
  function PreloadAsWritten(options: Options): (r: string)
    ensures r == "true" <==> IsSet(options, "preload") && options["preload"] != Bool(false) &&
                              !LooseEq(options["preload"], Str("false"))
    ensures r == "true" || r == "false"
  {
    if IsSet(options, "preload") && (options["preload"] == Bool(false) || LooseEq(options["preload"], Str("false"))) then "false"
    else if !IsSet(options, "preload") then "false"
    else "true"
  }

  /** `$preload` with the strict test `create` and `multiple` use. */
  function Preload(options: Options): (r: string)
    ensures r == "true" <==> Enabled(options, "preload")
    ensures r != PreloadAsWritten(options) <==>
              Enabled(options, "preload") && LooseEq(options["preload"], Str("false"))
  {
    Switch(options, "preload")
  }

  /** `'preload' => true` leaves preloading off as written and turns it on when corrected. */
  lemma PreloadTrueIgnored()
    ensures PreloadAsWritten(map["preload" := Bool(true)]) == "false"
    ensures Preload(map["preload" := Bool(true)]) == "true"
  {
  }

  // ---------------------------------------------------------------------
  // Table, field, key and display

  /**
   * What `from => 'table.field'` names: the last two dot-separated parts.
   * A single part assigns an undefined variable in the source, which reads as null.
   */
  function FromParts(options: Options): (r: (Value, Value))
    ensures !IsSet(options, "from") ==> r == (Null, Null)
    ensures IsSet(options, "from") && '.' !in ToStr(options["from"]) ==> r == (Null, Null)
    ensures IsSet(options, "from") && |Explode(ToStr(options["from"]), '.')| >= 2 ==>
              var parts := Explode(ToStr(options["from"]), '.');
              r == (Str(parts[|parts| - 2]), Str(parts[|parts| - 1]))
    ensures r.0 != Null ==> r.0.Str? && '.' !in r.0.s && r.1.Str? && '.' !in r.1.s
  {
    if !IsSet(options, "from") then (Null, Null)
    else
      if '.' !in ToStr(options["from"]) then ExplodeNoSeparator(ToStr(options["from"]), '.'); (Null, Null)
      else
      var parts := Explode(ToStr(options["from"]), '.');
      if |parts| >= 2 then (Str(parts[|parts| - 2]), Str(parts[|parts| - 1])) else (Null, Null)
  }

  /** `$table`: the `table` option, else the table of `from`, else null. */
  function Table(options: Options): (r: Value)
    ensures IsSet(options, "table") ==> r == options["table"]
    ensures !IsSet(options, "table") ==> r == Null || Truthy(r)
    ensures !IsSet(options, "table") ==> r == if Truthy(FromParts(options).0) then FromParts(options).0 else Null
  {
    if IsSet(options, "table") then options["table"]
    else if Truthy(FromParts(options).0) then FromParts(options).0
    else Null
  }

  /** `$field`: the `field` option, else the field of `from`, else `'name'`. */
  function Field(options: Options): (r: Value)
    ensures IsSet(options, "field") ==> r == options["field"]
    ensures !IsSet(options, "field") ==> Truthy(r)
    ensures !IsSet(options, "field") && !IsSet(options, "from") ==> r == Str("name")
    ensures !IsSet(options, "field") ==> r == if Truthy(FromParts(options).1) then FromParts(options).1 else Str("name")
  {
    if IsSet(options, "field") then options["field"]
    else if Truthy(FromParts(options).1) then FromParts(options).1
    else Str("name")
  }

  /**
   * `from => 'p1.p2....table.field'` supplies the last two parts as table and
   * field when `table` and `field` are not given.
   */
  lemma FromPath(options: Options, parts: seq<string>)
    requires |parts| >= 2 && forall k :: 0 <= k < |parts| ==> '.' !in parts[k]
    requires Truthy(Str(parts[|parts| - 2])) && Truthy(Str(parts[|parts| - 1]))
    requires "from" in options && options["from"] == Str(Implode(parts, '.'))
    requires !IsSet(options, "table") && !IsSet(options, "field")
    ensures Table(options) == Str(parts[|parts| - 2])
    ensures Field(options) == Str(parts[|parts| - 1])
  {
    ExplodeImplode(parts, '.');
    assert Explode(ToStr(options["from"]), '.') == parts;
    assert FromParts(options) == (Str(parts[|parts| - 2]), Str(parts[|parts| - 1]));
  }

  /** `is_array($list) && count($list) > 0` */
  predicate HasOptions(list: Value) {
    list.Arr? && |list.entries| > 0
  }

  /**
   * `$key`, the `valueField` of the widget. The source also tests `!$create`,
   * which never holds; the contract states the rule without it.
   */
  function Key(options: Options, name: string, list: Value): (r: Value)
    ensures IsSet(options, "key") ==> r == options["key"]
    ensures !IsSet(options, "key") ==>
              r == if Contains(name, "_id") || HasOptions(list) || !IsSingle(MultipleFlag(options))
                   then Str("id") else Field(options)
  {
    var create := Switch(options, "create");
    SwitchAlwaysTruthy(options, "create");
    if IsSet(options, "key") then options["key"]
    else if Contains(name, "_id") || HasOptions(list) || !IsSingle(MultipleFlag(options)) || !Truthy(Str(create)) then Str("id")
    else Field(options)
  }

  /**
   * `$display`, the `labelField` of the widget: the `display` option, else the
   * searched field when the data comes over Ajax or several items can be
   * chosen, else the `value` attribute of the `<option>`s. `url` is the URL
   * the route lookup settled on.
   */
  function Display(options: Options, url: Value): (r: Value)
    ensures IsSet(options, "display") ==> r == options["display"]
    ensures !IsSet(options, "display") && (Truthy(url) || !IsSingle(MultipleFlag(options))) ==> r == Field(options)
    ensures !IsSet(options, "display") && !Truthy(url) && IsSingle(MultipleFlag(options)) ==> r == Str("value")
  {
    MultipleComparisonsAgree(options);
    if !LooseEq(MultipleFlag(options), Str("1")) || Truthy(url) then Coalesce(Get(options, "display"), Field(options))
    else Coalesce(Get(options, "display"), Str("value"))
  }

  // ---------------------------------------------------------------------
  // Extra script options

  /** The entries `foreach ($js_options ...)` visits: those of a non-empty array, none otherwise. */
  function JsOptionEntries(options: Options): (r: seq<(Value, Value)>)
    ensures IsSet(options, "js_options") && options["js_options"].Arr? ==> r == options["js_options"].entries
    ensures !(IsSet(options, "js_options") && options["js_options"].Arr?) ==> r == []
  {
    if IsSet(options, "js_options") && options["js_options"].Arr? then options["js_options"].entries else []
  }

  /** One `,\nfield: code` line of the Selectize.js options. */
  function JsLine(entry: (Value, Value)): (r: string)
    ensures |r| >= 4
  {
    ",\n" + ToStr(entry.0) + ": " + ToStr(entry.1)
  }

  /** The line of each entry, in order. */
  function Lines(entries: seq<(Value, Value)>): (r: seq<string>)
    ensures |r| == |entries|
    ensures forall k :: 0 <= k < |entries| ==> r[k] == JsLine(entries[k])
  {
    seq(|entries|, k requires 0 <= k < |entries| => JsLine(entries[k]))
  }

  /** Lines joined one after the other. */
  function Concat(lines: seq<string>): string {
    if lines == [] then "" else Concat(lines[..|lines| - 1]) + lines[|lines| - 1]
  }

  /** The script text the `js_options` entries add. */
  function JsCode(entries: seq<(Value, Value)>): string {
    Concat(Lines(entries))
  }

  /** `$add_js`, accumulated entry by entry. */
  method AddJs(entries: seq<(Value, Value)>) returns (code: string)
    ensures code == JsCode(entries)
  {
    var lines := Lines(entries);
    code := "";
    var i := 0;
    while i < |entries|
      invariant 0 <= i <= |entries|
      invariant code == Concat(lines[..i])
    {
      assert lines[..i + 1][..i] == lines[..i];
      code := code + JsLine(entries[i]);
      i := i + 1;
    }
    assert lines[..|entries|] == lines;
  }

  lemma {:induction false} ConcatAppend(a: seq<string>, b: seq<string>)
    ensures Concat(a + b) == Concat(a) + Concat(b)
    decreases |b|
  {
    if b == [] {
      assert a + b == a;
    } else {
      var ab := a + b;
      var b' := b[..|b| - 1];
      assert ab != [] && ab[..|ab| - 1] == a + b' && ab[|ab| - 1] == b[|b| - 1];
      ConcatAppend(a, b');
    }
  }

  /** The code of two runs of entries is the code of each, one after the other. */
  lemma JsCodeConcat(a: seq<(Value, Value)>, b: seq<(Value, Value)>)
    ensures JsCode(a + b) == JsCode(a) + JsCode(b)
  {
    assert Lines(a + b) == Lines(a) + Lines(b);
    ConcatAppend(Lines(a), Lines(b));
  }

  /** Nothing is added exactly when there are no entries: every line is at least four characters. */
  lemma JsCodeEmpty(entries: seq<(Value, Value)>)
    ensures JsCode(entries) == "" <==> entries == []
  {
    var lines := Lines(entries);
    if entries != [] {
      assert lines[..|lines| - 1] + [lines[|lines| - 1]] == lines;
      ConcatAppend(lines[..|lines| - 1], [lines[|lines| - 1]]);
      assert [lines[|lines| - 1]][..0] == [];
      assert |JsCode(entries)| >= |lines[|lines| - 1]| >= 4;
    }
  }

  // ---------------------------------------------------------------------
  // Ids and names

  /** `preg_replace('/[\[\]]/', '_', $name)` */
  function Unbracket(name: string): (r: string)
    ensures |r| == |name|
    ensures forall k :: 0 <= k < |name| ==> r[k] == if name[k] == '[' || name[k] == ']' then '_' else name[k]
  {
    if name == [] then []
    else [if name[0] == '[' || name[0] == ']' then '_' else name[0]] + Unbracket(name[1..])
  }

  /** The id given when the caller's attributes have none: brackets and dots become `_`. */
  function DefaultId(name: string): (r: string)
    ensures |r| == |name|
    ensures forall k :: 0 <= k < |name| ==>
              r[k] == if name[k] == '[' || name[k] == ']' || name[k] == '.' then '_' else name[k]
    ensures '[' !in r && ']' !in r && '.' !in r
  {
    ReplaceOneChar(Unbracket(name), '.', '_');
    Replace(Unbracket(name), '.', "_")
  }

  /** `str_replace('.', '\\.', $id)`: dots escaped for a jQuery selector. */
  function Slash(id: string): (r: string)
    ensures '.' !in id ==> r == id
  {
    ReplaceAbsent(id, '.', "\\\\.");
    Replace(id, '.', "\\\\.")
  }

  /** A dot in front of a dot-free part is escaped, and the rest escaped in turn. */
  lemma SlashDot(a: string, b: string)
    requires '.' !in a
    ensures Slash(a + "." + b) == a + "\\\\." + Slash(b)
  {
    ReplaceConcat(a + ".", b, '.', "\\\\.");
    ReplaceConcat(a, ".", '.', "\\\\.");
    ReplaceAbsent(a, '.', "\\\\.");
    assert Replace(".", '.', "\\\\.") == "\\\\." by {
      assert "."[0] == '.' && "."[1..] == [];
    }
  }

  /** The name of the widget when a separate hidden element carries `name`. */
  function WidgetName(name: string): (r: string)
    ensures |r| == |name| + 10
    ensures forall k :: 0 <= k < |name| ==>
              r[k] == if name[k] == '[' || name[k] == ']' then '_' else if name[k] == '.' then '-' else name[k]
    ensures r[|name|..] == "_selectize"
  {
    ReplaceOneChar(Unbracket(name), '.', '-');
    Replace(Unbracket(name), '.', "-") + "_selectize"
  }

  /** The rendered widget as far as the script and the submitted form see it. */
  datatype Widget = Widget(
    elementName: string,        // the name of the select, input or textarea
    attributes: Options,        // its attributes, id included
    selector: string,           // the id the script looks the widget up by
    hidden: Option<string>)     // the id of a separate hidden element named `name`

  /**
   * A hidden element carries the value when no id was given, the widget is
   * not a select, and the value field is not the searched field or the name
   * is dotted.
   */
  predicate SeparateHidden(idSet: bool, widgetType: Value, key: Value, field: Value, name: string)
    // a caller id or a select never gets one; another widget with a dotted name always does
    ensures idSet || widgetType == Str("select") ==> !SeparateHidden(idSet, widgetType, key, field, name)
    ensures !idSet && !LooseEq(widgetType, Str("select")) && '.' in name ==> SeparateHidden(idSet, widgetType, key, field, name)
  {
    LooseEqReflexive(widgetType);
    !idSet && !LooseEq(widgetType, Str("select")) && (!LooseEq(key, field) || '.' in name)
  }

  /** The caller's attributes, with `multiple => 'required'` for a multi-item widget. */
  function BaseAttributes(attributes: Options, multiple: Value): (r: Options)
    ensures r.Keys == attributes.Keys + (if IsSingle(multiple) then {} else {"multiple"})
    ensures !IsSingle(multiple) ==> r["multiple"] == Str("required")
    ensures forall k :: k in attributes && k != "multiple" ==> r[k] == attributes[k]
    // a single-item widget keeps the caller's attributes, `multiple` included
    ensures IsSingle(multiple) ==> r == attributes
  {
    if !IsSingle(multiple) then attributes["multiple" := Str("required")] else attributes
  }

  /** The widget's name and attributes before the script selector is chosen. */
  function Element(name: string, widgetType: Value, key: Value, field: Value, attributes: Options): (r: (string, Options, Option<string>))
    ensures r.1.Keys == attributes.Keys + {"id"}
    ensures forall k :: k in attributes && k != "id" ==> r.1[k] == attributes[k]
    ensures var separate := SeparateHidden(IsSet(attributes, "id"), widgetType, key, field, name);
            && (separate ==> r.0 == WidgetName(name) && r.2 == Some(WidgetName(name)) &&
                             r.1["id"] == (if IsSet(attributes, "id") then attributes["id"] else Str(DefaultId(name))))
            && (!separate ==> r.0 == name && r.2 == None && r.1["id"] == Str(Unbracket(name)))
  {
    var idSet := IsSet(attributes, "id");
    var withId := if idSet then attributes else attributes["id" := Str(DefaultId(name))];
    if SeparateHidden(idSet, widgetType, key, field, name) then (WidgetName(name), withId, Some(WidgetName(name)))
    else (name, withId["id" := Str(Unbracket(name))], None)
  }

  /**
   * The ids as written: the selector is taken from the id before the
   * no-hidden branch overwrites it with the name.
   */
  function WidgetAsWritten(name: string, widgetType: Value, key: Value, field: Value, multiple: Value, attributes: Options): (r: Widget)
    ensures r.selector == Slash(ToStr(Coalesce(Get(attributes, "id"), Str(DefaultId(name)))))
  {
    var base := BaseAttributes(attributes, multiple);
    var initialId := if IsSet(base, "id") then base["id"] else Str(DefaultId(name));
    var (elementName, attrs, hidden) := Element(name, widgetType, key, field, base);
    Widget(elementName, attrs, Slash(ToStr(initialId)), hidden)
  }

  /** The ids with the selector taken from the id the widget is rendered with. */
  function WidgetIds(name: string, widgetType: Value, key: Value, field: Value, multiple: Value, attributes: Options): (r: Widget)
    ensures "id" in r.attributes && r.selector == Slash(ToStr(r.attributes["id"]))
    ensures r.attributes.Keys == attributes.Keys + {"id"} + (if IsSingle(multiple) then {} else {"multiple"})
    ensures !IsSingle(multiple) ==> r.attributes["multiple"] == Str("required")
    ensures forall k :: k in attributes && k != "id" && k != "multiple" ==> r.attributes[k] == attributes[k]
    ensures IsSingle(multiple) && "multiple" in attributes ==> r.attributes["multiple"] == attributes["multiple"]
    ensures r.hidden.Some? <==> SeparateHidden(IsSet(attributes, "id"), widgetType, key, field, name)
    // a separate hidden element: the widget gets another name and the default id
    ensures r.hidden.Some? ==> r.hidden.value == WidgetName(name) && r.elementName == WidgetName(name) &&
                               r.attributes["id"] == Str(DefaultId(name))
    // otherwise the widget keeps the name and its id is the name with brackets made `_`
    ensures r.hidden.None? ==> r.elementName == name && r.attributes["id"] == Str(Unbracket(name))
  {
    var (elementName, attrs, hidden) := Element(name, widgetType, key, field, BaseAttributes(attributes, multiple));
    Widget(elementName, attrs, Slash(ToStr(attrs["id"])), hidden)
  }

  /** The two agree on everything but the selector. */
  lemma WidgetAsWrittenDiffersOnlyInSelector(name: string, widgetType: Value, key: Value, field: Value, multiple: Value, attributes: Options)
    ensures WidgetAsWritten(name, widgetType, key, field, multiple, attributes)
         == WidgetIds(name, widgetType, key, field, multiple, attributes)
              .(selector := WidgetAsWritten(name, widgetType, key, field, multiple, attributes).selector)
  {
  }

  /**
   * A caller-supplied id, say `picker` on the select `color`: the select is
   * rendered with the id `color`, the script looks for `picker`.
   */
  lemma CallerIdMissedAsWritten(name: string, given: string)
    requires '[' !in name && ']' !in name && '.' !in name
    requires '.' !in given && given != name
    ensures var w := WidgetAsWritten(name, Str("select"), Str("id"), Str("name"), Str("1"), map["id" := Str(given)]);
            w.selector == given && w.attributes["id"] == Str(name) &&
            w.selector != Slash(ToStr(w.attributes["id"]))
  {
    UnbracketPlain(name);
    SingleAndSelect();
    var attributes := map["id" := Str(given)];
    assert BaseAttributes(attributes, Str("1")) == attributes;
    assert Element(name, Str("select"), Str("id"), Str("name"), attributes).1["id"] == Str(name);
  }

  /**
   * A dotted select name such as `user.role`: the select gets the id
   * `user.role`, the script looks for `user_role`.
   */
  lemma DottedSelectMissedAsWritten(a: string, b: string)
    requires '[' !in a && ']' !in a && '.' !in a
    requires '[' !in b && ']' !in b && '.' !in b
    ensures var w := WidgetAsWritten(a + "." + b, Str("select"), Str("id"), Str("name"), Str("1"), map[]);
            w.selector == a + "_" + b && w.attributes["id"] == Str(a + "." + b) &&
            w.selector != Slash(ToStr(w.attributes["id"]))
  {
    var name := a + "." + b;
    UnbracketPlain(name);
    DefaultIdDotted(a, b);
    SingleAndSelect();
    var base := BaseAttributes(map[], Str("1"));
    assert base == map[];
    assert name[|a|] == '.';
    assert !SeparateHidden(false, Str("select"), Str("id"), Str("name"), name);
    assert Element(name, Str("select"), Str("id"), Str("name"), base).1["id"] == Str(name);
    assert '.' !in a + "_" + b;
    assert Slash(a + "_" + b) == a + "_" + b;
    SlashKeepsDottedApart(name, a + "_" + b);
  }

  /** An id with a dot never escapes to a dot-free one: the escape keeps the dot. */
  lemma SlashKeepsDottedApart(id: string, other: string)
    requires '.' in id && '.' !in other
    ensures Slash(id) != other
  {
    ReplaceShowsWith(id, '.', "\\\\.");
    assert '.' in "\\\\." by { assert "\\\\."[2] == '.'; }
  }

  /** Dots in a plain dotted name become underscores in its default id. */
  lemma DefaultIdDotted(a: string, b: string)
    requires '[' !in a && ']' !in a && '.' !in a
    requires '[' !in b && ']' !in b && '.' !in b
    ensures DefaultId(a + "." + b) == a + "_" + b
  {
    var name := a + "." + b;
    var d := DefaultId(name);
    assert |d| == |a + "_" + b|;
    forall k | 0 <= k < |d|
      ensures d[k] == (a + "_" + b)[k]
    {
      if k < |a| {
        assert name[k] == a[k];
      } else if k > |a| {
        assert name[k] == b[k - |a| - 1];
      }
    }
  }

  lemma SingleAndSelect()
    ensures IsSingle(Str("1"))
    ensures LooseEq(Str("select"), Str("select"))
  {
    assert DigitPrefix("1") == "1";
    LooseEqReflexive(Str("select"));
  }

  /** A name without brackets is its own unbracketed form. */
  lemma UnbracketPlain(name: string)
    requires '[' !in name && ']' !in name
    ensures Unbracket(name) == name
  {
  }

  /** For names without dots the default id is the one the browser tests look the widget up by. */
  lemma DefaultIdWithoutDots(name: string)
    requires '.' !in name
    ensures DefaultId(name) == Unbracket(name)
  {
  }

  // ---------------------------------------------------------------------
  // The whole normalisation

  /** `$options['attributes'] ?? []` with its string keys. */
  function AttributesOf(options: Options): Options {
    if IsSet(options, "attributes") && options["attributes"].Arr? then StringKeyed(options["attributes"].entries) else map[]
  }

  /**
   * The string-keyed entries of an array as a map: every string key is
   * there, with the value of its last entry.
   */
  function StringKeyed(entries: seq<(Value, Value)>): (r: Options)
    ensures forall k :: k in r ==> exists i :: 0 <= i < |entries| && entries[i] == (Str(k), r[k])
    ensures forall i :: 0 <= i < |entries| && entries[i].0.Str? ==> entries[i].0.s in r
    ensures forall i :: (0 <= i < |entries| && entries[i].0.Str? &&
                         forall j :: i < j < |entries| ==> entries[j].0 != entries[i].0) ==>
              r[entries[i].0.s] == entries[i].1
  {
    if entries == [] then map[]
    else
      var front := entries[..|entries| - 1];
      var init := StringKeyed(front);
      var last := entries[|entries| - 1];
      assert forall i :: 0 <= i < |front| ==> front[i] == entries[i];
      if last.0.Str? then init[last.0.s := last.1] else init
  }

  /** What `sselectize` hands to the widget and its script. */
  datatype Settings = Settings(
    table: Value, field: Value, create: string, multiple: Value, preload: string,
    key: Value, display: Value, addJs: string, widget: Widget)

  /** The settings on which the source and the corrected normalisation agree. */
  predicate SharedSettings(r: Settings, name: string, list: Value, options: Options, url: Value) {
    && r.table == Table(options) && r.field == Field(options)
    && r.create == Switch(options, "create") && r.multiple == MultipleFlag(options)
    && r.key == Key(options, name, list) && r.display == Display(options, url)
    && r.addJs == JsCode(JsOptionEntries(options))
  }

  /** The widget type, `select` unless `type` is given. */
  function WidgetType(options: Options): (r: Value)
    ensures !IsSet(options, "type") ==> r == Str("select")
    ensures IsSet(options, "type") ==> r == options["type"]
  {
    Coalesce(Get(options, "type"), Str("select"))
  }

  /**
   * The normalisation of `sselectize`'s arguments; `url` is the resolved
   * search URL. `preload` and the script selector are the corrected ones.
   */
  method Normalise(name: string, list: Value, options: Options, url: Value) returns (r: Settings)
    ensures SharedSettings(r, name, list, options, url)
    ensures r.preload == Preload(options)
    ensures r.widget == WidgetIds(name, WidgetType(options), Key(options, name, list),
                                  Field(options), MultipleFlag(options), AttributesOf(options))
    ensures r.widget.selector == Slash(ToStr(r.widget.attributes["id"]))
  {
    var field := Field(options);
    var multiple := MultipleFlag(options);
    var key := Key(options, name, list);
    var addJs := AddJs(JsOptionEntries(options));
    var widget := WidgetIds(name, WidgetType(options), key, field, multiple, AttributesOf(options));
    r := Settings(Table(options), field, Switch(options, "create"), multiple, Preload(options), key, Display(options, url), addJs, widget);
  }

  /**
   * The normalisation as the source writes it: the same settings except
   * `preload`, read with the inverted test, and the selector, taken from the
   * id before it is overwritten.
   */
  method NormaliseAsWritten(name: string, list: Value, options: Options, url: Value) returns (r: Settings)
    ensures SharedSettings(r, name, list, options, url)
    ensures r.preload == PreloadAsWritten(options)
    ensures r.widget == WidgetAsWritten(name, WidgetType(options), Key(options, name, list),
                                        Field(options), MultipleFlag(options), AttributesOf(options))
  {
    var corrected := Normalise(name, list, options, url);
    var asWritten := WidgetAsWritten(name, WidgetType(options), corrected.key, corrected.field, corrected.multiple, AttributesOf(options));
    WidgetAsWrittenDiffersOnlyInSelector(name, WidgetType(options), corrected.key, corrected.field, corrected.multiple, AttributesOf(options));
    r := corrected.(preload := PreloadAsWritten(options), widget := corrected.widget.(selector := asWritten.selector));
  }
}
