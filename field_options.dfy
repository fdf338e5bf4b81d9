/**
 * The option-array normalisation the field helpers share: the id prologue,
 * `getFieldOptions`, `getFormGroupOptions`, `getLabelOptions`,
 * `getLabelTitle` and the attributes of `addonButton`. What the facade's
 * state contributes (whether the form is horizontal, the left column class,
 * the error class) and what comes from the framework (whether the field has
 * an error, the translations, `Str::title`) are parameters.
 */
module FieldOptions {
  import opened Php

  /**
   * `unset($options['id']); $options = array_merge($options, ['id' => $name]);`
   * which every field helper runs first: the caller's id is replaced by the name.
   */
  function WithNameAsId(options: Options, name: string): (r: Options)
    ensures r.Keys == options.Keys + {"id"}
    ensures r["id"] == Str(name)
    ensures forall k :: k in options && k != "id" ==> r[k] == options[k]
  {
    (options - {"id"})["id" := Str(name)]
  }

  /** `getFieldOptionsClass`: the caller's class as the string that gets concatenated. */
  function CallerClass(options: Options): (r: string)
    ensures "class" !in options ==> r == ""
    ensures "class" in options && options["class"].Str? ==> r == options["class"].s
  {
    ToStr(Get(options, "class"))
  }

  /** `getFieldOptions($options, $name)` */
  function GetFieldOptions(options: Options, name: string): (r: Options)
    ensures r.Keys == options.Keys + {"class"} + (if Truthy(Str(name)) then {"id"} else {})
    ensures r["class"] == Str(Trim("form-control " + CallerClass(options)))
    ensures "class" !in options ==> r["class"] == Str("form-control")
    ensures CallerClass(options) != "" && IsTrimmed(CallerClass(options)) ==>
              r["class"] == Str("form-control " + CallerClass(options))
    ensures "id" in options ==> r["id"] == options["id"]
    ensures "id" !in options && Truthy(Str(name)) ==> r["id"] == Str(name)
    ensures forall k :: k in options && k != "class" && k != "id" ==> r[k] == options[k]
  {
    TrimJoin("form-control", CallerClass(options));
    assert "form-control " + CallerClass(options) == "form-control" + " " + CallerClass(options);
    var withClass := options["class" := Str(Trim("form-control " + CallerClass(options)))];
    if Truthy(Str(name)) && "id" !in withClass then withClass["id" := Str(name)] else withClass
  }

  /** After the prologue the id is the name, whatever id the caller passed. */
  lemma PrologueFixesId(options: Options, name: string)
    ensures GetFieldOptions(WithNameAsId(options, name), name)["id"] == Str(name)
    ensures GetFieldOptions(WithNameAsId(options, name), name).Keys == options.Keys + {"class", "id"}
  {
  }

  /**
   * `getFormGroupOptions($name, $options)`. `hasError` stands for the
   * truthiness of `getFieldError($name)` and `errorClass` for `getErrorClass()`.
   */
  function GetFormGroupOptions(name: Value, options: Options, hasError: bool, errorClass: Value): (r: Options)
    ensures r.Keys == options.Keys + {"class"}
    ensures forall k :: k in options ==> r[k] == options[k]
    ensures "class" !in options && !Truthy(name) ==> r["class"] == Str("form-group")
    ensures "class" !in options && Truthy(name) && hasError ==> r["class"] == Str("form-group " + ToStr(errorClass))
    ensures "class" !in options && Truthy(name) && !hasError ==> r["class"] == Str("form-group ")
  {
    var errorClassOrNull := if hasError then errorClass else Null;
    var cls := if Truthy(name) then "form-group" + " " + ToStr(errorClassOrNull) else "form-group";
    assert "form-group" + " " + ToStr(errorClassOrNull) == "form-group " + ToStr(errorClassOrNull);
    assert "form-group " + ToStr(Null) == "form-group ";
    map["class" := Str(cls)] + options
  }

  /** The group class always starts with `form-group` unless the caller overrides it. */
  lemma FormGroupClassPrefix(name: Value, options: Options, hasError: bool, errorClass: Value)
    requires "class" !in options
    ensures GetFormGroupOptions(name, options, hasError, errorClass)["class"].Str?
    ensures StartsWith(GetFormGroupOptions(name, options, hasError, errorClass)["class"].s, "form-group")
  {
    var c := GetFormGroupOptions(name, options, hasError, errorClass)["class"].s;
    assert c[..10] == "form-group";
  }

  /**
   * `getLabelOptions($options)`; `horizontal` is `isHorizontal()` and
   * `leftColumnClass` is `getLeftColumnClass()`.
   */
  function GetLabelOptions(options: Options, horizontal: bool, leftColumnClass: Value): (r: Options)
    ensures r.Keys == options.Keys + {"class"}
    ensures forall k :: k in options ==> r[k] == options[k]
    ensures "class" !in options && !horizontal ==> r["class"] == Str("control-label")
    ensures "class" !in options && horizontal ==> r["class"] == Str(Trim("control-label " + ToStr(leftColumnClass)))
    ensures "class" !in options && horizontal && IsTrimmed(ToStr(leftColumnClass)) ==>
              r["class"] == Str(if ToStr(leftColumnClass) == "" then "control-label"
                                else "control-label " + ToStr(leftColumnClass))
  {
    TrimJoin("control-label", ToStr(leftColumnClass));
    assert "control-label" + " " + ToStr(leftColumnClass) == "control-label " + ToStr(leftColumnClass);
    var cls := if horizontal then "control-label" + " " + ToStr(leftColumnClass) else "control-label";
    map["class" := Str(Trim(cls))] + options
  }

  /**
   * `getLabelTitle($label, $name)`, with `caption` for `$label`. `translations` holds the `forms.*`
   * entries `Lang` knows and `titledName` is `Str::title($name)`.
   */
  function GetLabelTitle(caption: Value, name: string, translations: map<string, string>, titledName: string): (r: Value)
    ensures r == Null <==> caption == Bool(false)
    ensures Truthy(caption) ==> r == caption
    ensures caption == Null && "forms." + name in translations ==> r == Str(translations["forms." + name])
    ensures caption != Bool(false) && !Truthy(caption) && !(caption == Null && "forms." + name in translations) ==>
              r == Str(Replace(titledName, '_', " ")) && '_' !in r.s
  {
    if caption == Bool(false) then Null
    else if caption == Null && "forms." + name in translations then Str(translations["forms." + name])
    else Elvis(caption, Str(Replace(titledName, '_', " ")))
  }

  /** The attributes `addonButton($label, $options)` renders on its `<button>`. */
  function AddonButtonAttributes(options: Options): (r: Options)
    ensures r.Keys == options.Keys + {"class", "type"}
    ensures forall k :: k in options && k != "class" ==> r[k] == options[k]
    ensures "type" !in options ==> r["type"] == Str("button")
    ensures "class" !in options ==> r["class"] == Str("btn")
    ensures IsSet(options, "class") ==> r["class"] == Str(ToStr(options["class"]) + " btn")
    ensures r["class"] == Null <==> "class" in options && options["class"] == Null
  {
    var attributes := map["class" := Str("btn"), "type" := Str("button")] + options;
    if IsSet(options, "class") then attributes["class" := Str(ToStr(attributes["class"]) + " btn")]
    else attributes
  }

  /** Unless the caller passes a null class, the button carries the class `btn`. */
  lemma AddonButtonIsBtn(options: Options)
    requires !("class" in options && options["class"] == Null)
    ensures var c := AddonButtonAttributes(options)["class"];
            c.Str? && |c.s| >= 3 && c.s[|c.s| - 3..] == "btn"
  {
  }
}
