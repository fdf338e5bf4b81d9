# bootstrap-form, modelled in Dafny

`BootstrapForm` is a facade over Laravel's form builder that produces Bootstrap 3
markup. This project models the logic of `src/BootstrapForm.php` that decides
what is rendered, not the markup itself:

- **Form state** (`form_state.dfy`, module `FormState`). The facade keeps the form
  type, the column classes of a horizontal form, the error bag and the form
  name in object fields. Its getters fall back to the `bootstrap_form.*`
  configuration when a field is unset. `open` records these fields and prepares
  the options (`role="form"`, the type class as default class, the column keys
  removed). `vertical`, `inline` and `horizontal` force their type, and `close`
  forgets the type and the left and right column classes. The class
  `BootstrapForm` holds these fields; `Open` returns the call it would make on
  the form builder.
- **Model binding** (`model_route.dfy`, module `ModelRoute`). `model($options)`
  always removes `model`. With an explicit URL it also removes `store` and
  `update` and sets `method` to GET unless the caller gave one; with a store or
  update route it removes those two, sets `method` to PUT for an existing
  model, POST otherwise, and writes the
  `route`/`action` target, with the model's route key appended for an update;
  with neither it leaves `method` alone.
- **Field options** (`field_options.dfy`, module `FieldOptions`): the id
  prologue every field helper runs, `getFieldOptions`, `getFormGroupOptions`,
  `getLabelOptions`, `getLabelTitle` and the attributes of `addonButton`.
- **Field names** (`field_name.dfy`, module `FieldName`). `flattenFieldName`
  turns `foo[bar][baz]` into the validator's `foo.bar.baz`. The model is a scan
  that follows the ungreedy pattern `\[(.*)\]`. It is proved against a
  reference definition: a base name followed by bracketed keys.
- **Choices** (`choices.dfy`, module `Choices`). `checkboxes` and `radios` build
  one element per choice, in order. A checkbox is checked by loose
  `in_array`; a radio only by `===`.
- **Selectize options** (`selectize.dfy`, module `Selectize`). `sselectize`
  normalises its options into:
  - the `create`, `maxItems` and `preload` literals;
  - the table and field (from `from => 'table.field'`);
  - the `valueField`/`labelField` choice (`key`, `display`);
  - the `js_options` lines;
  - the id and name of the widget, and of the hidden element that carries the
    value when the widget gets another name.
- **PHP semantics** (`php.dfy`, module `Php`). The value domain of option
  arrays and the parts of PHP 7 that the code above relies on:
  - truthiness, `isset`, `?:`;
  - loose `==` and `in_array`;
  - `(array)` casts and `array_merge` renumbering;
  - `trim`, `str_replace`, `explode`, `ctype_digit`.

Option arrays are `map<string, Value>`. The framework pieces are parameters:
- the session's errors (`hasError`);
- `Lang` (`translations`);
- `Str::title` (`titledName`);
- the configuration (`Config`);
- the URL the route lookup settles on (`url`).

## Model

| member | source | states |
|---|---|---|
| FormState.BootstrapForm.constructor | src/BootstrapForm.php:104-109 | a new facade has every state field unset and keeps the configuration it is given |
| FormState.BootstrapForm.GetType | src/BootstrapForm.php:966-969 | the type set on the facade when it is not null, else the configured type |
| FormState.BootstrapForm.IsHorizontal | src/BootstrapForm.php:976-979 | horizontal exactly when the effective type (the facade's when set, else the configured one) is `form-horizontal` |
| FormState.BootstrapForm.GetLeftColumnClass | src/BootstrapForm.php:997-1000 | the field when it is truthy, else the configured left column class |
| FormState.BootstrapForm.GetLeftColumnOffsetClass | src/BootstrapForm.php:1018-1021 | the field when it is truthy, else the configured offset class |
| FormState.BootstrapForm.GetRightColumnClass | src/BootstrapForm.php:1039-1042 | the field when it is truthy, else the configured right column class |
| FormState.BootstrapForm.GetIconPrefix | src/BootstrapForm.php:1060-1063 | the field when it is truthy, else the configured icon prefix |
| FormState.BootstrapForm.GetErrorClass | src/BootstrapForm.php:1070-1073 | the field when it is truthy, else the configured error class |
| FormState.BootstrapForm.GetErrorBag | src/BootstrapForm.php:1080-1083 | the field when it is truthy, else the configured error bag |
| FormState.BootstrapForm.SetType | src/BootstrapForm.php:987-990 | only the type field changes, to the given value |
| FormState.BootstrapForm.SetLeftColumnClass | src/BootstrapForm.php:1008-1011 | only the left column class changes |
| FormState.BootstrapForm.SetLeftColumnOffsetClass | src/BootstrapForm.php:1029-1032 | only the left column offset class changes |
| FormState.BootstrapForm.SetRightColumnClass | src/BootstrapForm.php:1050-1053 | only the right column class changes |
| FormState.BootstrapForm.SetErrorBag | src/BootstrapForm.php:1091-1094 | only the error bag changes |
| FormState.OpenedOptions | src/BootstrapForm.php:130-160 | the prepared options have `role` "form"; `class` is the caller's, else the current type; the three column keys are gone; every other option is kept |
| FormState.OpenCallFor | src/BootstrapForm.php:130-170 | a model-bound form exactly when `model` is given, whose options are the model-route rewriting of the prepared options; on both paths `role` is "form", the class is the caller's or the current type, and no column key reaches the builder |
| FormState.BoundOptionsKeepForm | src/BootstrapForm.php:192-231 | binding a model never removes or changes `role` or `class`, and adds no column key |
| FormState.AfterOpen | src/BootstrapForm.php:130-170 | the state after opening: type, icon prefix and error class are untouched; `form_name` is taken when set; each column class present in the options is taken, the others kept; `error_bag` is taken only when present without a model |
| FormState.BootstrapForm.Open | src/BootstrapForm.php:130-170 | returns that builder call for the type before the call, and leaves exactly the state `AfterOpen` describes |
| FormState.BootstrapForm.TakeColumns | src/BootstrapForm.php:143-153 | each column class present among the options is stored through its setter; no other field changes |
| FormState.BootstrapForm.Close | src/BootstrapForm.php:177-184 | clears the type and the left and right column classes, so the getters fall back to the configuration; the offset class and error bag survive |
| FormState.BootstrapForm.OpenTyped | src/BootstrapForm.php:239-270 | sets the type, then opens with the class forced to the type's class whatever the caller passed; the new state is `AfterOpen` of the old one with that type |
| FormState.BootstrapForm.OpenVertical | src/BootstrapForm.php:239-244 | the type becomes `form-vertical`, the form is not horizontal, the class is `form-vertical`; the rest of the state is as `AfterOpen` describes |
| FormState.BootstrapForm.OpenInline | src/BootstrapForm.php:252-257 | the type becomes `form-inline`, the form is not horizontal, the class is `form-inline`; the rest of the state is as `AfterOpen` describes |
| FormState.BootstrapForm.OpenHorizontal | src/BootstrapForm.php:265-270 | the form is horizontal, the class is `form-horizontal`, and truthy column classes passed in become the getters' values; the rest of the state is as `AfterOpen` describes |
| ModelRoute.TargetKey | src/BootstrapForm.php:213-214 | the target is `action` exactly when the route name (the first element of an array route) contains `@`, else `route` |
| ModelRoute.UrlOptions | src/BootstrapForm.php:196-201 | with an explicit URL: the keys are the caller's without `model`, `store` and `update`, plus `method`, which keeps the caller's value or becomes GET; every other option is kept |
| ModelRoute.Routed | src/BootstrapForm.php:214-225 | writing a target and a method: the keys lose the route keys and gain `method` and the target key, which hold the given method and route; every other option is kept |
| ModelRoute.UpdateOptions | src/BootstrapForm.php:210-217 | for an existing model: the keys lose the route keys and gain `method` and the target; `method` is PUT, the target is the `array_merge` of the update route with the model's route key (so its values are the route's followed by the route key, and its string keys, the named route parameters, are kept), every other option is kept |
| Php.Renumber | src/BootstrapForm.php:216 | the renumbered array has as many entries as the original and the same values in the same order |
| Php.RenumberKeys | src/BootstrapForm.php:216 | `array_merge` keeps every string key and numbers the integer keys consecutively from the start value, in their order |
| Php.RenumberKeyAt | src/BootstrapForm.php:216 | the key `array_merge` gives one entry: a string key is kept, the i-th integer key becomes the start value plus the number of integer keys before it |
| Php.RenumberKeyBelow | src/BootstrapForm.php:216 | every renumbered integer key lies between the start value and the start value plus the number of integer keys |
| Php.AppendValue | src/BootstrapForm.php:216 | `array_merge($a, [$x])` is the renumbered array followed by `$x` under the next integer key, which exceeds every integer key before it; the values are the old ones followed by `$x` |
| ModelRoute.StoreOptions | src/BootstrapForm.php:218-225 | for a new model: the keys lose the route keys and gain `method` and the target; `method` is POST, the target holds the store route, every other option is kept |
| ModelRoute.ModelOptions | src/BootstrapForm.php:192-231 | `model` is always removed. With a URL: the route keys go, `method` defaults to GET, and every other option is kept. With neither store nor update: the options are the caller's without `model`. Otherwise: the route keys go, an existing model gets PUT with the update route plus its route key, a new one POST with the store route; the keys are exactly the caller's without the route keys, plus `method` and the chosen target, and no other option changes |
| ModelRoute.ExistingModelWithoutUpdate | src/BootstrapForm.php:210-217 | an existing model given only a store route still gets PUT, and its route is the route key alone |
| FieldOptions.WithNameAsId | src/BootstrapForm.php:315-316 | the caller's id is replaced by the field name; every other option is kept |
| FieldOptions.GetFieldOptions | src/BootstrapForm.php:920-931 | the class is `trim('form-control ' . class)`: `form-control` without a class, `form-control c` for a trimmed class c. A caller id is kept. Without one, the name becomes the id exactly when it is truthy. Other options are kept |
| FieldOptions.PrologueFixesId | src/BootstrapForm.php:926-928 | after the prologue the field's id is always its name |
| FieldOptions.GetFormGroupOptions | src/BootstrapForm.php:901-910 | the class is `form-group`, or `form-group <error class>` for a named field with an error, or `form-group ` for a named field without one; caller options override it |
| FieldOptions.FormGroupClassPrefix | src/BootstrapForm.php:901-910 | unless the caller sets a class, the group class starts with `form-group` |
| FieldOptions.GetLabelOptions | src/BootstrapForm.php:951-959 | the class is `control-label`, plus the left column class on a horizontal form, trimmed; caller options override it |
| FieldOptions.CallerClass | src/BootstrapForm.php:939-942 | the caller's `class` option when it is a string, the empty string when there is none |
| FieldOptions.GetLabelTitle | src/BootstrapForm.php:835-846 | null exactly for `false`; a truthy caption is kept; a null caption takes the translation when there is one; every other caption (null without translation, `0`, `""`, `[]`) gives the title-cased name with `_` turned into spaces, which holds no `_` |
| FieldOptions.AddonButtonAttributes | src/BootstrapForm.php:741-750 | `type` defaults to `button`; the class is `btn`, or the caller's class followed by ` btn`; the class is null only when the caller passes a null class |
| FieldOptions.AddonButtonIsBtn | src/BootstrapForm.php:743-747 | unless the caller passes a null class, the button's class ends with `btn` |
| FieldName.Segment | src/BootstrapForm.php:1106-1108 | a key becomes `.key` unless it is empty; the key "0" survives although `empty` considers it empty |
| FieldName.Flatten | src/BootstrapForm.php:1103-1110 | the result is never longer than the name; without any `]` the pattern never matches and the name comes back unchanged, stray `[` included; what it computes otherwise is stated by the lemmas below, against the reference definition |
| FieldName.FlattenRendered | src/BootstrapForm.php:1103-1110 | flattening `base[k1]...[kn]` gives `base` followed by `.ki` for every non-empty key |
| FieldName.FlattenNoBrackets | src/BootstrapForm.php:1103-1110 | a name without `[` is unchanged |
| FieldName.FlattenOnlyAddsDots | src/BootstrapForm.php:1103-1110 | every character of the result is a character of the name or a dot |
| FieldName.FlattenNested | src/BootstrapForm.php:1097-1110 | `base[a][b]` becomes `base.a.b` for non-empty keys, as the documented `foo[bar][baz]` becomes `foo.bar.baz` |
| FieldName.FlattenEmptyAndZeroKeys | src/BootstrapForm.php:1103-1110 | `base[]` becomes `base` and `base[0]` becomes `base.0` |
| Choices.Checkboxes | src/BootstrapForm.php:505-522 | every element gets the options with the name as id; one element per choice, in order, with the choice's key, its label title, and checked exactly when the key is loosely in the checked values cast to an array |
| Choices.Radios | src/BootstrapForm.php:583-599 | one element per choice, in order, checked exactly when the key is identical to the checked value; a null key is replaced by the label; with distinct keys at most one radio is checked |
| Choices.RadioCheckedImpliesCheckboxChecked | src/BootstrapForm.php:513 | a key a radio group checks is also checked by a checkbox group given that scalar value |
| Choices.NumericKeyAgainstRequestString | src/BootstrapForm.php:590 | a choice with integer key n is checked as a checkbox by the string "n" but never as a radio |
| Selectize.Switch | src/BootstrapForm.php:1365 | `true` exactly when the option is set and neither `false` nor `'false'`; this is how `create` is read |
| Selectize.SwitchAlwaysTruthy | src/BootstrapForm.php:1476 | both literals are truthy strings, so the `!$create` test never holds |
| Selectize.MultipleFlag | src/BootstrapForm.php:1366 | `'1'` unless `multiple` is switched on; the value itself when it is `ctype_digit`; `'null'` otherwise |
| Selectize.MultipleComparisonsAgree | src/BootstrapForm.php:1378 | `$multiple != 1` and `$multiple != '1'` agree on every value the flag takes; an absent or false option gives a single-item widget |
| Selectize.StringKeyed | src/BootstrapForm.php:1377 | the caller's `attributes` array as attributes: every string key is present, with the value of its last entry, and every attribute comes from an entry |
| Selectize.BaseAttributes | src/BootstrapForm.php:1377-1379 | a multi-item widget gets `multiple => 'required'`; every other caller attribute is kept, and a single-item widget keeps the caller's attributes unchanged, `multiple` included |
| Selectize.SeparateHidden | src/BootstrapForm.php:1596 | never with a caller id or for a select; always for another widget whose name holds a dot |
| Selectize.Element | src/BootstrapForm.php:1582-1617 | with a separate hidden element the widget takes the other name, which is also the hidden id, and the caller's or default id; otherwise it keeps the name and its id is the unbracketed name; every other attribute is kept |
| Selectize.PreloadAsWritten | src/BootstrapForm.php:1381 | `true` exactly when `preload` is set, is not `false`, and is not loosely equal to `'false'` |
| Selectize.Preload | src/BootstrapForm.php:1381 | `true` exactly when `preload` is set and neither `false` nor `'false'`; it differs from the as-written reading exactly on switched-on values loosely equal to `'false'` |
| Selectize.PreloadTrueIgnored | src/BootstrapForm.php:1381 | `'preload' => true` gives `false` as written and `true` when corrected |
| Selectize.FromParts | src/BootstrapForm.php:1349-1360 | without `from`, or with a `from` holding no dot, neither table nor field; otherwise the last two `.`-separated parts of `from`, each free of dots |
| Selectize.Table | src/BootstrapForm.php:1363 | the `table` option when set, else the table taken from `from` when it is truthy, else null |
| Selectize.Field | src/BootstrapForm.php:1364 | the `field` option when set, else the field taken from `from` when it is truthy, else `name` |
| Selectize.FromPath | src/BootstrapForm.php:1349-1364 | `from => 'p1.….table.field'`, without `table` and `field` options, yields that table and that field |
| Selectize.Key | src/BootstrapForm.php:1476 | the `key` option when set; else `id` when the name contains `_id`, the list is non-empty or the widget takes several items; else the field |
| Selectize.Display | src/BootstrapForm.php:1481-1484 | the `display` option when set; else the field for Ajax data or several items; else `value` |
| Selectize.JsOptionEntries | src/BootstrapForm.php:1367 | the entries of a `js_options` array, none for anything else |
| Selectize.AddJs | src/BootstrapForm.php:1467-1470 | the accumulated text is the `,\nfield: code` lines of all entries, in order |
| Selectize.JsCodeConcat | src/BootstrapForm.php:1467-1470 | the text of two runs of entries is the text of each, one after the other |
| Selectize.JsCodeEmpty | src/BootstrapForm.php:1467-1470 | nothing is added exactly when there are no entries |
| Selectize.Unbracket | src/BootstrapForm.php:1585 | same length as the name; `[` and `]` become `_`, every other character is kept |
| Selectize.DefaultId | src/BootstrapForm.php:1583-1587 | same length as the name; `[`, `]` and `.` become `_`, every other character is kept |
| Selectize.DefaultIdWithoutDots | tests/SelectizeFormTest.php:155 | for names without dots the default id is the id the browser test looks the widget up by |
| Selectize.Slash | src/BootstrapForm.php:1589 | an id without dots is its own selector; `SlashDot` gives the rest |
| Selectize.SlashDot | src/BootstrapForm.php:1589 | every dot is escaped as `\\.` in place, the characters around it kept |
| Selectize.WidgetName | src/BootstrapForm.php:1598-1599 | character by character the name with `[` and `]` made `_` and `.` made `-`, followed by `_selectize`; so it is ten characters longer and never equals the name |
| Selectize.WidgetAsWritten | src/BootstrapForm.php:1582-1617 | the selector is computed from the id before the non-hidden branch replaces it |
| Selectize.WidgetIds | src/BootstrapForm.php:1582-1617 | the selector addresses the id the widget is rendered with. A hidden element exists exactly under the source's condition; its id is the widget's other name, which the widget then takes along with the default id; otherwise the widget keeps the name and the unbracketed name as id. A multi-item widget gets `multiple => 'required'`; a single-item widget keeps the caller's own `multiple`, and the caller's other attributes are kept |
| Selectize.WidgetAsWrittenDiffersOnlyInSelector | src/BootstrapForm.php:1589 | as written and corrected agree on the name, attributes and hidden element |
| Selectize.CallerIdMissedAsWritten | src/BootstrapForm.php:1615 | a caller id on a select is replaced by the name, yet the script looks for the caller's id |
| Selectize.DottedSelectMissedAsWritten | src/BootstrapForm.php:1615 | a select named `a.b` is rendered with id `a.b` while the script looks for `a_b` |
| Selectize.WidgetType | src/BootstrapForm.php:1362 | the `type` option when set, else `select` |
| Selectize.Normalise | src/BootstrapForm.php:1344-1617 | the corrected normalisation: table, field, the three literals, key, display, the `js_options` text and the widget, each as the members above define them, with the corrected `preload` and a selector that addresses the rendered id |
| Selectize.NormaliseAsWritten | src/BootstrapForm.php:1344-1617 | the normalisation as the source writes it: the same settings as `Normalise` except `preload`, read with the inverted test, and the selector, taken from the id before it is overwritten |

## Left out

- The HTML the helpers return and every form builder and HTML builder call.
  `Open` returns the builder call instead; `Checkboxes` and `Radios` return the
  element data.
- The session's error bag (`getErrors`, `getFieldError`), the translator, the
  configuration repository and `Str::title`. These are inputs:
  - `hasError`, with the error class as `errorClass`;
  - a translation map;
  - a `Config` value;
  - the title-cased name.
- The table, model and route guessing in `sselectize` (`Schema`, `Request`,
  `Route`, `DB`, the inflector). It is framework I/O. The resolved URL is a
  parameter.
- The lookup of the selected value's text, and the value put in the widget.
  These need the database.
- The script text `sselectize`, `selectize` and the toggles emit, and the
  "script already loaded" flags kept in `$_SERVER`.
- `submit` and `button`. They read an undefined `$name`.
- `isAllowed` (always true) and the `Macroable` trait.
- Selectize.FromParts: a single-segment `from` reads an undefined variable in the source. It is modelled as null.
- Selectize.JsOptionEntries: a non-array `js_options` would make PHP warn. It is modelled as contributing no entries.
- Choices.Radios: the null-key substitution is stated for any choice, although PHP array keys are integers or non-numeric strings, so `radios` never hands it a null key. Keys that PHP cannot hold (null, booleans, numeric strings) are not excluded.
- Selectize.WidgetIds: the corrected selector is correct only for the jQuery lookup. The escaped id is also spliced into script variable names (`src/BootstrapForm.php:1642`, `1657`, `1699`), where a dotted id still gives invalid JavaScript; the script text is not modelled. Keeping the dot-free default id instead of overwriting it at line 1615 would serve both.
- Selectize.Normalise: the `attributes` option keeps only its string-keyed entries. Integer-keyed attributes are not modelled.
- Php.LooseEq: numeric strings are only an optional `-` followed by digits. Arrays and models are compared structurally. PHP also accepts blanks, signs, decimals and exponents, and compares arrays element by element.
- Option arrays are maps, so key order, which decides attribute order in the markup, is not modelled.
- The type names come from `src/Type.php`, which is not part of this model. They are taken to be the class names the wrappers force (`form-vertical`, `form-inline`, `form-horizontal`).

## Findings

| source | as written | input that shows it | evidently intended | confidence | as-written member | corrected member |
|---|---|---|---|---|---|---|
| src/BootstrapForm.php:1381 | `preload` is switched off when the value is loosely equal to `'false'` | `'preload' => true` (`true == 'false'` holds in PHP) gives `preload: false` | the strict `!== 'false'` test that `create` and `multiple` use, so `true` switches preloading on | not executed | Selectize.PreloadAsWritten | Selectize.Preload |
| src/BootstrapForm.php:1589 | the script's selector is computed before line 1615 replaces the id with the name | a select named `user.role`: the element gets id `user.role`, the script looks for `#user_role`. A select `color` with attributes id `picker`: the element gets id `color`, the script looks for `#picker` | the script addresses the element it enhances: the selector comes from the final id | not executed | Selectize.WidgetAsWritten | Selectize.WidgetIds |

The counterexamples are proved as `Selectize.PreloadTrueIgnored`,
`Selectize.CallerIdMissedAsWritten` and
`Selectize.DottedSelectMissedAsWritten`. `Selectize.Normalise` uses the
corrected `Preload` and `WidgetIds`; `Selectize.NormaliseAsWritten` is the
source's normalisation, which differs from it only in those two settings.
