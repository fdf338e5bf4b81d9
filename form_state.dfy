/**
 * The facade's form configuration: the form type and the column classes of
 * a horizontal form, which fall back to the configuration when unset, set by
 * `open` and its `vertical`/`inline`/`horizontal` wrappers and partly reset
 * by `close`. The form builder is not modelled; `open` returns the call it
 * would make on it.
 */
module FormState {
  import opened Php
  import ModelRoute

  /** The class names of the three form types (`Type::VERTICAL`, ...). */
  const Vertical := "form-vertical"
  const Inline := "form-inline"
  const Horizontal := "form-horizontal"

  /** The options `open` moves into the facade's state instead of passing them on. */
  const ColumnKeys: set<string> := {"left_column_class", "left_column_offset_class", "right_column_class"}

  /** The `bootstrap_form.*` configuration entries the facade reads. */
  datatype Config = Config(
    formType: Value,
    leftColumnClass: Value,
    leftColumnOffsetClass: Value,
    rightColumnClass: Value,
    iconPrefix: Value,
    errorClass: Value,
    errorBag: Value)

  /** The facade's mutable fields, as one value. */
  datatype State = State(
    formType: Value,
    leftColumnClass: Value,
    leftColumnOffsetClass: Value,
    rightColumnClass: Value,
    iconPrefix: Value,
    errorClass: Value,
    errorBag: Value,
    formName: Value)

  /** What `open` asks the form builder for: a plain form, or a form bound to a model. */
  datatype OpenCall = FormOpen(options: Options) | FormModel(model: Value, options: Options)

  /** The options `open` has prepared before it branches on `model`. */
  function OpenedOptions(options: Options, currentType: Value): (r: Options)
    ensures r.Keys == options.Keys + {"role", "class"} - ColumnKeys
    ensures r["role"] == Str("form")
    ensures r["class"] == if "class" in options then options["class"] else currentType
    ensures forall k :: k in options && k !in ColumnKeys && k != "role" && k != "class" ==> r[k] == options[k]
  {
    var withRole := options["role" := Str("form")];
    var withClass := if "class" in withRole then withRole else withRole["class" := currentType];
    withClass - ColumnKeys
  }

  /** The builder call `open($options)` makes when the form type is currently `currentType`. */
  function OpenCallFor(options: Options, currentType: Value): (r: OpenCall)
    ensures r.FormModel? <==> "model" in options
    ensures r.FormModel? ==> r.model == options["model"]
    ensures r.FormModel? ==> r.options == ModelRoute.ModelOptions(OpenedOptions(options, currentType))
    ensures r.FormOpen? ==> r.options == OpenedOptions(options, currentType)
    ensures r.options.Keys !! ColumnKeys
    ensures "role" in r.options && r.options["role"] == Str("form")
    ensures "class" in r.options
    ensures r.options["class"] == if "class" in options then options["class"] else currentType
  {
    var prepared := OpenedOptions(options, currentType);
    assert "model" in prepared <==> "model" in options;
    if "model" in prepared then
      BoundOptionsKeepForm(prepared);
      FormModel(prepared["model"], ModelRoute.ModelOptions(prepared))
    else FormOpen(prepared)
  }

  /** Binding a model only touches the route keys and `method`, so role, class and column keys stay as prepared. */
  lemma BoundOptionsKeepForm(prepared: Options)
    requires "model" in prepared && "role" in prepared && "class" in prepared
    requires prepared.Keys !! ColumnKeys
    ensures var bound := ModelRoute.ModelOptions(prepared);
            && bound.Keys !! ColumnKeys
            && "role" in bound && bound["role"] == prepared["role"]
            && "class" in bound && bound["class"] == prepared["class"]
  {
    var bound := ModelRoute.ModelOptions(prepared);
    forall k | k in ColumnKeys
      ensures k !in bound
    {
      assert k !in prepared && k != "method" && k != "route" && k != "action";
    }
    assert "role" !in ModelRoute.RouteKeys && "class" !in ModelRoute.RouteKeys;
  }

  /**
   * The facade's state after `open($options)`: the form name when set, each
   * column class that is present, and the error bag only on the plain path.
   */
  function AfterOpen(s: State, options: Options): (r: State)
    ensures r.formType == s.formType && r.iconPrefix == s.iconPrefix && r.errorClass == s.errorClass
    ensures r.formName == if IsSet(options, "form_name") then options["form_name"] else s.formName
    ensures forall k :: k in ColumnKeys && k !in options ==> ColumnField(r, k) == ColumnField(s, k)
    ensures forall k :: k in ColumnKeys && k in options ==> ColumnField(r, k) == options[k]
    ensures "model" in options || "error_bag" !in options ==> r.errorBag == s.errorBag
    ensures "model" !in options && "error_bag" in options ==> r.errorBag == options["error_bag"]
  {
    s.(formName := if IsSet(options, "form_name") then options["form_name"] else s.formName,
       leftColumnClass := if "left_column_class" in options then options["left_column_class"] else s.leftColumnClass,
       leftColumnOffsetClass :=
         if "left_column_offset_class" in options then options["left_column_offset_class"] else s.leftColumnOffsetClass,
       rightColumnClass := if "right_column_class" in options then options["right_column_class"] else s.rightColumnClass,
       errorBag := if "model" !in options && "error_bag" in options then options["error_bag"] else s.errorBag)
  }

  /** The state field each column option is stored in. */
  function ColumnField(s: State, key: string): Value
    requires key in ColumnKeys
  {
    if key == "left_column_class" then s.leftColumnClass
    else if key == "left_column_offset_class" then s.leftColumnOffsetClass
    else s.rightColumnClass
  }

  /** `AfterOpen` field by field, for the proof of `open`. */
  lemma AfterOpenFields(s: State, options: Options)
    ensures AfterOpen(s, options) ==
            s.(formName := if IsSet(options, "form_name") then options["form_name"] else s.formName,
               leftColumnClass := if "left_column_class" in options then options["left_column_class"] else s.leftColumnClass,
               leftColumnOffsetClass :=
                 if "left_column_offset_class" in options then options["left_column_offset_class"] else s.leftColumnOffsetClass,
               rightColumnClass := if "right_column_class" in options then options["right_column_class"] else s.rightColumnClass,
               errorBag := if "model" !in options && "error_bag" in options then options["error_bag"] else s.errorBag)
  {
  }

  class BootstrapForm {
    const config: Config
    var formType: Value
    var leftColumnClass: Value
    var leftColumnOffsetClass: Value
    var rightColumnClass: Value
    var iconPrefix: Value
    var errorClass: Value
    var errorBag: Value
    var formName: Value

    function Snapshot(): State
      reads this
    {
      State(formType, leftColumnClass, leftColumnOffsetClass, rightColumnClass,
            iconPrefix, errorClass, errorBag, formName)
    }

    constructor(config: Config)
      ensures this.config == config
      ensures Snapshot() == State(Null, Null, Null, Null, Null, Null, Null, Null)
    {
      this.config := config;
      formType, leftColumnClass, leftColumnOffsetClass, rightColumnClass := Null, Null, Null, Null;
      iconPrefix, errorClass, errorBag, formName := Null, Null, Null, Null;
    }

    /** `getType()`: the type set on the facade, else the configured one. */
    function GetType(): (r: Value)
      reads this
      ensures formType != Null ==> r == formType
      ensures formType == Null ==> r == config.formType
    {
      Coalesce(formType, config.formType)
    }

    /** `isHorizontal()` */
    predicate IsHorizontal()
      reads this
      ensures formType != Null ==> (IsHorizontal() <==> formType == Str(Horizontal))
      ensures formType == Null ==> (IsHorizontal() <==> config.formType == Str(Horizontal))
    {
      GetType() == Str(Horizontal)
    }

    /** `getLeftColumnClass()`: the field unless it is null or empty, else the configuration. */
    function GetLeftColumnClass(): (r: Value)
      reads this
      ensures Truthy(leftColumnClass) ==> r == leftColumnClass
      ensures !Truthy(leftColumnClass) ==> r == config.leftColumnClass
    {
      Elvis(leftColumnClass, config.leftColumnClass)
    }

    /** `getLeftColumnOffsetClass()` */
    function GetLeftColumnOffsetClass(): (r: Value)
      reads this
      ensures Truthy(leftColumnOffsetClass) ==> r == leftColumnOffsetClass
      ensures !Truthy(leftColumnOffsetClass) ==> r == config.leftColumnOffsetClass
    {
      Elvis(leftColumnOffsetClass, config.leftColumnOffsetClass)
    }

    /** `getRightColumnClass()` */
    function GetRightColumnClass(): (r: Value)
      reads this
      ensures Truthy(rightColumnClass) ==> r == rightColumnClass
      ensures !Truthy(rightColumnClass) ==> r == config.rightColumnClass
    {
      Elvis(rightColumnClass, config.rightColumnClass)
    }

    /** `getIconPrefix()`; no method of the facade sets the field. */
    function GetIconPrefix(): (r: Value)
      reads this
      ensures Truthy(iconPrefix) ==> r == iconPrefix
      ensures !Truthy(iconPrefix) ==> r == config.iconPrefix
    {
      Elvis(iconPrefix, config.iconPrefix)
    }

    /** `getErrorClass()`; no method of the facade sets the field. */
    function GetErrorClass(): (r: Value)
      reads this
      ensures Truthy(errorClass) ==> r == errorClass
      ensures !Truthy(errorClass) ==> r == config.errorClass
    {
      Elvis(errorClass, config.errorClass)
    }

    /** `getErrorBag()` */
    function GetErrorBag(): (r: Value)
      reads this
      ensures Truthy(errorBag) ==> r == errorBag
      ensures !Truthy(errorBag) ==> r == config.errorBag
    {
      Elvis(errorBag, config.errorBag)
    }

    method SetType(t: Value)
      modifies this
      ensures Snapshot() == old(Snapshot()).(formType := t)
    {
      formType := t;
    }

    method SetLeftColumnClass(c: Value)
      modifies this
      ensures Snapshot() == old(Snapshot()).(leftColumnClass := c)
    {
      leftColumnClass := c;
    }

    method SetLeftColumnOffsetClass(c: Value)
      modifies this
      ensures Snapshot() == old(Snapshot()).(leftColumnOffsetClass := c)
    {
      leftColumnOffsetClass := c;
    }

    method SetRightColumnClass(c: Value)
      modifies this
      ensures Snapshot() == old(Snapshot()).(rightColumnClass := c)
    {
      rightColumnClass := c;
    }

    method SetErrorBag(bag: Value)
      modifies this
      ensures Snapshot() == old(Snapshot()).(errorBag := bag)
    {
      errorBag := bag;
    }

    /**
     * `open($options)`: records the form name and the column classes found
     * in the options, takes the error bag on the plain path only, and returns
     * the builder call.
     */
    method Open(options: Options) returns (call: OpenCall)
      modifies this
      ensures call == OpenCallFor(options, old(GetType()))
      ensures Snapshot() == AfterOpen(old(Snapshot()), options)
    {
      ghost var before, currentType := Snapshot(), GetType();
      if IsSet(options, "form_name") {
        formName := options["form_name"];
      }
      var opts := options["role" := Str("form")];
      if "class" !in opts {
        opts := opts["class" := GetType()];
      }
      TakeColumns(opts);
      opts := opts - ColumnKeys;
      assert opts == OpenedOptions(options, currentType);
      AfterOpenFields(before, options);
      if "model" in opts {
        return FormModel(opts["model"], ModelRoute.ModelOptions(opts));
      }
      if "error_bag" in opts {
        SetErrorBag(opts["error_bag"]);
      }
      call := FormOpen(opts);
    }

    /** The column classes `open` finds among the options, each through its setter. */
    method TakeColumns(options: Options)
      modifies this
      ensures Snapshot() == old(Snapshot()).(
                leftColumnClass := if "left_column_class" in options then options["left_column_class"] else old(leftColumnClass),
                leftColumnOffsetClass :=
                  if "left_column_offset_class" in options then options["left_column_offset_class"] else old(leftColumnOffsetClass),
                rightColumnClass := if "right_column_class" in options then options["right_column_class"] else old(rightColumnClass))
    {
      if "left_column_class" in options {
        SetLeftColumnClass(options["left_column_class"]);
      }
      if "left_column_offset_class" in options {
        SetLeftColumnOffsetClass(options["left_column_offset_class"]);
      }
      if "right_column_class" in options {
        SetRightColumnClass(options["right_column_class"]);
      }
    }

    /** `close()`: forgets the type and the left and right column classes, nothing else. */
    method Close()
      modifies this
      ensures Snapshot() == old(Snapshot()).(formType := Null, leftColumnClass := Null, rightColumnClass := Null)
      ensures GetType() == config.formType
      ensures GetLeftColumnClass() == config.leftColumnClass
      ensures GetRightColumnClass() == config.rightColumnClass
      ensures GetLeftColumnOffsetClass() == old(GetLeftColumnOffsetClass())
      ensures GetErrorBag() == old(GetErrorBag())
    {
      formType := Null;
      leftColumnClass, rightColumnClass := Null, Null;
    }

    /** `vertical($options)`, `inline($options)` and `horizontal($options)` for the class name `typeClass`. */
    method OpenTyped(typeClass: string, options: Options) returns (call: OpenCall)
      modifies this
      ensures formType == Str(typeClass)
      ensures call == OpenCallFor(options["class" := Str(typeClass)], Str(typeClass))
      ensures call.options["class"] == Str(typeClass)
      ensures Snapshot() == AfterOpen(old(Snapshot()), options).(formType := Str(typeClass))
    {
      SetType(Str(typeClass));
      call := Open(options["class" := Str(typeClass)]);
    }

    /** `vertical($options)` */
    method OpenVertical(options: Options) returns (call: OpenCall)
      modifies this
      ensures formType == Str(Vertical) && !IsHorizontal()
      ensures call == OpenCallFor(options["class" := Str(Vertical)], Str(Vertical))
      ensures call.options["class"] == Str(Vertical)
      ensures Snapshot() == AfterOpen(old(Snapshot()), options).(formType := Str(Vertical))
    {
      call := OpenTyped(Vertical, options);
    }

    /** `inline($options)` */
    method OpenInline(options: Options) returns (call: OpenCall)
      modifies this
      ensures formType == Str(Inline) && !IsHorizontal()
      ensures call == OpenCallFor(options["class" := Str(Inline)], Str(Inline))
      ensures call.options["class"] == Str(Inline)
      ensures Snapshot() == AfterOpen(old(Snapshot()), options).(formType := Str(Inline))
    {
      call := OpenTyped(Inline, options);
    }

    /** `horizontal($options)` */
    method OpenHorizontal(options: Options) returns (call: OpenCall)
      modifies this
      ensures formType == Str(Horizontal) && IsHorizontal()
      ensures call == OpenCallFor(options["class" := Str(Horizontal)], Str(Horizontal))
      ensures call.options["class"] == Str(Horizontal)
      ensures Snapshot() == AfterOpen(old(Snapshot()), options).(formType := Str(Horizontal))
      ensures Truthy(Get(options, "left_column_class")) ==> GetLeftColumnClass() == options["left_column_class"]
      ensures Truthy(Get(options, "right_column_class")) ==> GetRightColumnClass() == options["right_column_class"]
    {
      call := OpenTyped(Horizontal, options);
    }
  }
}
