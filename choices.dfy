/**
 * `checkboxes` and `radios`: one element per choice, in the order of the
 * choices, each checked or not. Checkboxes test membership loosely
 * (`in_array`), radios test identity (`===`). The markup of each element
 * comes from the form builder and is not modelled; an element is the
 * value, caption and checked flag the builder receives.
 */
module Choices {
  import opened Php
  import FieldOptions

  datatype ChoiceElement = ChoiceElement(value: Value, caption: Value, checked: bool)

  /** `in_array($value, (array) $checkedValues)` */
  predicate CheckboxChecked(value: Value, checkedValues: Value) {
    InArray(value, ToArray(checkedValues))
  }

  /** `$value === $checkedValue` */
  predicate RadioChecked(value: Value, checkedValue: Value) {
    value == checkedValue
  }

  /**
   * `checkboxes($name, $label, $choices, $checkedValues, $inline, $options)`:
   * the options every element is rendered with and the elements, in order.
   */
  method Checkboxes(name: string, choices: seq<(Value, Value)>, checkedValues: Value, options: Options,
                    translations: map<string, string>, titledName: string)
    returns (fieldOptions: Options, elements: seq<ChoiceElement>)
    ensures fieldOptions == FieldOptions.WithNameAsId(options, name)
    ensures |elements| == |choices|
    ensures forall k :: 0 <= k < |choices| ==>
              elements[k] == ChoiceElement(
                choices[k].0,
                FieldOptions.GetLabelTitle(choices[k].1, name, translations, titledName),
                CheckboxChecked(choices[k].0, checkedValues))
  {
    fieldOptions := FieldOptions.WithNameAsId(options, name);
    elements := [];
    var i := 0;
    while i < |choices|
      invariant 0 <= i <= |choices|
      invariant |elements| == i
      invariant forall k :: 0 <= k < i ==>
                  elements[k] == ChoiceElement(
                    choices[k].0,
                    FieldOptions.GetLabelTitle(choices[k].1, name, translations, titledName),
                    CheckboxChecked(choices[k].0, checkedValues))
    {
      var (value, caption) := choices[i];
      var checked := InArray(value, ToArray(checkedValues));
      elements := elements + [ChoiceElement(value, FieldOptions.GetLabelTitle(caption, name, translations, titledName), checked)];
      i := i + 1;
    }
  }

  /**
   * `radios($name, $label, $choices, $checkedValue, $inline, $options)`.
   * A null choice value would be replaced by its caption (`radioElement`).
   * The choices are the entries of a PHP array, whose keys are integers or
   * non-numeric strings, so that substitution cannot arise from `radios`
   * itself; the model states it for any value and does not restrict keys.
   */
  method Radios(name: string, choices: seq<(Value, Value)>, checkedValue: Value, options: Options,
                translations: map<string, string>, titledName: string)
    returns (fieldOptions: Options, elements: seq<ChoiceElement>)
    ensures fieldOptions == FieldOptions.WithNameAsId(options, name)
    ensures |elements| == |choices|
    ensures forall k :: 0 <= k < |choices| ==>
              var caption := FieldOptions.GetLabelTitle(choices[k].1, name, translations, titledName);
              elements[k] == ChoiceElement(
                if choices[k].0 == Null then caption else choices[k].0,
                caption,
                RadioChecked(choices[k].0, checkedValue))
    // with distinct choice values (array keys are), at most one radio is checked
    ensures (forall k, l :: 0 <= k < l < |choices| ==> choices[k].0 != choices[l].0) ==>
              forall k, l :: 0 <= k < l < |elements| && elements[k].checked ==> !elements[l].checked
  {
    fieldOptions := FieldOptions.WithNameAsId(options, name);
    elements := [];
    var i := 0;
    while i < |choices|
      invariant 0 <= i <= |choices|
      invariant |elements| == i
      invariant forall k :: 0 <= k < i ==>
                  var caption := FieldOptions.GetLabelTitle(choices[k].1, name, translations, titledName);
                  elements[k] == ChoiceElement(
                    if choices[k].0 == Null then caption else choices[k].0,
                    caption,
                    RadioChecked(choices[k].0, checkedValue))
    {
      var (value, caption) := choices[i];
      var checked := value == checkedValue;
      var title := FieldOptions.GetLabelTitle(caption, name, translations, titledName);
      var elementValue := if value == Null then title else value;
      elements := elements + [ChoiceElement(elementValue, title, checked)];
      i := i + 1;
    }
  }

  /** A value a radio group checks would also be checked in a checkbox group given that value. */
  lemma RadioCheckedImpliesCheckboxChecked(value: Value, checkedValue: Value)
    requires RadioChecked(value, checkedValue) && checkedValue != Null && !checkedValue.Arr?
    ensures CheckboxChecked(value, checkedValue)
  {
    LooseEqReflexive(value);
    assert ToArray(checkedValue)[0].1 == value;
  }

  /**
   * Numeric array keys are integers, so a choice keyed `n` is checked as a
   * checkbox by the request string "n" but never as a radio.
   */
  lemma NumericKeyAgainstRequestString(n: nat)
    ensures CheckboxChecked(Int(n), Str(NatToString(n)))
    ensures !RadioChecked(Int(n), Str(NatToString(n)))
  {
    NumberEqualsItsString(n);
    assert ToArray(Str(NatToString(n)))[0].1 == Str(NatToString(n));
  }
}
