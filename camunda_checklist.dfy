/**
 * The checklist of src/components/forms/camunda/CamundaChecklist.tsx: a
 * list of checkboxes over the resolved options whose selection is a
 * string array with each value at most once.
 */
module CamundaChecklist {
  import opened Wrappers
  import opened JsValues
  import opened Seqs
  import opened ChoiceOptions
  import DynamicForm

  /** `handleCheckboxChange`: checking appends a value that is not there yet, unchecking removes every copy. */
  function CheckboxChange(current: seq<string>, optionValue: string, checked: bool): (r: seq<string>)
    ensures IsChecked(r, optionValue) == checked
    ensures forall x :: x != optionValue ==> (x in r <==> x in current)
    ensures checked ==> (optionValue in current ==> r == current) && (optionValue !in current ==> r == current + [optionValue])
    ensures !checked ==> IsSubsequence(r, current) && forall x :: x != optionValue ==> multiset(r)[x] == multiset(current)[x]
    ensures Distinct(current) ==> Distinct(r)
  {
    if checked then AddIfAbsent(current, optionValue)
    else RemoveAll(current, optionValue)
  }

  /** `isChecked`. */
  predicate IsChecked(current: seq<string>, optionValue: string)
  {
    optionValue in current
  }

  /** Checking an unchecked box and unchecking it again restores the selection; checking twice is checking once. */
  lemma CheckThenUncheck(current: seq<string>, v: string)
    ensures v !in current ==> CheckboxChange(CheckboxChange(current, v, true), v, false) == current
    ensures CheckboxChange(CheckboxChange(current, v, true), v, true) == CheckboxChange(current, v, true)
    ensures CheckboxChange(CheckboxChange(current, v, false), v, false) == CheckboxChange(current, v, false)
  {
    if v !in current {
      AddThenRemove(current, v);
    }
  }

  /** The "at least one" warning: required and nothing selected. */
  predicate ShowsRequiredWarning(required: bool, current: seq<string>)
  {
    required && |current| == 0
  }

  /** Unchecking the last selected value of a required checklist brings the warning up. */
  lemma UncheckLastShowsWarning(v: string)
    ensures ShowsRequiredWarning(true, CheckboxChange([v], v, false))
    ensures !ShowsRequiredWarning(true, CheckboxChange([], v, true))
  {
  }

  class ChecklistState {
    var options: seq<ChoiceOption>

    constructor ()
      ensures options == []
    {
      options := [];
    }

    /** The option-resolving effect; a throw leaves the options as they were. */
    method ResolveEffect(src: OptionSource, formData: seq<Field>, compiles: string -> bool, evalJs: string -> Option<Value>)
      modifies this
      ensures options == ResolveOptions(src, formData, compiles, evalJs).UnwrapOr(old(options))
    {
      var r := Resolve(src, formData, compiles, evalJs);
      if r.Some? {
        options := r.value;
      }
    }

    /** A checkbox toggled: the new selection goes under `camundaKey || id`. */
    method HandleCheckboxChange(form: DynamicForm.FormSession, id: string, camundaKey: Option<string>,
                                current: seq<string>, optionValue: string, checked: bool)
      modifies form
      ensures form.formData == Set(old(form.formData), DynamicForm.InputKey(camundaKey, id),
                                   StrArr(CheckboxChange(current, optionValue, checked)))
      ensures form.components == old(form.components) && form.uploading == old(form.uploading)
    {
      var newValues: seq<string>;
      if checked {
        newValues := AddIfAbsent(current, optionValue);
      } else {
        newValues := RemoveAll(current, optionValue);
      }
      form.HandleInputChange(DynamicForm.InputKey(camundaKey, id), StrArr(newValues));
    }
  }
}
