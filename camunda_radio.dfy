/**
 * The radio group of src/components/forms/camunda/CamundaRadio.tsx: one
 * value chosen among the resolved options, a message when there are
 * none, and a warning while a required group has no value.
 */
module CamundaRadio {
  import opened Wrappers
  import opened JsValues
  import opened ChoiceOptions
  import DynamicForm

  datatype RadioView = NoOptionsMessage | Group(items: seq<ChoiceOption>)

  function View(options: seq<ChoiceOption>): (v: RadioView)
    ensures v.NoOptionsMessage? <==> |options| == 0
    ensures v.Group? ==> v.items == options
  {
    if |options| == 0 then NoOptionsMessage else Group(options)
  }

  /** `required && !value`. */
  predicate ShowsRequiredWarning(required: bool, value: string)
  {
    required && value == ""
  }

  class RadioState {
    var options: seq<ChoiceOption>

    constructor ()
      ensures options == []
    {
      options := [];
    }

    /** The option-resolving effect; a throw leaves the options as they were. */
    method ResolveEffect(src: OptionSource, formData: seq<Field>, compiles: string -> bool, evalJs: string -> Option<Value>)
      modifies this
      ensures options == ResolveOptions(src, formData, compiles, evalJs).UnwrapOr(old(options))
    {
      var r := Resolve(src, formData, compiles, evalJs);
      if r.Some? {
        options := r.value;
      }
    }

    /** `handleValueChange`: exactly the chosen value goes under `camundaKey || id`. */
    method HandleValueChange(form: DynamicForm.FormSession, id: string, camundaKey: Option<string>, selected: string)
      modifies form
      ensures form.formData == Set(old(form.formData), DynamicForm.InputKey(camundaKey, id), Str(selected))
      ensures Get(form.formData, DynamicForm.InputKey(camundaKey, id)) == Str(selected)
      ensures form.components == old(form.components) && form.uploading == old(form.uploading)
    {
      form.HandleInputChange(DynamicForm.InputKey(camundaKey, id), Str(selected));
    }
  }
}
