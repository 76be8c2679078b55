/**
 * The tag list of src/components/forms/camunda/CamundaTaglist.tsx: the
 * chosen values shown as tags, and a drop-down offering the options not
 * chosen yet.
 */
module CamundaTaglist {
  import opened Wrappers
  import opened JsValues
  import opened Seqs
  import opened ChoiceOptions
  import DynamicForm

  /** `availableOptions`: the options whose value is not selected, in their order. */
  function AvailableOptions(options: seq<ChoiceOption>, selected: seq<string>): (r: seq<ChoiceOption>)
    ensures forall o :: o in r <==> o in options && o.value !in selected
    ensures IsSubsequence(r, options)
    ensures forall o :: multiset(r)[o] == if o.value !in selected then multiset(options)[o] else 0
  {
    FilterCounts(options, (o: ChoiceOption) => o.value !in selected);
    Filter(options, (o: ChoiceOption) => o.value !in selected)
  }

  /** The selection after `handleSelect`: the value appended when absent. */
  function Selected(selected: seq<string>, optionValue: string): (r: seq<string>)
    ensures optionValue in r && (optionValue in selected ==> r == selected)
    ensures optionValue !in selected ==> r == selected + [optionValue]
    ensures Distinct(selected) ==> Distinct(r)
  {
    AddIfAbsent(selected, optionValue)
  }

  /** The selection after `handleUnselect`: every copy of the tag removed, the rest in order. */
  function Unselected(selected: seq<string>, tag: string): (r: seq<string>)
    ensures tag !in r && IsSubsequence(r, selected)
    ensures forall x :: x != tag ==> (x in r <==> x in selected)
    ensures forall x :: x != tag ==> multiset(r)[x] == multiset(selected)[x]
  {
    RemoveAll(selected, tag)
  }

  /** Selecting takes an option off the drop-down; unselecting puts every option with that value back. */
  lemma SelectAndUnselectMoveOptions(options: seq<ChoiceOption>, selected: seq<string>, v: string)
    ensures forall o :: o in AvailableOptions(options, Selected(selected, v)) ==> o.value != v
    ensures forall o :: o in options && o.value == v ==> o in AvailableOptions(options, Unselected(selected, v))
    ensures forall o :: o in AvailableOptions(options, selected) && o.value != v ==>
      o in AvailableOptions(options, Selected(selected, v))
  {
  }

  /** Selecting an absent tag and unselecting it gives the selection back. */
  lemma SelectThenUnselect(selected: seq<string>, v: string)
    requires v !in selected
    ensures Unselected(Selected(selected, v), v) == selected
  {
    AddThenRemove(selected, v);
  }

  /** `getTagLabel`: the first matching option's label, or the tag itself. */
  function TagLabel(options: seq<ChoiceOption>, tag: string): (r: string)
    ensures (forall j :: 0 <= j < |options| ==> options[j].value != tag) ==> r == tag
    ensures (exists j :: 0 <= j < |options| && options[j].value == tag) ==>
      exists j :: 0 <= j < |options| && options[j].value == tag && r == options[j].caption
        && forall i :: 0 <= i < j ==> options[i].value != tag
  {
    CaptionOr(options, tag, tag)
  }

  /** The drop-down shows while the input has focus and something is left to choose. */
  predicate ShowsDropDown(open: bool, options: seq<ChoiceOption>, selected: seq<string>)
  {
    open && |AvailableOptions(options, selected)| > 0
  }

  /** With every option selected the drop-down stays closed. */
  lemma AllSelectedHidesDropDown(options: seq<ChoiceOption>, selected: seq<string>, open: bool)
    requires forall j :: 0 <= j < |options| ==> options[j].value in selected
    ensures !ShowsDropDown(open, options, selected)
  {
  }

  /** `required && value.length === 0`. */
  predicate ShowsRequiredWarning(required: bool, selected: seq<string>)
  {
    required && |selected| == 0
  }

  /** The component's own state: the resolved options, the typed text and whether the list is open. */
  class TaglistState {
    var options: seq<ChoiceOption>
    var inputValue: string
    var open: bool

    constructor ()
      ensures options == [] && inputValue == "" && !open
    {
      options := [];
      inputValue := "";
      open := false;
    }

    /** The option-resolving effect; a throw leaves the options as they were. */
    method ResolveEffect(src: OptionSource, formData: seq<Field>, compiles: string -> bool, evalJs: string -> Option<Value>)
      modifies this
      ensures options == ResolveOptions(src, formData, compiles, evalJs).UnwrapOr(old(options))
      ensures inputValue == old(inputValue) && open == old(open)
    {
      var r := Resolve(src, formData, compiles, evalJs);
      if r.Some? {
        options := r.value;
      }
    }

    /**
     * `handleSelect`: an absent value is appended through `onChange`, a
     * present one writes nothing; either way the text is cleared and the
     * list closes.
     */
    method HandleSelect(form: DynamicForm.FormSession, id: string, camundaKey: Option<string>,
                        selected: seq<string>, optionValue: string)
      modifies this, form
      ensures form.formData == if optionValue in selected then old(form.formData)
        else Set(old(form.formData), DynamicForm.InputKey(camundaKey, id), StrArr(Selected(selected, optionValue)))
      ensures inputValue == "" && !open && options == old(options)
      ensures form.components == old(form.components) && form.uploading == old(form.uploading)
    {
      if optionValue !in selected {
        form.HandleInputChange(DynamicForm.InputKey(camundaKey, id), StrArr(selected + [optionValue]));
      }
      inputValue := "";
      open := false;
    }

    /** `handleUnselect`. */
    method HandleUnselect(form: DynamicForm.FormSession, id: string, camundaKey: Option<string>,
                          selected: seq<string>, tag: string)
      modifies form
      ensures form.formData == Set(old(form.formData), DynamicForm.InputKey(camundaKey, id), StrArr(Unselected(selected, tag)))
      ensures form.components == old(form.components) && form.uploading == old(form.uploading)
    {
      form.HandleInputChange(DynamicForm.InputKey(camundaKey, id), StrArr(RemoveAll(selected, tag)));
    }

    method SetInputValue(text: string)
      modifies this
      ensures inputValue == text && options == old(options) && open == old(open)
    {
      inputValue := text;
    }

    /** Focus opens the list, blur closes it. */
    method SetOpen(isOpen: bool)
      modifies this
      ensures open == isOpen && options == old(options) && inputValue == old(inputValue)
    {
      open := isOpen;
    }
  }
}
