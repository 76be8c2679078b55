/**
 * The select component of src/components/forms/camunda/CamundaSelect.tsx:
 * its shown value with the default as fallback, the effect that stores
 * the default once it is among the options, the search filter of the
 * menu and the label shown for the current value.
 */
module CamundaSelect {
  import opened Wrappers
  import opened Strings
  import opened JsValues
  import opened Seqs
  import opened ChoiceOptions
  import DynamicForm

  /** `value || defaultValue || ""`. */
  function CurrentValue(value: string, defaultValue: Option<string>): (r: string)
    ensures value != "" ==> r == value
    ensures value == "" && defaultValue.Some? ==> r == defaultValue.value
    ensures r == "" <==> value == "" && (defaultValue.None? || defaultValue.value == "")
  {
    if value != "" then value else DynamicForm.StringOr(defaultValue, "")
  }

  /**
   * The default-value effect: the default is written only when it is set,
   * no value is, and some option carries it as its value.
   */
  function DefaultToApply(defaultValue: Option<string>, value: string, options: seq<ChoiceOption>): (r: Option<string>)
    ensures r.Some? <==> defaultValue.Some? && defaultValue.value != "" && value == ""
                         && exists j :: 0 <= j < |options| && options[j].value == defaultValue.value
    ensures r.Some? ==> r == defaultValue
  {
    if defaultValue.Some? && defaultValue.value != "" && value == "" && |options| > 0
       && FindValue(options, defaultValue.value).Some?
    then defaultValue
    else None
  }

  /** Once the default is stored, the effect asks for nothing more; and it never overrides a chosen value. */
  lemma DefaultAppliedOnce(defaultValue: Option<string>, value: string, options: seq<ChoiceOption>)
    ensures DefaultToApply(defaultValue, value, options).Some? ==>
      DefaultToApply(defaultValue, DefaultToApply(defaultValue, value, options).value, options).None?
    ensures value != "" ==> DefaultToApply(defaultValue, value, options).None?
  {
  }

  /** The search term occurs, ignoring case, in the option's label or value. */
  predicate SearchMatches(o: ChoiceOption, term: string)
  {
    ContainsIgnoringCase(o.caption, term) || ContainsIgnoringCase(o.value, term)
  }

  /** `filteredOptions`: the matching options in their order while searching, all of them otherwise. */
  function FilteredOptions(options: seq<ChoiceOption>, searchable: bool, term: string): (r: seq<ChoiceOption>)
    ensures !searchable || term == "" ==> r == options
    ensures forall o :: o in r <==> o in options && (!searchable || term == "" || SearchMatches(o, term))
    ensures IsSubsequence(r, options)
  {
    if searchable && term != "" then Filter(options, (o: ChoiceOption) => SearchMatches(o, term))
    else
      IsSubsequenceReflexive(options);
      options
  }

  /** `getSelectedLabel`: the label of the first option whose value is the current one, else "". */
  function SelectedLabel(options: seq<ChoiceOption>, currentValue: string): (r: string)
    ensures (forall j :: 0 <= j < |options| ==> options[j].value != currentValue) ==> r == ""
    ensures (exists j :: 0 <= j < |options| && options[j].value == currentValue) ==>
      exists j :: 0 <= j < |options| && options[j].value == currentValue && r == options[j].caption
        && forall i :: 0 <= i < j ==> options[i].value != currentValue
  {
    CaptionOr(options, currentValue, "")
  }

  /** What the component shows in place of the select and inside its menu. */
  datatype SelectView = NoOptionsAvailable | Menu(items: seq<ChoiceOption>) | NoResultsFound | NoOptionsInMenu

  function View(options: seq<ChoiceOption>, searchable: bool, term: string): (v: SelectView)
    ensures v.NoOptionsAvailable? <==> |options| == 0
    ensures v.Menu? ==> |v.items| > 0 && v.items == FilteredOptions(options, searchable, term)
    ensures v.NoResultsFound? <==>
      |options| > 0 && searchable && term != "" && forall o :: o in options ==> !SearchMatches(o, term)
    ensures !v.NoOptionsInMenu?
  {
    if |options| == 0 then NoOptionsAvailable
    else
      var shown := FilteredOptions(options, searchable, term);
      if |shown| == 0 then
        if searchable && term != "" then NoResultsFound
        else
          assert false;
          NoOptionsInMenu
      else
        assert shown[0] in shown;
        Menu(shown)
  }

  /** The component's own state: the resolved options, the search text and whether the menu is open. */
  class SelectState {
    var options: seq<ChoiceOption>
    var searchTerm: string
    var isOpen: bool

    constructor ()
      ensures options == [] && searchTerm == "" && !isOpen
    {
      options := [];
      searchTerm := "";
      isOpen := false;
    }

    /** The option-resolving effect; a throw leaves the options as they were. */
    method ResolveEffect(src: OptionSource, formData: seq<Field>, compiles: string -> bool, evalJs: string -> Option<Value>)
      modifies this
      ensures options == ResolveOptions(src, formData, compiles, evalJs).UnwrapOr(old(options))
      ensures searchTerm == old(searchTerm) && isOpen == old(isOpen)
    {
      var r := Resolve(src, formData, compiles, evalJs);
      if r.Some? {
        options := r.value;
      }
    }

    /** The default-value effect, writing through the form's `onChange`. */
    method DefaultEffect(form: DynamicForm.FormSession, id: string, camundaKey: Option<string>,
                         defaultValue: Option<string>, value: string)
      modifies form
      ensures form.formData == match DefaultToApply(defaultValue, value, options)
        case Some(d) => Set(old(form.formData), DynamicForm.InputKey(camundaKey, id), Str(d))
        case None => old(form.formData)
      ensures form.components == old(form.components) && form.uploading == old(form.uploading)
    {
      if defaultValue.Some? && defaultValue.value != "" && value == "" && |options| > 0 {
        var found := FindValue(options, defaultValue.value);
        if found.Some? {
          form.HandleInputChange(DynamicForm.InputKey(camundaKey, id), Str(defaultValue.value));
        }
      }
    }

    /** `handleValueChange`: the chosen value goes under `camundaKey || id`. */
    method HandleValueChange(form: DynamicForm.FormSession, id: string, camundaKey: Option<string>, selected: string)
      modifies form
      ensures form.formData == Set(old(form.formData), DynamicForm.InputKey(camundaKey, id), Str(selected))
      ensures form.components == old(form.components) && form.uploading == old(form.uploading)
    {
      form.HandleInputChange(DynamicForm.InputKey(camundaKey, id), Str(selected));
    }

    method SetSearchTerm(term: string)
      modifies this
      ensures searchTerm == term && options == old(options) && isOpen == old(isOpen)
    {
      searchTerm := term;
    }

    method SetOpen(open: bool)
      modifies this
      ensures isOpen == open && options == old(options) && searchTerm == old(searchTerm)
    {
      isOpen := open;
    }
  }
}
