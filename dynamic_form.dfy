/**
 * The form interpreter of src/components/forms/DynamicCamundaForm.tsx: a
 * Camunda form definition is a flat list of components, each rendered by
 * its type tag; user input is kept in `formData`, a plain object updated
 * one key at a time, and submission sends every keyed component's value
 * back as `{value: ...}` before toggling the stored task.
 */
module DynamicForm {
  import opened Wrappers
  import opened JsValues
  import opened Store
  import TasksApi

  /** A component of the form definition: only the properties the interpreter reads. */
  datatype Component = Component(
    id: string,
    key: Option<string>,
    caption: Option<string>,
    tag: string,
    text: Option<string>,
    subtype: Option<string>,
    expression: Option<string>,
    multiple: Value,
    readonly: Value)

  /** `component.key` is truthy: present and not "". */
  predicate HasKey(c: Component)
  {
    c.key.Some? && c.key.value != ""
  }

  /** `camundaKey || id`: the key every field renderer writes its value under. */
  function InputKey(camundaKey: Option<string>, id: string): string
  {
    if camundaKey.Some? && camundaKey.value != "" then camundaKey.value else id
  }

  /** `raw === true || raw === "on"`, how `multiple` and `readonly` are read. */
  predicate FlagOn(raw: Value)
  {
    raw == Bool(true) || raw == Str("on")
  }

  /** Only the boolean `true` and the exact string "on" switch a flag on; other truthy values do not. */
  lemma FlagOnOnlyForTrueAndOn(raw: Value)
    ensures FlagOn(raw) ==> Truthy(raw)
    ensures !FlagOn(Str("true")) && !FlagOn(Str("ON")) && !FlagOn(Num(1)) && !FlagOn(Bool(false)) && !FlagOn(Undefined)
    ensures FlagOn(Bool(true)) && FlagOn(Str("on"))
  {
  }

  // ---------------------------------------------------------------------
  // The type dispatch

  datatype ChoiceKind = Checklist | Radio | Select | Taglist

  /** What `renderFormComponent` produces: the widget and the props that depend on the component or the data. */
  datatype Widget =
    | TextView(id: string, text: Option<string>)
    | TextInput(id: string, camundaKey: Option<string>, caption: Option<string>, multiline: bool, value: Value)
    | CheckboxInput(id: string, camundaKey: Option<string>, caption: Option<string>, value: Value)
    | FileInput(id: string, camundaKey: Option<string>, caption: Option<string>, value: Value, multiple: bool)
    | NumberInput(id: string, camundaKey: Option<string>, caption: Option<string>, value: Value, readonly: bool)
    | DatetimeInput(id: string, camundaKey: Option<string>, caption: Option<string>, subtype: string, value: Value, readonly: bool)
    | ExpressionField(id: string, camundaKey: Option<string>, expression: string)
    | ChoiceInput(kind: ChoiceKind, id: string, camundaKey: Option<string>, caption: Option<string>, value: Value)
    | Unsupported(id: string, tag: string)

  const HandledTags: set<string> := {"text", "textfield", "textarea", "checkbox", "filepicker", "number",
                                      "datetime", "expression", "checklist", "radio", "select", "taglist"}

  /** `s || fallback` for an optional string prop. */
  function StringOr(s: Option<string>, fallback: string): string
  {
    if s.Some? && s.value != "" then s.value else fallback
  }

  /** `renderFormComponent`: one widget per type tag, and a placeholder naming any other tag. */
  function Render(c: Component, formData: seq<Field>): (w: Widget)
    ensures w.id == c.id
    ensures w.Unsupported? <==> c.tag !in HandledTags
    ensures w.Unsupported? ==> w.tag == c.tag
    ensures w.FileInput? ==> w.multiple == FlagOn(c.multiple)
    ensures w.NumberInput? || w.DatetimeInput? ==> w.readonly == FlagOn(c.readonly)
    ensures w.DatetimeInput? ==> w.subtype == (if c.subtype.Some? && c.subtype.value != "" then c.subtype.value else "date")
    ensures w.ChoiceInput? ==> c.tag in {"checklist", "radio", "select", "taglist"}
  {
    var stored := Get(formData, c.id);
    match c.tag
    case "text" => TextView(c.id, c.text)
    case "textfield" => TextInput(c.id, c.key, c.caption, false, Or(stored, Str("")))
    case "textarea" => TextInput(c.id, c.key, c.caption, true, Or(stored, Str("")))
    case "checkbox" => CheckboxInput(c.id, c.key, c.caption, Or(stored, Bool(false)))
    case "filepicker" => FileInput(c.id, c.key, c.caption, Or(stored, Null), FlagOn(c.multiple))
    case "number" => NumberInput(c.id, c.key, c.caption, stored, FlagOn(c.readonly))
    case "datetime" => DatetimeInput(c.id, c.key, c.caption, StringOr(c.subtype, "date"), Or(stored, Str("")), FlagOn(c.readonly))
    case "expression" => ExpressionField(c.id, c.key, StringOr(c.expression, ""))
    case "checklist" => ChoiceInput(Checklist, c.id, c.key, c.caption, Or(stored, Arr([])))
    case "radio" => ChoiceInput(Radio, c.id, c.key, c.caption, Or(stored, Str("")))
    case "select" => ChoiceInput(Select, c.id, c.key, c.caption, Or(stored, Str("")))
    case "taglist" => ChoiceInput(Taglist, c.id, c.key, c.caption, Or(stored, Arr([])))
    case _ => Unsupported(c.id, c.tag)
  }

  /** The value a widget shows */
  function ShownValue(w: Widget): Option<Value>
  {
    match w
    case TextInput(_, _, _, _, v) => Some(v)
    case CheckboxInput(_, _, _, v) => Some(v)
    case FileInput(_, _, _, v, _) => Some(v)
    case NumberInput(_, _, _, v, _) => Some(v)
    case DatetimeInput(_, _, _, _, v, _) => Some(v)
    case ChoiceInput(_, _, _, _, v) => Some(v)
    case _ => None
  }

  /**
   * An input widget shows the stored value when it is truthy and otherwise
   * its type's empty value; only the number input passes the stored value
   * through untouched.
   */
  lemma RenderedValueFallsBack(c: Component, formData: seq<Field>)
    ensures var w := Render(c, formData); var stored := Get(formData, c.id);
      ShownValue(w).Some? <==> c.tag in HandledTags - {"text", "expression"}
    ensures var w := Render(c, formData); var stored := Get(formData, c.id);
      ShownValue(w).Some? && Truthy(stored) ==> ShownValue(w) == Some(stored)
    ensures var w := Render(c, formData); var stored := Get(formData, c.id);
      ShownValue(w).Some? && !Truthy(stored) && !w.NumberInput? ==>
        ShownValue(w).value in {Str(""), Bool(false), Null, Arr([])}
    ensures Render(c, formData).NumberInput? ==> ShownValue(Render(c, formData)) == Some(Get(formData, c.id))
  {
    var tags := ["textfield", "textarea", "checkbox", "filepicker", "number", "datetime",
                 "checklist", "radio", "select", "taglist"];
    assert HandledTags - {"text", "expression"} == set t | t in tags;
    if c.tag !in tags {
      assert Render(c, formData).TextView? || Render(c, formData).ExpressionField? || Render(c, formData).Unsupported?;
    }
  }

  /** `components.map(renderFormComponent)`: one widget per component, in order, whatever the tags. */
  function RenderAll(comps: seq<Component>, formData: seq<Field>): (ws: seq<Widget>)
    ensures |ws| == |comps|
    ensures forall i :: 0 <= i < |comps| ==> ws[i].id == comps[i].id && (ws[i].Unsupported? <==> comps[i].tag !in HandledTags)
    ensures forall i :: 0 <= i < |comps| ==> ws[i] == Render(comps[i], formData)
  {
    seq(|comps|, i requires 0 <= i < |comps| => Render(comps[i], formData))
  }

  // ---------------------------------------------------------------------
  // The completion payload

  /** `{value: v}`, the shape Camunda expects for a variable. */
  function Wrapped(v: Value): Value
  {
    Obj([Field("value", v)])
  }

  /** How many `{value: ...}` wrappers a value sits in. */
  function WrapDepth(v: Value): nat
    decreases v
  {
    if v.Obj? && |v.fields| == 1 && v.fields[0].key == "value" then 1 + WrapDepth(v.fields[0].val) else 0
  }

  /** Wrapping always yields a new value: the wrapped value is one level deeper. */
  lemma WrappedDiffers(v: Value)
    ensures WrapDepth(Wrapped(v)) == 1 + WrapDepth(v) && Wrapped(v) != v
  {
  }

  /** The component contributes a variable: it has a key and its id is an own property of `formData`. */
  predicate Submitted(c: Component, formData: seq<Field>)
  {
    HasKey(c) && Has(formData, c.id)
  }

  /**
   * The object `buildFormVariables` builds by visiting the components in
   * order: `variables[key] = {value: formData[id]}` for each submitted one,
   * a repeated key overwriting the earlier entry in its place.
   */
  function FormVariables(comps: seq<Component>, formData: seq<Field>): seq<Field>
    decreases |comps|
  {
    if |comps| == 0 then []
    else
      var prev := FormVariables(comps[..|comps| - 1], formData);
      var c := comps[|comps| - 1];
      if Submitted(c, formData) then Set(prev, c.key.value, Wrapped(Get(formData, c.id))) else prev
  }

  /** The payload has a variable exactly for the keys of the submitted components, each once. */
  lemma {:induction false} FormVariablesKeys(comps: seq<Component>, formData: seq<Field>)
    ensures DistinctKeys(FormVariables(comps, formData))
    ensures forall k :: Has(FormVariables(comps, formData), k) <==>
      exists i :: 0 <= i < |comps| && Submitted(comps[i], formData) && comps[i].key.value == k
    decreases |comps|
  {
    if |comps| > 0 {
      var init := comps[..|comps| - 1];
      var c := comps[|comps| - 1];
      FormVariablesKeys(init, formData);
      var prev := FormVariables(init, formData);
      if Submitted(c, formData) {
        SetKeepsDistinct(prev, c.key.value, Wrapped(Get(formData, c.id)));
      }
      forall k ensures Has(FormVariables(comps, formData), k) <==>
        exists i :: 0 <= i < |comps| && Submitted(comps[i], formData) && comps[i].key.value == k
      {
        if Has(FormVariables(comps, formData), k) {
          if Has(prev, k) {
            var i :| 0 <= i < |init| && Submitted(init[i], formData) && init[i].key.value == k;
            assert comps[i] == init[i];
          } else {
            assert comps[|comps| - 1] == c;
          }
        }
        if exists i :: 0 <= i < |comps| && Submitted(comps[i], formData) && comps[i].key.value == k {
          var i :| 0 <= i < |comps| && Submitted(comps[i], formData) && comps[i].key.value == k;
          if i < |init| {
            assert init[i] == comps[i];
          }
        }
      }
    }
  }

  /** The variable under a key holds `{value: formData[id]}` of the last submitted component with that key. */
  lemma {:induction false} FormVariablesValue(comps: seq<Component>, formData: seq<Field>, i: nat)
    requires i < |comps| && Submitted(comps[i], formData)
    requires forall j :: i < j < |comps| && Submitted(comps[j], formData) ==> comps[j].key != comps[i].key
    ensures Get(FormVariables(comps, formData), comps[i].key.value) == Wrapped(Get(formData, comps[i].id))
    decreases |comps|
  {
    var init := comps[..|comps| - 1];
    var c := comps[|comps| - 1];
    var prev := FormVariables(init, formData);
    if i == |comps| - 1 {
      SetThenGet(prev, c.key.value, Wrapped(Get(formData, c.id)));
    } else {
      assert init[i] == comps[i];
      forall j | i < j < |init| && Submitted(init[j], formData) ensures init[j].key != init[i].key {
        assert init[j] == comps[j];
      }
      FormVariablesValue(init, formData, i);
      if Submitted(c, formData) {
        assert c.key != comps[i].key;
        SetThenGet(prev, c.key.value, Wrapped(Get(formData, c.id)));
      }
    }
  }

  /**
   * A renderer writes under `camundaKey || id`, but the payload looks the
   * value up under `id`: a field whose key differs from its id and whose
   * value only ever reached `formData` through its renderer is not sent.
   */
  lemma KeyedWriteIsNotSubmitted(c: Component, before: seq<Field>, v: Value)
    requires HasKey(c) && c.key.value != c.id && !Has(before, c.id)
    ensures InputKey(c.key, c.id) == c.key.value
    ensures FormVariables([c], Set(before, InputKey(c.key, c.id), v)) == []
  {
    SetKeys(before, c.key.value, v);
    var after := Set(before, c.key.value, v);
    assert !Has(after, c.id);
    assert [c][..0] == [];
  }

  /** The request `completeCamundaTask` is called with. */
  datatype Completion = Completion(camundaId: string, variables: seq<Field>)

  datatype Notice = Sent | SendFailed

  /** The form's choice of file, as `handleFileChange` receives it. */
  datatype FilePick = NoFile | OneFile(file: File) | ManyFiles(files: seq<File>)

  function PickValue(p: FilePick): (v: Value)
    ensures p.NoFile? <==> v == Null
  {
    match p
    case NoFile => Null
    case OneFile(f) => FileRef(f)
    case ManyFiles(fs) => Arr(seq(|fs|, i requires 0 <= i < |fs| => FileRef(fs[i])))
  }

  /** The state of one open form: the loaded definition, the entered data and the submit flag. */
  class FormSession {
    var components: Option<seq<Component>>
    var formData: seq<Field>
    var uploading: bool

    constructor (definition: Option<seq<Component>>)
      ensures components == definition && formData == [] && !uploading
    {
      components := definition;
      formData := [];
      uploading := false;
    }

    /** `buildFormVariables`: the payload the definition's top-level components yield, `{}` without one. */
    method BuildFormVariables() returns (variables: seq<Field>)
      ensures variables == if components.Some? then FormVariables(components.value, formData) else []
    {
      variables := [];
      if components.Some? {
        var comps := components.value;
        var i := 0;
        while i < |comps|
          invariant 0 <= i <= |comps|
          invariant variables == FormVariables(comps[..i], formData)
        {
          var c := comps[i];
          assert comps[..i + 1][..i] == comps[..i];
          if c.key.Some? && c.key.value != "" && Has(formData, c.id) {
            variables := Set(variables, c.key.value, Wrapped(Get(formData, c.id)));
          }
          i := i + 1;
        }
        assert comps[..|comps|] == comps;
      }
    }

    /** `handleInputChange`: `formData[id] = value`, every other entry as it was. */
    method HandleInputChange(id: string, value: Value)
      modifies this
      ensures formData == Set(old(formData), id, value)
      ensures Get(formData, id) == value && forall k :: k != id ==> Get(formData, k) == Get(old(formData), k)
      ensures Keys(formData) == if Has(old(formData), id) then Keys(old(formData)) else Keys(old(formData)) + [id]
      ensures components == old(components) && uploading == old(uploading)
    {
      SetThenGet(formData, id, value);
      SetKeys(formData, id, value);
      formData := Set(formData, id, value);
    }

    /** `handleFileChange`: the same single-entry update, with the picked file, files or `null`. */
    method HandleFileChange(id: string, pick: FilePick)
      modifies this
      ensures formData == Set(old(formData), id, PickValue(pick))
      ensures Get(formData, id) == PickValue(pick) && forall k :: k != id ==> Get(formData, k) == Get(old(formData), k)
      ensures components == old(components) && uploading == old(uploading)
    {
      HandleInputChange(id, PickValue(pick));
    }

    /**
     * `handleSubmit`: sends the payload, and only when Camunda reports
     * success toggles the stored task, unless it is permanent. `succeeded`
     * is Camunda's answer to `request`.
     */
    method HandleSubmit(tasks: Table<TasksApi.Task>, task: Row<TasksApi.Task>, succeeded: bool)
      returns (request: Completion, notice: Notice)
      requires tasks.Valid()
      modifies this, tasks
      ensures tasks.Valid()
      ensures request == Completion(TasksApi.OrDefault(task.doc.camundaId, ""),
        if components.Some? then FormVariables(components.value, formData) else [])
      ensures notice == if succeeded then Sent else SendFailed
      ensures succeeded && task.doc.permanent != Some(true) ==>
        match old(tasks.Get(task.id))
        case None => tasks.rows == old(tasks.rows)
        case Some(t) => tasks.rows == Replace(old(tasks.rows), task.id, TasksApi.Toggled(t))
      ensures !succeeded || task.doc.permanent == Some(true) ==> tasks.rows == old(tasks.rows)
      ensures !uploading && components == old(components) && formData == old(formData)
    {
      uploading := true;
      var variables := BuildFormVariables();
      request := Completion(TasksApi.OrDefault(task.doc.camundaId, ""), variables);
      if !succeeded {
        notice := SendFailed;
      } else {
        if task.doc.permanent != Some(true) {
          TasksApi.ToggleTask(tasks, task.id);
        }
        notice := Sent;
      }
      uploading := false;
    }
  }
}
