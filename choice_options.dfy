/**
 * The option list the four choice components (checklist, radio, select,
 * taglist) share: where the options come from, in order of precedence
 * (the static `values`, a form variable named by `valuesKey`, or a
 * `valuesExpression`), and how an arbitrary item becomes a
 * `{label, value}` option. Each component repeats this code in
 * src/components/forms/camunda/; the model states it once.
 */
module ChoiceOptions {
  import opened Wrappers
  import opened Strings
  import opened JsValues
  import CamundaExpression

  /** `{label, value}`; `caption` is the label. */
  datatype ChoiceOption = ChoiceOption(caption: string, value: string)

  /** Where the component takes its options from. */
  datatype OptionSource = OptionSource(
    values: Option<seq<ChoiceOption>>,
    valuesKey: Option<string>,
    valuesExpression: Option<string>)

  /** `"option_" + index`. */
  function PositionValue(index: nat): (r: string)
    ensures |r| > 7 && r[..7] == "option_"
  {
    "option_" + NatToString(index)
  }

  /**
   * `{label: item.label || item.toString(), value: item.value || item.toString() || "option_" + index}`.
   * Reading a property of `null` or `undefined` throws, which is `None`.
   */
  function Normalise(item: Value, index: nat): (r: Option<ChoiceOption>)
    ensures r.None? <==> item.Undefined? || item.Null?
    ensures item.Str? && item.s != "" ==> r == Some(ChoiceOption(item.s, item.s))
    ensures item.Str? && item.s == "" ==> r == Some(ChoiceOption("", PositionValue(index)))
    ensures (item.Obj? && Get(item.fields, "label").Str? && Get(item.fields, "label").s != ""
             && Get(item.fields, "value").Str? && Get(item.fields, "value").s != "") ==>
      r == Some(ChoiceOption(Get(item.fields, "label").s, Get(item.fields, "value").s))
  {
    if item.Undefined? || item.Null? then None
    else
      var text := Str(ToJsString(item));
      Some(ChoiceOption(ToJsString(Or(Prop(item, "label"), text)),
                        ToJsString(Or(Or(Prop(item, "value"), text), Str(PositionValue(index))))))
  }

  /** The option value of a string item is never empty: an empty string takes its position name. */
  lemma StringItemValueNonEmpty(s: string, index: nat)
    ensures Normalise(Str(s), index).Some? && Normalise(Str(s), index).value.value != ""
    ensures s == "" ==> Normalise(Str(s), index).value.value != Normalise(Str(s), index + 1).value.value
  {
    if s == "" {
      var a := PositionValue(index);
      var b := PositionValue(index + 1);
      if a == b {
        assert NatToString(index) == a[7..] == b[7..] == NatToString(index + 1);
        NatToStringInjective(index, index + 1);
      }
    }
  }

  /** `items.map(normalise)`: every item by its index, or a throw when one is `null` or `undefined`. */
  function NormaliseAll(items: seq<Value>): (r: Option<seq<ChoiceOption>>)
    ensures r.None? <==> exists i :: 0 <= i < |items| && (items[i].Undefined? || items[i].Null?)
    ensures r.Some? ==> |r.value| == |items| && forall i :: 0 <= i < |items| ==> Some(r.value[i]) == Normalise(items[i], i)
  {
    if forall i :: 0 <= i < |items| ==> !items[i].Undefined? && !items[i].Null? then
      Some(seq(|items|, i requires 0 <= i < |items| => Normalise(items[i], i).value))
    else None
  }

  /** A list of non-empty strings becomes options whose label and value are the strings themselves. */
  lemma NormaliseStrings(items: seq<Value>)
    requires forall i :: 0 <= i < |items| ==> items[i].Str? && items[i].s != ""
    ensures NormaliseAll(items).Some?
    ensures forall i :: 0 <= i < |items| ==>
      NormaliseAll(items).value[i] == ChoiceOption(items[i].s, items[i].s)
  {
    var r := NormaliseAll(items);
    forall i | 0 <= i < |items| ensures r.value[i] == ChoiceOption(items[i].s, items[i].s) {
      assert Some(r.value[i]) == Normalise(items[i], i);
    }
  }

  // ---------------------------------------------------------------------
  // The expression source

  /**
   * `evaluateExpression` of the choice components: substitute the
   * variables' JSON texts, evaluate `"(" + text + ")"` (`evalJs`, `None`
   * when it throws), and keep the result only when it is an array whose
   * items all normalise; every failure gives `[]`.
   */
  function ExpressionOptions(expr: string, data: seq<Field>, compiles: string -> bool,
                             evalJs: string -> Option<Value>): seq<ChoiceOption>
  {
    match CamundaExpression.Substitute(CamundaExpression.StripEquals(expr), data, Json, compiles)
    case None => []
    case Some(t) =>
      match evalJs("(" + t + ")")
      case Some(Arr(items)) => NormaliseAll(items).UnwrapOr([])
      case _ => []
  }

  /** Only an array result yields options: anything else the evaluation returns, or a throw, gives none. */
  lemma ExpressionOptionsNeedArray(expr: string, data: seq<Field>, compiles: string -> bool,
                                   evalJs: string -> Option<Value>)
    ensures |ExpressionOptions(expr, data, compiles, evalJs)| > 0 ==>
      var t := CamundaExpression.Substitute(CamundaExpression.StripEquals(expr), data, Json, compiles);
      t.Some? && evalJs("(" + t.value + ")").Some? && evalJs("(" + t.value + ")").value.Arr?
      && |ExpressionOptions(expr, data, compiles, evalJs)| == |evalJs("(" + t.value + ")").value.items|
  {
  }

  /** The expression source, proved against `ExpressionOptions`. */
  method EvaluateOptionsExpression(expr: string, data: seq<Field>, compiles: string -> bool,
                                   evalJs: string -> Option<Value>) returns (options: seq<ChoiceOption>)
    ensures options == ExpressionOptions(expr, data, compiles, evalJs)
  {
    var clean := if |expr| > 0 && expr[0] == '=' then expr[1..] else expr;
    assert clean == CamundaExpression.StripEquals(expr);
    var substituted := CamundaExpression.SubstituteVariables(clean, data, Json, compiles);
    if substituted.None? {
      return [];
    }
    var evaluated := evalJs("(" + substituted.value + ")");
    assert ExpressionOptions(expr, data, compiles, evalJs) ==
      match evaluated
      case Some(Arr(items)) => NormaliseAll(items).UnwrapOr([])
      case _ => [];
    if evaluated.Some? && evaluated.value.Arr? {
      var normalised := NormaliseAll(evaluated.value.items);
      options := normalised.UnwrapOr([]);
    } else {
      options := [];
    }
  }

  // ---------------------------------------------------------------------
  // Precedence of the sources

  /** `valuesKey && formData[valuesKey]`. */
  predicate KeySourceActive(src: OptionSource, formData: seq<Field>)
  {
    src.valuesKey.Some? && src.valuesKey.value != "" && Truthy(Get(formData, src.valuesKey.value))
  }

  /**
   * The resolving effect: `values` when it is an array, else the mapped
   * variable (`[]` when it is not an array), else the expression, else
   * `[]`. `None` when mapping the variable throws, which leaves the
   * options as they were.
   */
  function ResolveOptions(src: OptionSource, formData: seq<Field>, compiles: string -> bool,
                          evalJs: string -> Option<Value>): Option<seq<ChoiceOption>>
  {
    if src.values.Some? then Some(src.values.value)
    else if KeySourceActive(src, formData) then
      var v := Get(formData, src.valuesKey.value);
      if v.Arr? then NormaliseAll(v.items) else Some([])
    else if src.valuesExpression.Some? && src.valuesExpression.value != "" then
      Some(ExpressionOptions(src.valuesExpression.value, formData, compiles, evalJs))
    else Some([])
  }

  /**
   * Static values, even an empty list, win over everything; an active
   * key source wins over the expression, which is then never consulted;
   * only the key source can throw.
   */
  lemma ResolvePrecedence(src: OptionSource, formData: seq<Field>, compiles: string -> bool,
                          evalJs: string -> Option<Value>, otherExpr: Option<string>, otherData: seq<Field>)
    ensures src.values.Some? ==>
      ResolveOptions(src, formData, compiles, evalJs) == Some(src.values.value)
      && ResolveOptions(src, otherData, compiles, evalJs) == ResolveOptions(src, formData, compiles, evalJs)
    ensures src.values.None? && KeySourceActive(src, formData) ==>
      ResolveOptions(src.(valuesExpression := otherExpr), formData, compiles, evalJs)
        == ResolveOptions(src, formData, compiles, evalJs)
    ensures src.values.None? && !KeySourceActive(src, formData) ==>
      ResolveOptions(src, formData, compiles, evalJs) ==
        if src.valuesExpression.Some? && src.valuesExpression.value != ""
        then Some(ExpressionOptions(src.valuesExpression.value, formData, compiles, evalJs))
        else Some([])
    ensures ResolveOptions(src, formData, compiles, evalJs).None? ==>
      src.values.None? && KeySourceActive(src, formData) && Get(formData, src.valuesKey.value).Arr?
  {
  }

  /** A variable holding something other than an array gives no options, and no fall-through. */
  lemma KeySourceNonArray(src: OptionSource, formData: seq<Field>, compiles: string -> bool,
                          evalJs: string -> Option<Value>)
    requires src.values.None? && KeySourceActive(src, formData) && !Get(formData, src.valuesKey.value).Arr?
    ensures ResolveOptions(src, formData, compiles, evalJs) == Some([])
  {
  }

  /** The resolving computation, proved against `ResolveOptions`. */
  method Resolve(src: OptionSource, formData: seq<Field>, compiles: string -> bool,
                 evalJs: string -> Option<Value>) returns (r: Option<seq<ChoiceOption>>)
    ensures r == ResolveOptions(src, formData, compiles, evalJs)
  {
    if src.values.Some? {
      r := Some(src.values.value);
    } else if src.valuesKey.Some? && src.valuesKey.value != "" && Truthy(Get(formData, src.valuesKey.value)) {
      var v := Get(formData, src.valuesKey.value);
      r := if v.Arr? then NormaliseAll(v.items) else Some([]);
    } else if src.valuesExpression.Some? && src.valuesExpression.value != "" {
      var options := EvaluateOptionsExpression(src.valuesExpression.value, formData, compiles, evalJs);
      r := Some(options);
    } else {
      r := Some([]);
    }
  }

  // ---------------------------------------------------------------------
  // Looking options up by value

  /** `options.find(opt => opt.value === v)`, as the index of the first match. */
  function FindValue(options: seq<ChoiceOption>, v: string): (r: Option<nat>)
    ensures r.Some? ==>
      r.value < |options| && options[r.value].value == v && forall j :: 0 <= j < r.value ==> options[j].value != v
    ensures r.None? <==> forall j :: 0 <= j < |options| ==> options[j].value != v
    decreases |options|
  {
    if |options| == 0 then None
    else if options[0].value == v then Some(0)
    else
      match FindValue(options[1..], v)
      case None => None
      case Some(i) => Some(i + 1)
  }

  /** The label of the first option with value `v`, or `fallback`. */
  function CaptionOr(options: seq<ChoiceOption>, v: string, fallback: string): (r: string)
    ensures (exists j :: 0 <= j < |options| && options[j].value == v) ==>
      exists j :: 0 <= j < |options| && options[j].value == v && r == options[j].caption
        && forall i :: 0 <= i < j ==> options[i].value != v
    ensures (forall j :: 0 <= j < |options| ==> options[j].value != v) ==> r == fallback
  {
    match FindValue(options, v)
    case Some(i) => options[i].caption
    case None => fallback
  }

  /** A selection, as the string array `onChange` receives. */
  function StrArr(ss: seq<string>): (v: Value)
    ensures v.Arr? && |v.items| == |ss| && forall i :: 0 <= i < |ss| ==> v.items[i] == Str(ss[i])
  {
    Arr(seq(|ss|, i requires 0 <= i < |ss| => Str(ss[i])))
  }
}
