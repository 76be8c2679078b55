/**
 * The computed field of src/components/forms/camunda/CamundaExpression.tsx:
 * the expression text, with a leading "=" dropped, has every whole-word
 * occurrence of a form variable replaced by the variable's string form;
 * the result is handed to `eval` when it is made only of digits, white
 * space and `+-*\/().`, and is written back into the form data only when
 * it is not strictly equal (`!==`) to what is stored there.
 */
module CamundaExpression {
  import opened Wrappers
  import opened Strings
  import opened JsValues
  import DynamicForm

  /** `expr.startsWith('=') ? expr.substring(1) : expr`. */
  function StripEquals(expr: string): (r: string)
    ensures StartsWith(expr, "=") ==> "=" + r == expr
    ensures !StartsWith(expr, "=") ==> r == expr
  {
    if |expr| > 0 && expr[0] == '=' then
      assert "=" + expr[1..] == expr;
      expr[1..]
    else expr
  }

  /** Exactly one "=" goes: "==x" keeps its second one. */
  lemma StripEqualsOnce(t: string)
    ensures StripEquals("=" + t) == t
    ensures StripEquals("==" + t) == "=" + t
  {
    assert ("=" + t)[1..] == t;
    assert ("==" + t)[1..] == "=" + t;
  }

  // ---------------------------------------------------------------------
  // Whole-word replacement, as `text.replace(new RegExp("\\b" + key + "\\b", "g"), rep)`

  predicate WordCharAt(s: string, p: int)
  {
    0 <= p < |s| && IsWordChar(s[p])
  }

  /** `\b` holds between positions `p - 1` and `p`: exactly one side is a word character. */
  predicate BoundaryAt(s: string, p: int)
  {
    WordCharAt(s, p - 1) != WordCharAt(s, p)
  }

  /** The pattern `\bkey\b` matches at index `i`. */
  predicate WordMatchAt(s: string, key: string, i: int)
  {
    OccursAt(s, key, i) && BoundaryAt(s, i) && BoundaryAt(s, i + |key|)
  }

  /**
   * The global replacement from index `i` on: a match is replaced and the
   * scan resumes after it; an empty match (an empty key) is replaced and
   * the scan copies one character before it looks again.
   */
  function ReplaceFrom(s: string, key: string, rep: string, i: nat): string
    requires i <= |s|
    decreases |s| - i
  {
    if WordMatchAt(s, key, i) then
      if |key| > 0 then rep + ReplaceFrom(s, key, rep, i + |key|)
      else if i < |s| then rep + [s[i]] + ReplaceFrom(s, key, rep, i + 1)
      else rep
    else if i < |s| then [s[i]] + ReplaceFrom(s, key, rep, i + 1)
    else ""
  }

  function ReplaceWord(s: string, key: string, rep: string): string
  {
    ReplaceFrom(s, key, rep, 0)
  }

  lemma {:induction false} ReplaceFromNoMatch(s: string, key: string, rep: string, i: nat)
    requires i <= |s|
    requires forall j :: i <= j <= |s| ==> !WordMatchAt(s, key, j)
    ensures ReplaceFrom(s, key, rep, i) == s[i..]
    decreases |s| - i
  {
    if i < |s| {
      ReplaceFromNoMatch(s, key, rep, i + 1);
      assert s[i..] == [s[i]] + s[i + 1..];
    }
  }

  /** Text without a whole-word occurrence of the key is left as it is. */
  lemma ReplaceWordNoMatch(s: string, key: string, rep: string)
    requires forall j :: 0 <= j <= |s| ==> !WordMatchAt(s, key, j)
    ensures ReplaceWord(s, key, rep) == s
  {
    ReplaceFromNoMatch(s, key, rep, 0);
  }

  lemma {:induction false} ReplaceFromSelf(s: string, key: string, i: nat)
    requires i <= |s|
    ensures ReplaceFrom(s, key, key, i) == s[i..]
    decreases |s| - i
  {
    if WordMatchAt(s, key, i) && |key| > 0 {
      ReplaceFromSelf(s, key, i + |key|);
      MatchedKeyStep(s, key, i);
    } else if i < |s| {
      ReplaceFromSelf(s, key, i + 1);
      CopiedCharStep(s, key, i);
    }
  }

  lemma MatchedKeyStep(s: string, key: string, i: nat)
    requires WordMatchAt(s, key, i) && |key| > 0
    requires ReplaceFrom(s, key, key, i + |key|) == s[i + |key|..]
    ensures ReplaceFrom(s, key, key, i) == s[i..]
  {
    assert s[i..] == s[i..i + |key|] + s[i + |key|..];
  }

  lemma CopiedCharStep(s: string, key: string, i: nat)
    requires i < |s| && !(WordMatchAt(s, key, i) && |key| > 0)
    requires ReplaceFrom(s, key, key, i + 1) == s[i + 1..]
    ensures ReplaceFrom(s, key, key, i) == s[i..]
  {
    assert s[i..] == [s[i]] + s[i + 1..];
  }

  /** Replacing every occurrence of a key by the key itself changes nothing. */
  lemma ReplaceWordSelf(s: string, key: string)
    ensures ReplaceWord(s, key, key) == s
  {
    ReplaceFromSelf(s, key, 0);
  }

  /** A whole word is replaced, the same letters inside a longer word are not. */
  lemma ReplaceWordExample()
    ensures ReplaceWord("a+ab", "a", "2") == "2+ab"
  {
    var s := "a+ab";
    assert WordMatchAt(s, "a", 0);
    assert !WordMatchAt(s, "a", 1);
    assert !WordMatchAt(s, "a", 2) by { assert !BoundaryAt(s, 3); }
    assert !WordMatchAt(s, "a", 3);
    assert !WordMatchAt(s, "a", 4);
    assert ReplaceFrom(s, "a", "2", 4) == "";
    assert ReplaceFrom(s, "a", "2", 3) == "b";
    assert ReplaceFrom(s, "a", "2", 2) == "ab";
    assert ReplaceFrom(s, "a", "2", 1) == "+ab";
  }

  // ---------------------------------------------------------------------
  // Substituting the form variables

  /** `value !== undefined && value !== null`: the variables that are substituted. */
  predicate Substituted(f: Field)
  {
    !f.val.Undefined? && !f.val.Null?
  }

  /**
   * The `forEach` over the keys, in key order, replacing each key by
   * `render(value)` (`String` here, `JSON.stringify` in the choice
   * components). `compiles(key)` says whether `new RegExp` accepts the
   * key's pattern; a key it rejects throws, which ends the whole
   * evaluation (`None`).
   */
  function Substitute(text: string, fields: seq<Field>, render: Value -> string, compiles: string -> bool): Option<string>
    decreases |fields|
  {
    if |fields| == 0 then Some(text)
    else
      var prev :- Substitute(text, fields[..|fields| - 1], render, compiles);
      var f := fields[|fields| - 1];
      if !Substituted(f) then Some(prev)
      else if !compiles(f.key) then None
      else Some(ReplaceWord(prev, f.key, render(f.val)))
  }

  /** Variables that are `null` or `undefined` leave the text untouched. */
  lemma {:induction false} SubstituteSkipsNullish(text: string, fields: seq<Field>, render: Value -> string, compiles: string -> bool)
    requires forall i :: 0 <= i < |fields| ==> !Substituted(fields[i])
    ensures Substitute(text, fields, render, compiles) == Some(text)
    decreases |fields|
  {
    if |fields| > 0 {
      SubstituteSkipsNullish(text, fields[..|fields| - 1], render, compiles);
    }
  }

  /** The substitution fails exactly when some substituted variable's key does not compile. */
  lemma {:induction false} SubstituteFailsIff(text: string, fields: seq<Field>, render: Value -> string, compiles: string -> bool)
    ensures Substitute(text, fields, render, compiles).None? <==>
      exists i :: 0 <= i < |fields| && Substituted(fields[i]) && !compiles(fields[i].key)
    decreases |fields|
  {
    if |fields| > 0 {
      var init := fields[..|fields| - 1];
      SubstituteFailsIff(text, init, render, compiles);
      if exists i :: 0 <= i < |init| && Substituted(init[i]) && !compiles(init[i].key) {
        var i :| 0 <= i < |init| && Substituted(init[i]) && !compiles(init[i].key);
        assert fields[i] == init[i];
      }
      if exists i :: 0 <= i < |fields| && Substituted(fields[i]) && !compiles(fields[i].key) {
        var i :| 0 <= i < |fields| && Substituted(fields[i]) && !compiles(fields[i].key);
        if i < |init| {
          assert init[i] == fields[i];
        }
      }
    }
  }

  /** A failure of a prefix of the keys is a failure of the whole loop. */
  lemma {:induction false} SubstituteFailurePersists(text: string, fields: seq<Field>, n: nat, render: Value -> string, compiles: string -> bool)
    requires n <= |fields| && Substitute(text, fields[..n], render, compiles).None?
    ensures Substitute(text, fields, render, compiles).None?
  {
    SubstituteFailsIff(text, fields[..n], render, compiles);
    SubstituteFailsIff(text, fields, render, compiles);
    var i :| 0 <= i < n && Substituted(fields[..n][i]) && !compiles(fields[..n][i].key);
    assert fields[i] == fields[..n][i];
  }

  /** The loop of `evaluateExpression`, proved against `Substitute`. */
  method SubstituteVariables(text: string, fields: seq<Field>, render: Value -> string, compiles: string -> bool) returns (r: Option<string>)
    ensures r == Substitute(text, fields, render, compiles)
  {
    var result := text;
    var i := 0;
    while i < |fields|
      invariant 0 <= i <= |fields|
      invariant Substitute(text, fields[..i], render, compiles) == Some(result)
    {
      var f := fields[i];
      assert fields[..i + 1][..i] == fields[..i];
      if !f.val.Undefined? && !f.val.Null? {
        if !compiles(f.key) {
          assert Substitute(text, fields[..i + 1], render, compiles).None?;
          SubstituteFailurePersists(text, fields, i + 1, render, compiles);
          return None;
        }
        result := ReplaceWord(result, f.key, render(f.val));
      }
      i := i + 1;
    }
    assert fields[..|fields|] == fields;
    r := Some(result);
  }

  // ---------------------------------------------------------------------
  // The arithmetic guard and the evaluation

  /** A character of the class `[\d\s+\-*\/().]`. */
  predicate ArithmeticChar(c: char)
  {
    IsDigit(c) || IsJsSpace(c) || c in "+-*/()."
  }

  /** `/^[\d\s+\-*\/().]+$/.test(t)`. */
  predicate ArithmeticText(t: string)
  {
    |t| > 0 && forall i :: 0 <= i < |t| ==> ArithmeticChar(t[i])
  }

  /** A letter anywhere (an unsubstituted variable, a word) keeps the text from being evaluated. */
  lemma LetterBlocksEvaluation(t: string, i: nat)
    requires i < |t| && IsAsciiLetter(t[i])
    ensures !ArithmeticText(t)
  {
  }

  /** The guard admits `/`, so a regular-expression literal reaches `eval`, alone or in a sum. */
  lemma GuardAdmitsRegExpLiterals()
    ensures ArithmeticText("/1/") && ArithmeticText("/1/+1")
  {
    assert ArithmeticChar('/') && ArithmeticChar('1') && ArithmeticChar('+');
  }

  /**
   * `evaluateExpression(expr, data)`: `null` when the substitution threw;
   * what `eval` returns when the guard admits the text (`eval` is a
   * parameter, `None` standing for a throw); and otherwise, or when `eval`
   * throws, the substituted text itself.
   */
  function Evaluation(expr: string, data: seq<Field>, compiles: string -> bool, eval: string -> Option<Value>): Value
  {
    match Substitute(StripEquals(expr), data, ToJsString, compiles)
    case None => Null
    case Some(t) =>
      if !ArithmeticText(t) then Str(t)
      else match eval(t)
        case Some(v) => v
        case None => Str(t)
  }

  /** `eval` is handed the substituted text and returns `v` for it. */
  predicate EvalReturned(expr: string, data: seq<Field>, compiles: string -> bool, eval: string -> Option<Value>, v: Value)
  {
    var t := Substitute(StripEquals(expr), data, ToJsString, compiles);
    t.Some? && ArithmeticText(t.value) && eval(t.value) == Some(v)
  }

  /**
   * Never a throw: the result is `null` exactly when the substitution
   * failed or `eval` itself returned `null`, and anything but a string or
   * `null` is a value `eval` returned.
   */
  lemma EvaluationNullIff(expr: string, data: seq<Field>, compiles: string -> bool, eval: string -> Option<Value>)
    ensures Evaluation(expr, data, compiles, eval) == Null <==>
      (exists i :: 0 <= i < |data| && Substituted(data[i]) && !compiles(data[i].key))
      || EvalReturned(expr, data, compiles, eval, Null)
    ensures var v := Evaluation(expr, data, compiles, eval);
      v.Null? || v.Str? || EvalReturned(expr, data, compiles, eval, v)
  {
    SubstituteFailsIff(StripEquals(expr), data, ToJsString, compiles);
  }

  /** Text the guard refuses comes back as the substituted string, whatever `eval` would do. */
  lemma EvaluationKeepsNonArithmetic(expr: string, data: seq<Field>, compiles: string -> bool,
                                     eval: string -> Option<Value>, eval2: string -> Option<Value>)
    requires Substitute(StripEquals(expr), data, ToJsString, compiles).Some?
    requires !ArithmeticText(Substitute(StripEquals(expr), data, ToJsString, compiles).value)
    ensures Evaluation(expr, data, compiles, eval) == Str(Substitute(StripEquals(expr), data, ToJsString, compiles).value)
    ensures Evaluation(expr, data, compiles, eval) == Evaluation(expr, data, compiles, eval2)
  {
  }

  /** With every value `null` or absent, "=x*2" is not arithmetic and comes back as "x*2". */
  lemma EvaluationOfUnsetVariable(compiles: string -> bool, eval: string -> Option<Value>)
    ensures Evaluation("=x*2", [Field("x", Null)], compiles, eval) == Str("x*2")
  {
    StripEqualsOnce("x*2");
    SubstituteSkipsNullish("x*2", [Field("x", Null)], ToJsString, compiles);
    LetterBlocksEvaluation("x*2", 0);
  }

  /** `evaluateExpression`, proved against `Evaluation`. */
  method EvaluateExpression(expr: string, data: seq<Field>, compiles: string -> bool, eval: string -> Option<Value>)
    returns (v: Value)
    ensures v == Evaluation(expr, data, compiles, eval)
  {
    var clean := if |expr| > 0 && expr[0] == '=' then expr[1..] else expr;
    var substituted := SubstituteVariables(clean, data, ToJsString, compiles);
    if substituted.None? {
      return Null;
    }
    var t := substituted.value;
    if ArithmeticText(t) {
      var outcome := eval(t);
      match outcome
      case Some(r) => v := r;
      case None => v := Str(t);
    } else {
      v := Str(t);
    }
  }

  // ---------------------------------------------------------------------
  // The effect

  /**
   * `formData[inputKey] !== computedValue`. On primitives strict inequality
   * is inequality of values. An object can only come from `eval` of a text
   * without names (a regular-expression literal), which builds a new
   * object each time, so it is never strictly equal to the stored one.
   */
  predicate NeedsUpdate(formData: seq<Field>, inputKey: string, computed: Value)
  {
    IsObjectLike(computed) || Get(formData, inputKey) != computed
  }

  /**
   * Once a primitive value is written, the same computed value asks for no
   * further write; an object value asks for one on every run.
   */
  lemma UpdateSettles(formData: seq<Field>, inputKey: string, computed: Value)
    ensures !IsObjectLike(computed) ==> !NeedsUpdate(Set(formData, inputKey, computed), inputKey, computed)
    ensures !IsObjectLike(computed) ==> (NeedsUpdate(formData, inputKey, computed) <==> Get(formData, inputKey) != computed)
    ensures IsObjectLike(computed) ==> NeedsUpdate(Set(formData, inputKey, computed), inputKey, computed)
  {
    SetThenGet(formData, inputKey, computed);
  }

  /**
   * "=/1/" with no variables: the guard admits "/1/". When `eval` makes an
   * object of it, as JavaScript makes a regular expression, the effect
   * writes it and is due to write again on the next run.
   */
  lemma RegExpResultNeverSettles(formData: seq<Field>, inputKey: string, compiles: string -> bool, eval: string -> Option<Value>)
    requires eval("/1/").Some? && IsObjectLike(eval("/1/").value)
    ensures var v := Evaluation("=/1/", [], compiles, eval);
      v == eval("/1/").value && NeedsUpdate(Set(formData, inputKey, v), inputKey, v)
  {
    StripEqualsOnce("/1/");
    GuardAdmitsRegExpLiterals();
  }

  /**
   * The component's effect against the form it sits in: compute the value
   * from the current form data and hand it to `onChange` under
   * `camundaKey || id` only when it differs from the stored one.
   */
  method RunEffect(form: DynamicForm.FormSession, id: string, camundaKey: Option<string>, expression: string,
                   compiles: string -> bool, eval: string -> Option<Value>)
    modifies form
    ensures var key := DynamicForm.InputKey(camundaKey, id);
      var v := Evaluation(expression, old(form.formData), compiles, eval);
      form.formData == (if NeedsUpdate(old(form.formData), key, v) then Set(old(form.formData), key, v) else old(form.formData))
      && Get(form.formData, key) == v
    ensures form.components == old(form.components) && form.uploading == old(form.uploading)
  {
    var key := DynamicForm.InputKey(camundaKey, id);
    var computed := EvaluateExpression(expression, form.formData, compiles, eval);
    if IsObjectLike(computed) || Get(form.formData, key) != computed {
      form.HandleInputChange(key, computed);
    }
  }
}
