/**
 * The JavaScript values that flow through the forms and the HTTP layer:
 * their truthiness, `String(v)`, `JSON.stringify(v)` and plain objects,
 * which keep their keys in insertion order.
 */
module JsValues {
  import opened Strings

  /** A browser `File`: only what the application reads of it. */
  datatype File = File(name: string, mimeType: string, size: nat)

  datatype Value =
    | Undefined
    | Null
    | Bool(b: bool)
    | Num(n: int)
    | Str(s: string)
    | Arr(items: seq<Value>)
    | Obj(fields: seq<Field>)
    | FileRef(file: File)

  datatype Field = Field(key: string, val: Value)

  /** The falsy values are `undefined`, `null`, `false`, `0` and `""`. */
  predicate Truthy(v: Value)
  {
    match v
    case Undefined => false
    case Null => false
    case Bool(b) => b
    case Num(n) => n != 0
    case Str(s) => s != ""
    case _ => true
  }

  /** `a || b`. */
  function Or(a: Value, b: Value): Value
  {
    if Truthy(a) then a else b
  }

  lemma OrPicksFirstTruthy(a: Value, b: Value)
    ensures Truthy(a) ==> Or(a, b) == a
    ensures !Truthy(a) ==> Or(a, b) == b
    ensures Truthy(Or(a, b)) <==> Truthy(a) || Truthy(b)
  {
  }

  /** `typeof v === "object"` for a value that is not `null`. */
  predicate IsObjectLike(v: Value)
  {
    v.Arr? || v.Obj? || v.FileRef?
  }

  // ---------------------------------------------------------------------
  // Plain objects

  function Keys(fs: seq<Field>): (ks: seq<string>)
    ensures |ks| == |fs| && forall i :: 0 <= i < |fs| ==> ks[i] == fs[i].key
  {
    seq(|fs|, i requires 0 <= i < |fs| => fs[i].key)
  }

  /** `obj.hasOwnProperty(k)`. */
  predicate Has(fs: seq<Field>, k: string)
  {
    k in Keys(fs)
  }

  predicate DistinctKeys(fs: seq<Field>)
  {
    forall i, j :: 0 <= i < j < |fs| ==> fs[i].key != fs[j].key
  }

  /** `obj[k]`: the value stored under `k`, `undefined` when there is none. */
  function Get(fs: seq<Field>, k: string): (v: Value)
    ensures !Has(fs, k) ==> v == Undefined
    decreases |fs|
  {
    if |fs| == 0 then Undefined
    else if fs[0].key == k then fs[0].val
    else Get(fs[1..], k)
  }

  /** `{...obj, [k]: v}`: an existing key keeps its place, a new key goes last. */
  function Set(fs: seq<Field>, k: string, v: Value): (r: seq<Field>)
    decreases |fs|
  {
    if |fs| == 0 then [Field(k, v)]
    else if fs[0].key == k then [Field(k, v)] + fs[1..]
    else [fs[0]] + Set(fs[1..], k, v)
  }

  lemma {:induction false} GetIsStoredValue(fs: seq<Field>, k: string, i: nat)
    requires DistinctKeys(fs) && i < |fs| && fs[i].key == k
    ensures Get(fs, k) == fs[i].val
    decreases |fs|
  {
    if i > 0 {
      assert fs[0].key != k;
      GetIsStoredValue(fs[1..], k, i - 1);
    }
  }

  /** After `Set`, the key reads back the new value and every other key reads what it read before. */
  lemma {:induction false} SetThenGet(fs: seq<Field>, k: string, v: Value)
    ensures Get(Set(fs, k, v), k) == v
    ensures forall k' :: k' != k ==> Get(Set(fs, k, v), k') == Get(fs, k')
    decreases |fs|
  {
    if |fs| > 0 && fs[0].key != k {
      SetThenGet(fs[1..], k, v);
      assert Set(fs, k, v) == [fs[0]] + Set(fs[1..], k, v);
    }
  }

  /** `Set` keeps the order of the keys, and appends `k` when it was not there. */
  lemma KeysCons(f: Field, fs: seq<Field>)
    ensures Keys([f] + fs) == [f.key] + Keys(fs)
  {
  }

  lemma {:induction false} SetKeys(fs: seq<Field>, k: string, v: Value)
    ensures Keys(Set(fs, k, v)) == if Has(fs, k) then Keys(fs) else Keys(fs) + [k]
    decreases |fs|
  {
    if |fs| == 0 {
      assert Keys(Set(fs, k, v)) == [k];
    } else {
      assert fs == [fs[0]] + fs[1..];
      KeysCons(fs[0], fs[1..]);
      if fs[0].key != k {
        SetKeys(fs[1..], k, v);
        KeysCons(fs[0], Set(fs[1..], k, v));
        assert Has(fs, k) <==> Has(fs[1..], k);
      } else {
        KeysCons(Field(k, v), fs[1..]);
      }
    }
  }

  function FirstIndex(fs: seq<Field>, k: string): (i: nat)
    requires Has(fs, k)
    ensures i < |fs| && fs[i].key == k && forall j :: 0 <= j < i ==> fs[j].key != k
    decreases |fs|
  {
    if fs[0].key == k then 0
    else
      HasTail(fs, k);
      1 + FirstIndex(fs[1..], k)
  }

  lemma HasTail(fs: seq<Field>, k: string)
    requires Has(fs, k) && fs[0].key != k
    ensures Has(fs[1..], k)
  {
    var m :| 0 <= m < |Keys(fs)| && Keys(fs)[m] == k;
    assert Keys(fs[1..])[m - 1] == k;
  }

  /** `Set` keeps the keys distinct, and makes `k` present. */
  lemma SetKeepsDistinct(fs: seq<Field>, k: string, v: Value)
    requires DistinctKeys(fs)
    ensures DistinctKeys(Set(fs, k, v)) && Has(Set(fs, k, v), k)
    ensures forall k' :: Has(Set(fs, k, v), k') <==> Has(fs, k') || k' == k
  {
    SetKeys(fs, k, v);
    var r := Set(fs, k, v);
    forall i, j | 0 <= i < j < |r| ensures r[i].key != r[j].key {
      assert r[i].key == Keys(r)[i] && r[j].key == Keys(r)[j];
      if j < |fs| {
        assert Keys(fs)[i] == fs[i].key && Keys(fs)[j] == fs[j].key;
      }
    }
  }

  /** `v[k]` for a property read on any value: only plain objects have own properties here. */
  function Prop(v: Value, k: string): Value
  {
    if v.Obj? then Get(v.fields, k) else Undefined
  }

  // ---------------------------------------------------------------------
  // String(v) and JSON.stringify(v)

  /** `String(v)`: arrays join their elements with ",", writing `null` and `undefined` as "". */
  function ToJsString(v: Value): string
    decreases v
  {
    match v
    case Undefined => "undefined"
    case Null => "null"
    case Bool(b) => if b then "true" else "false"
    case Num(n) => IntToString(n)
    case Str(s) => s
    case Arr(items) =>
      Join(seq(|items|, i requires 0 <= i < |items| =>
        if items[i].Undefined? || items[i].Null? then "" else ToJsString(items[i])), ',')
    case Obj(_) => "[object Object]"
    case FileRef(_) => "[object File]"
  }

  lemma StringOfPrimitives(s: string, n: nat)
    ensures ToJsString(Str(s)) == s
    ensures ToJsString(Arr([])) == ""
    ensures ToJsString(Arr([Str(s)])) == s
    ensures ToJsString(Num(n)) == NatToString(n)
  {
  }

  function HexDigit(d: nat): char
    requires d < 16
  {
    if d < 10 then DigitChar(d) else ('a' as int + d - 10) as char
  }

  /** One character of a JSON string literal. */
  function EscapeChar(c: char): string
  {
    if c == '"' then "\\\""
    else if c == '\\' then "\\\\"
    else if c == '\n' then "\\n"
    else if c == '\r' then "\\r"
    else if c == '\t' then "\\t"
    else if c == '\U{08}' then "\\b"
    else if c == '\U{0C}' then "\\f"
    else if c < ' ' then "\\u00" + [HexDigit(c as int / 16), HexDigit(c as int % 16)]
    else [c]
  }

  function Escape(s: string): string
    decreases |s|
  {
    if |s| == 0 then "" else EscapeChar(s[0]) + Escape(s[1..])
  }

  function Quote(s: string): string
  {
    "\"" + Escape(s) + "\""
  }

  /**
   * `JSON.stringify(v)`: `undefined` array elements become `null`, object
   * members whose value is `undefined` are dropped, and a `File` has no
   * enumerable members. A top-level `undefined` gives the text "undefined".
   */
  function Json(v: Value): string
    decreases v
  {
    match v
    case Undefined => "undefined"
    case Null => "null"
    case Bool(b) => if b then "true" else "false"
    case Num(n) => IntToString(n)
    case Str(s) => Quote(s)
    case Arr(items) =>
      "[" + Join(seq(|items|, i requires 0 <= i < |items| =>
        if items[i].Undefined? then "null" else Json(items[i])), ',') + "]"
    case Obj(fields) =>
      "{" + JoinText(seq(|fields|, i requires 0 <= i < |fields| =>
        if fields[i].val.Undefined? then "" else Quote(fields[i].key) + ":" + Json(fields[i].val))) + "}"
    case FileRef(_) => "{}"
  }

  /** Joins the non-empty pieces with ",". */
  function JoinText(pieces: seq<string>): string
    decreases |pieces|
  {
    if |pieces| == 0 then ""
    else if pieces[0] == "" then JoinText(pieces[1..])
    else
      var rest := JoinText(pieces[1..]);
      if rest == "" then pieces[0] else pieces[0] + "," + rest
  }

  lemma JsonOfStrings(s: string)
    ensures Json(Str(s)) == "\"" + Escape(s) + "\""
    ensures Json(Obj([Field("a", Undefined)])) == "{}"
    ensures Json(Arr([Undefined])) == "[null]"
  {
    assert JoinText([""]) == "";
    var f := [Field("a", Undefined)];
    assert seq(|f|, i requires 0 <= i < |f| =>
      if f[i].val.Undefined? then "" else Quote(f[i].key) + ":" + Json(f[i].val)) == [""];
    var u := [Undefined];
    assert seq(|u|, i requires 0 <= i < |u| => if u[i].Undefined? then "null" else Json(u[i])) == ["null"];
  }
}
