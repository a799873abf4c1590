/**
 * The JavaScript values that cross the host boundary: parsed JSON payloads,
 * record field data, injected page props. Numbers are integers; `undefined`
 * stands for a missing property.
 */
module Js {
  import opened Prelude
  import opened Strings

  datatype JsValue =
    | Undefined
    | Null
    | Bool(b: bool)
    | Num(n: int)
    | Str(s: string)
    | Arr(items: seq<JsValue>)
    | Obj(props: map<string, JsValue>)

  /** JavaScript truthiness: `undefined`, `null`, `false`, `0` and `""` are falsy. */
  predicate Truthy(v: JsValue) {
    match v
    case Undefined => false
    case Null => false
    case Bool(b) => b
    case Num(n) => n != 0
    case Str(s) => s != ""
    case Arr(_) => true
    case Obj(_) => true
  }

  /** `a || b`. */
  function Or(a: JsValue, b: JsValue): JsValue {
    if Truthy(a) then a else b
  }

  /** `v?.[key]`: a property of an object; anything else has no such property. */
  function Prop(v: JsValue, key: string): JsValue {
    if v.Obj? && key in v.props then v.props[key] else Undefined
  }

  /** `v` is a non-null object (`typeof v === "object" && v !== null`); arrays are objects too. */
  predicate IsObject(v: JsValue) {
    v.Obj? || v.Arr?
  }

  const EmptyObject: JsValue := Obj(map[])

  /** `String(v)`. */
  function ToJsString(v: JsValue): string
    decreases v, 1, 0
  {
    match v
    case Undefined => "undefined"
    case Null => "null"
    case Bool(b) => if b then "true" else "false"
    case Num(n) => IntToDecimal(n)
    case Str(s) => s
    case Arr(items) => JoinItems(v, 0)
    case Obj(_) => "[object Object]"
  }

  /** `items.slice(i).join(",")`, where `null` and `undefined` items print as nothing. */
  function JoinItems(arr: JsValue, i: nat): string
    requires arr.Arr? && i <= |arr.items|
    decreases arr, 0, |arr.items| - i
  {
    if i == |arr.items| then ""
    else
      var item := arr.items[i];
      var text := if item.Undefined? || item.Null? then "" else ToJsString(item);
      if i + 1 == |arr.items| then text else text + "," + JoinItems(arr, i + 1)
  }

  // ---------------------------------------------------------------------------
  // JSON text of a string

  /** `JSON.stringify` of a string without backslashes: the text quoted, each `"` escaped. */
  function QuoteJson(t: string): (r: string)
    ensures StartsWith(r, "\"") && EndsWith(r, "\"")
  {
    var r := "\"" + ReplaceAll(t, "\"", "\\\"") + "\"";
    assert r[..1] == "\"" && r[|r| - 1..] == "\"";
    r
  }

  /** `.replace(/\\"/g, '"').replace(/\\\\/g, "\\")`. */
  function Unescape(p: string): (r: string)
    ensures |r| <= |p|
  {
    ReplaceAll(ReplaceAll(p, "\\\"", "\""), "\\\\", "\\")
  }

  /** Unescaping leaves a text without backslashes alone. */
  lemma UnescapePlain(p: string)
    requires Lacks(p, '\\')
    ensures Unescape(p) == p
  {
    ReplaceAbsent(p, "\\\"", "\"");
    ReplaceAbsent(p, "\\\\", "\\");
  }

  /** Unescaping undoes escaping when the text has no backslash of its own. */
  lemma {:induction false} UnescapeEscaped(t: string)
    requires Lacks(t, '\\')
    ensures ReplaceAll(ReplaceAll(t, "\"", "\\\""), "\\\"", "\"") == t
    decreases |t|
  {
    if t != [] {
      var rest := ReplaceAll(t[1..], "\"", "\\\"");
      UnescapeEscaped(t[1..]);
      if t[0] == '"' {
        assert StartsWith(t, "\"") by { assert t[..1] == [t[0]]; }
        assert ReplaceAll(t, "\"", "\\\"") == "\\\"" + rest;
        var e := "\\\"" + rest;
        assert StartsWith(e, "\\\"") by { assert e[..2] == "\\\""; }
        assert e[2..] == rest;
      } else {
        assert !StartsWith(t, "\"") by { assert t[..1] == [t[0]]; }
        assert ReplaceAll(t, "\"", "\\\"") == [t[0]] + rest;
        var e := [t[0]] + rest;
        assert !StartsWith(e, "\\\"") by { if |e| >= 2 { assert e[..2][0] == t[0]; } }
        assert e[1..] == rest;
      }
    }
  }
}
