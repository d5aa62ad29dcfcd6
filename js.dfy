/** The few pieces of JavaScript semantics the tool server relies on, applied to
    parsed JSON values. */
module JsSemantics {
  import opened Wrappers
  import opened Json

  /** `typeof v` for a parsed JSON value: `null` and arrays are "object" too. */
  function TypeOf(v: Json): string {
    match v
    case JBool(_) => "boolean"
    case JNum(_) => "number"
    case JStr(_) => "string"
    case _ => "object"
  }

  /** Truthiness: `null`, `false`, `0` and `""` are falsy, everything else,
      including `{}` and `[]`, is truthy. */
  predicate Truthy(v: Json) {
    match v
    case JNull => false
    case JBool(b) => b
    case JNum(n) => n != 0
    case JStr(s) => s != ""
    case _ => true
  }

  /** The property read `v.key` on a value that is not `null`: an own member
      of an object, `undefined` (None) otherwise. None of the keys read by the
      server names a property that arrays, strings, numbers, booleans or
      `Object.prototype` have. Reading a property of `null` throws; this
      function answers None there, and the handler decides separately
      whether such a read throws. */
  function Prop(v: Json, key: string): Option<Json> {
    if v.JObj? && key in v.fields then Some(v.fields[key]) else None
  }

  /** `String(v)`, the conversion a template literal applies; None when it
      throws a TypeError ("Cannot convert object to primitive value"). A parsed
      object converts through `Object.prototype.toString` unless it has an
      own member named `toString`, which is then not callable, and
      `valueOf` gives back the object itself, so the conversion throws. An
      array converts by joining its elements with commas, `null` elements
      giving the empty string. Numbers are written with `Decimal`, which
      matches JavaScript below 2^53. */
  function ToJsString(v: Json): (r: Option<string>)
    ensures v.JStr? ==> r == Some(v.s)
    ensures v.JObj? ==> (r.None? <==> "toString" in v.fields)
    ensures !v.JArr? && !v.JObj? ==> r.Some?
    decreases v
  {
    match v
    case JNull => Some("null")
    case JBool(b) => Some(if b then "true" else "false")
    case JNum(n) => Some(Decimal(n))
    case JStr(s) => Some(s)
    case JObj(m) => if "toString" in m then None else Some("[object Object]")
    case JArr(items) => JoinElements(items)
  }

  /** `Array.prototype.join(",")` over the elements of an array. */
  function JoinElements(items: seq<Json>): (r: Option<string>)
    ensures r.None? <==> exists k :: 0 <= k < |items| && !items[k].JNull? && ToJsString(items[k]).None?
    decreases items
  {
    if items == [] then Some("")
    else
      var head := if items[0].JNull? then Some("") else ToJsString(items[0]);
      var tail := JoinElements(items[1..]);
      assert forall k :: 1 <= k < |items| ==> items[k] == items[1..][k - 1];
      if head.None? || tail.None? then None
      else if |items| == 1 then head
      else Some(head.value + "," + tail.value)
  }

  /** The escaped form of one character inside a string that `JSON.stringify`
      writes: quote and backslash get a backslash, the control characters with
      a short escape use it, the other control characters below U+0020 are
      written as `\u00` and two lower-case hex digits. */
  function EscapeChar(c: char): (r: string)
    ensures |r| >= 1
    ensures r == [c] <==> (c != '"' && c != '\\' && c as int >= 0x20)
    ensures !(c != '"' && c != '\\' && c as int >= 0x20) ==> |r| >= 2 && r[0] == '\\'
  {
    if c == '"' then "\\\""
    else if c == '\\' then "\\\\"
    else if c == '\n' then "\\n"
    else if c == '\r' then "\\r"
    else if c == '\t' then "\\t"
    else if c as int == 8 then "\\b"
    else if c as int == 12 then "\\f"
    else if c as int < 0x20 then "\\u00" + ["0123456789abcdef"[c as int / 16], "0123456789abcdef"[c as int % 16]]
    else [c]
  }

  function Escape(s: string): (r: string)
    ensures |r| >= |s|
    decreases s
  {
    if s == [] then "" else EscapeChar(s[0]) + Escape(s[1..])
  }

  /** A character `JSON.stringify` writes as it is. */
  predicate Plain(c: char) {
    c != '"' && c != '\\' && c as int >= 0x20
  }

  /** A string of plain characters is written unchanged between the quotes. */
  lemma {:induction false} PlainTextIsNotEscaped(s: string)
    requires forall i :: 0 <= i < |s| ==> Plain(s[i])
    ensures Escape(s) == s
    decreases s
  {
    if s != [] {
      assert forall i :: 0 <= i < |s[1..]| ==> s[1..][i] == s[i + 1];
      PlainTextIsNotEscaped(s[1..]);
      assert s == [s[0]] + s[1..];
    }
  }

  /** `JSON.stringify(s)` for a string `s`. */
  function Quote(s: string): (r: string)
    ensures |r| >= |s| + 2 && r[0] == '"' && r[|r| - 1] == '"'
  {
    "\"" + Escape(s) + "\""
  }
}
