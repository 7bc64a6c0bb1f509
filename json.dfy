/**
  JSON values as `response.json()` produces them, and the few JavaScript
  conversions the pages apply to them: truthiness, property reads,
  `String(v)`, assignment to `textContent`, and `JSON.stringify(v, null, 2)`.
*/
module Json {
  import opened Text

  /**
    A parsed JSON value. Numbers are integers; an object lists its own
    properties in the order `Object.entries` yields them (the parser keeps
    one entry per key).
  */
  datatype Value =
    | Null
    | Bool(b: bool)
    | Num(n: int)
    | Str(s: string)
    | Arr(items: seq<Value>)
    | Obj(fields: seq<Field>)

  datatype Field = Field(key: string, value: Value)

  /** The result of reading a property in JavaScript: a value, or `undefined`. */
  datatype Prop = Undefined | Defined(value: Value)

  /** JavaScript `ToBoolean` on a JSON value. */
  predicate Truthy(v: Value) {
    match v
    case Null => false
    case Bool(b) => b
    case Num(n) => n != 0
    case Str(s) => s != ""
    case Arr(_) => true
    case Obj(_) => true
  }

  /** `ToBoolean` on a property read; `undefined` is falsy. */
  predicate PropTruthy(p: Prop) {
    p.Defined? && Truthy(p.value)
  }

  /** The value of the first entry stored under `key`, if any. */
  function Lookup(fields: seq<Field>, key: string): Prop {
    if fields == [] then Undefined
    else if fields[0].key == key then Defined(fields[0].value)
    else Lookup(fields[1..], key)
  }

  /** A property read finds a value exactly when some entry has the key, and then it is that entry's value. */
  lemma {:induction false} LookupFinds(fields: seq<Field>, key: string)
    ensures Lookup(fields, key).Defined? <==> exists k :: 0 <= k < |fields| && fields[k].key == key
    ensures Lookup(fields, key).Defined? ==>
      exists k :: 0 <= k < |fields| && fields[k] == Field(key, Lookup(fields, key).value)
  {
    if fields != [] && fields[0].key != key {
      LookupFinds(fields[1..], key);
      assert forall k :: 0 < k < |fields| ==> fields[k] == fields[1..][k - 1];
    }
  }

  /**
    `v.key` for a value that is not `null` (reading a property of `null`
    throws, and callers treat that case first). Only objects have the
    properties these pages read; strings, numbers, booleans and arrays
    answer `undefined`.
  */
  function Get(v: Value, key: string): Prop
    requires !v.Null?
  {
    if v.Obj? then Lookup(v.fields, key) else Undefined
  }

  /** `a || b` on property reads. */
  function Or(a: Prop, b: Prop): Prop {
    if PropTruthy(a) then a else b
  }

  /** Joins strings with a separator, as `Array.prototype.join` does. */
  function Join(parts: seq<string>, sep: string): string {
    if parts == [] then ""
    else if |parts| == 1 then parts[0]
    else parts[0] + sep + Join(parts[1..], sep)
  }

  /**
    `String(v)`: the text JavaScript makes of a value when it is
    concatenated to a string. Arrays join their elements with commas, with
    `null` elements as empty text; every object is `[object Object]`.
  */
  function ToText(v: Value): string
    decreases v
  {
    match v
    case Null => "null"
    case Bool(b) => if b then "true" else "false"
    case Num(n) => IntText(n)
    case Str(s) => s
    case Arr(items) =>
      Join(seq(|items|, i requires 0 <= i < |items| => if items[i].Null? then "" else ToText(items[i])), ",")
    case Obj(_) => "[object Object]"
  }

  /** The text a DOM node shows after `node.textContent = p`: `null` and `undefined` become empty. */
  function TextContent(p: Prop): string {
    match p
    case Undefined => ""
    case Defined(v) => if v.Null? then "" else ToText(v)
  }

  /** The text of `s + p` for a string `s`: `undefined` contributes the word `undefined`. */
  function ConcatText(p: Prop): string {
    match p
    case Undefined => "undefined"
    case Defined(v) => ToText(v)
  }

  // ---------------------------------------------------------------------
  // JSON.stringify(v, null, 2)
  // ---------------------------------------------------------------------

  function Indent(depth: nat): string {
    if depth == 0 then "" else Indent(depth - 1) + "  "
  }

  function HexDigit(d: nat): char
    requires d < 16
  {
    if d < 10 then ('0' as int + d) as char else ('a' as int + d - 10) as char
  }

  /** How `JSON.stringify` writes one character inside a string literal. */
  function EscapeChar(c: char): string {
    if c == '"' then "\\\""
    else if c == '\\' then "\\\\"
    else if c == '\U{0008}' then "\\b"
    else if c == '\U{000C}' then "\\f"
    else if c == '\n' then "\\n"
    else if c == '\r' then "\\r"
    else if c == '\t' then "\\t"
    else if (c as int) < 0x20 then "\\u00" + [HexDigit(c as int / 16), HexDigit(c as int % 16)]
    else [c]
  }

  function EscapeText(s: string): string {
    if s == [] then "" else EscapeChar(s[0]) + EscapeText(s[1..])
  }

  function Quote(s: string): string {
    "\"" + EscapeText(s) + "\""
  }

  /** `JSON.stringify(v, null, 2)` for a value nested `depth` levels deep. */
  function Serialize(v: Value, depth: nat): string
    decreases v
  {
    match v
    case Null => "null"
    case Bool(b) => if b then "true" else "false"
    case Num(n) => IntText(n)
    case Str(s) => Quote(s)
    case Arr(items) =>
      if items == [] then "[]"
      else
        "[\n"
        + Join(seq(|items|, i requires 0 <= i < |items| => Indent(depth + 1) + Serialize(items[i], depth + 1)), ",\n")
        + "\n" + Indent(depth) + "]"
    case Obj(fields) =>
      if fields == [] then "{}"
      else
        "{\n"
        + Join(seq(|fields|, i requires 0 <= i < |fields| =>
                 Indent(depth + 1) + Quote(fields[i].key) + ": " + Serialize(fields[i].value, depth + 1)), ",\n")
        + "\n" + Indent(depth) + "}"
  }

  /** `JSON.stringify(v, null, 2)` at the top level. */
  function Stringify(v: Value): string {
    Serialize(v, 0)
  }
}
