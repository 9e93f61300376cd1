/**
  The JavaScript values the extension handles: the loosely typed payloads the browser hands
  to the request listeners, the request records the popup stores, and the operators the code
  applies to them (truthiness, `||` fallback, property access, `===`, `String(...)`).
  Numbers are modelled as integers.
 */
module JsValue {

  datatype Value =
    | Undefined
    | Null
    | Bool(b: bool)
    | Num(n: int)
    | Str(s: string)
    | Bytes(data: seq<bv8>)          // an ArrayBuffer, such as `raw[0].bytes`
    | Arr(items: seq<Value>)
    | Obj(fields: map<string, Value>)

  /** A request record or fragment: a plain object. */
  type Record = map<string, Value>

  /** JavaScript truthiness: `undefined`, `null`, `false`, `0` and `''` are falsy. */
  predicate Truthy(v: Value) {
    match v
    case Undefined => false
    case Null => false
    case Bool(b) => b
    case Num(n) => n != 0
    case Str(s) => s != ""
    case _ => true
  }

  /** `a || b` */
  function Or(a: Value, b: Value): (r: Value)
    ensures Truthy(a) ==> r == a
    ensures !Truthy(a) ==> r == b
  {
    if Truthy(a) then a else b
  }

  /** `typeof v === 'object'` (which holds of `null` too). */
  predicate TypeofObject(v: Value) {
    v.Null? || v.Bytes? || v.Arr? || v.Obj?
  }

  /** Primitive values: the ones `===` compares by value. */
  predicate Primitive(v: Value) {
    v.Undefined? || v.Null? || v.Bool? || v.Num? || v.Str?
  }

  /**
    `a === b`. Objects are compared by reference in JavaScript; every object reaching the
    popup is a fresh copy made by message passing, so two of them are never the same object.
   */
  predicate StrictEq(a: Value, b: Value) {
    a == b && Primitive(a)
  }

  /** Property read `r.key` on a record. */
  function Get(r: Record, key: string): Value {
    if key in r then r[key] else Undefined
  }

  /** Property read `v.key`; only objects carry the properties the extension reads. */
  function Prop(v: Value, key: string): Value {
    if v.Obj? then Get(v.fields, key) else Undefined
  }

  /** Element read `v[i]` on an array. */
  function At(v: Value, i: nat): Value {
    if v.Arr? && i < |v.items| then v.items[i] else Undefined
  }

  /** `Object.keys(v).length` for an object. */
  function KeyCount(v: Value): nat {
    match v
    case Obj(m) => |m|
    case Arr(items) => |items|
    case _ => 0
  }

  function DigitChar(d: nat): char
    requires d < 10
  {
    "0123456789"[d]
  }

  function NatToString(n: nat): (s: string)
    ensures |s| > 0
    decreases n
  {
    if n < 10 then [DigitChar(n)] else NatToString(n / 10) + [DigitChar(n % 10)]
  }

  /** The decimal form of a number, as `String(n)` prints an integer. */
  function IntToString(n: int): (s: string)
    ensures |s| > 0
  {
    if n < 0 then "-" + NatToString(-n) else NatToString(n)
  }

  function Join(parts: seq<string>, sep: string): string {
    if |parts| == 0 then ""
    else if |parts| == 1 then parts[0]
    else parts[0] + sep + Join(parts[1..], sep)
  }

  /** `String(v)`; an array prints its elements joined by commas, with null and undefined as ''. */
  function ToStr(v: Value): string
    decreases v
  {
    match v
    case Undefined => "undefined"
    case Null => "null"
    case Bool(b) => if b then "true" else "false"
    case Num(n) => IntToString(n)
    case Str(s) => s
    case Bytes(_) => "[object ArrayBuffer]"
    case Obj(_) => "[object Object]"
    case Arr(items) =>
      Join(seq(|items|, i requires 0 <= i < |items| =>
        if items[i].Null? || items[i].Undefined? then "" else ToStr(items[i])), ",")
  }

  /** `safeToString` (popup.js): '' for null and undefined, `String(value)` otherwise. */
  function SafeToString(v: Value): (r: string)
    ensures v.Null? || v.Undefined? ==> r == ""
    ensures v.Str? ==> r == v.s
    ensures v.Num? ==> r != ""
  {
    if v.Null? || v.Undefined? then "" else ToStr(v)
  }

  /** `toLowerCase`, folded on ASCII letters only. */
  function LowerChar(c: char): char {
    if 'A' <= c <= 'Z' then (c as int + 32) as char else c
  }

  function Lower(s: string): (r: string)
    ensures |r| == |s|
  {
    seq(|s|, i requires 0 <= i < |s| => LowerChar(s[i]))
  }

  /** `sub` occurs in `s` starting at index `i`. */
  predicate OccursAt(s: string, sub: string, i: int) {
    0 <= i <= |s| - |sub| && s[i..i + |sub|] == sub
  }

  /** `s.includes(sub)` */
  predicate Contains(s: string, sub: string) {
    exists i | 0 <= i <= |s| :: OccursAt(s, sub, i)
  }

  lemma ContainsEmpty(s: string)
    ensures Contains(s, "")
  {
    assert OccursAt(s, "", 0);
  }
}
