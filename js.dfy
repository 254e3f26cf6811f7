/**
 * The JavaScript values the toolkit inspects at run time: validators switch on
 * `typeof`, dispatch compares strings, and error marshalling reads `name` and
 * `message`. Objects are finite maps from property names to values; their
 * prototype chain is not modelled. A function value is known only by an
 * abstract identity.
 */
module Js {
  import opened Wrappers

  datatype Value =
    | Undefined
    | Null
    | Bool(b: bool)
    | Num(n: int)          // any number other than NaN
    | NaN
    | Str(s: string)
    | Arr(items: seq<Value>)
    | Obj(fields: map<string, Value>)
    | Func(fid: nat)
    | Err(name: string, message: string)   // an instance of Error

  type Object = map<string, Value>

  /** Property read `o[k]`: a missing property reads as `undefined`. */
  function Get(o: Object, k: string): (v: Value)
    ensures k !in o ==> v == Undefined
    ensures k in o ==> v == o[k]
  {
    if k in o then o[k] else Undefined
  }

  /** JavaScript truthiness. */
  predicate Truthy(v: Value) {
    match v
    case Undefined => false
    case Null => false
    case Bool(b) => b
    case Num(n) => n != 0
    case NaN => false
    case Str(s) => s != ""
    case _ => true
  }

  predicate IsString(v: Value) { v.Str? }

  predicate IsFunction(v: Value) { v.Func? }

  predicate IsArray(v: Value) { v.Arr? }

  /** `v instanceof Error` */
  predicate IsError(v: Value) { v.Err? }

  /**
   * Property read `v.p` on an arbitrary value: `None` when the read throws
   * (on `null` or `undefined`), `undefined` for a property a primitive lacks.
   */
  function Prop(v: Value, p: string): (r: Option<Value>)
    ensures r.None? <==> (v.Undefined? || v.Null?)
  {
    match v
    case Undefined => None
    case Null => None
    case Obj(fields) => Some(Get(fields, p))
    case Err(name, message) =>
      Some(if p == "name" then Str(name) else if p == "message" then Str(message) else Undefined)
    case _ => Some(Undefined)
  }

  /** A new Error whose `name` and `message` are both `tag`, as the toolkit's own error classes are. */
  function Tagged(tag: string): (e: Value)
    ensures e.Err? && e.name == tag && e.message == tag
  {
    Err(tag, tag)
  }

  /** A plain `Error` with the given message. */
  function PlainError(message: string): (e: Value)
    ensures e.Err? && e.name == "Error" && e.message == message
  {
    Err("Error", message)
  }

  /** A `TypeError` with the given message. */
  function TypeError(message: string): (e: Value)
    ensures e.Err? && e.name == "TypeError" && e.message == message
  {
    Err("TypeError", message)
  }

  /** The decimal digits of a natural number. */
  function NatToString(n: nat): (s: string)
    ensures |s| >= 1
    decreases n
  {
    if n < 10 then ["0123456789"[n]] else NatToString(n / 10) + ["0123456789"[n % 10]]
  }

  /**
   * `String(v)`, as a template literal or a property key converts a value.
   * A function's source text is not modelled: every function reads as "function".
   */
  function ToString(v: Value): (s: string)
    ensures v.Str? ==> s == v.s
    decreases v
  {
    match v
    case Undefined => "undefined"
    case Null => "null"
    case Bool(b) => if b then "true" else "false"
    case Num(n) => if n < 0 then "-" + NatToString(-n) else NatToString(n)
    case NaN => "NaN"
    case Str(s) => s
    case Arr(items) => JoinItems(items)
    case Obj(_) => "[object Object]"
    case Func(_) => "function"
    case Err(name, message) =>
      if name == "" then message else if message == "" then name else name + ": " + message
  }

  /** `items.join(",")`, where `undefined` and `null` elements read as empty. */
  function JoinItems(items: seq<Value>): string
    decreases items
  {
    if |items| == 0 then ""
    else
      var head := if items[0].Undefined? || items[0].Null? then "" else ToString(items[0]);
      if |items| == 1 then head else head + "," + JoinItems(items[1..])
  }
}
