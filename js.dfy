/**
 The fragment of JavaScript's value semantics that the sync decorator relies on:
 values, truthiness, property access, `typeof`, `String.prototype.indexOf`,
 thrown errors and the completion of a call.
 */
module Js {

  datatype Option<+T> = None | Some(value: T)

  /** JavaScript values. Arrays are objects whose keys are indices; a function
      value is identified by `id` and, like any object, carries properties
      (a constructor's `prototype`, say). */
  datatype Value =
    | Undefined
    | Null
    | Bool(b: bool)
    | Number(n: int)
    | Str(s: string)
    | Object(props: map<string, Value>)
    | Function(id: nat, props: map<string, Value>)

  /** The errors a statement can throw. */
  datatype JsError = TypeError(message: string) | Error(message: string)

  /** Either a value or the error thrown while computing it. */
  datatype Result<+T> = Ok(value: T) | Err(error: JsError)

  /** How a call ends: it returns a value or throws. */
  datatype Completion = Returned(value: Value) | Threw(error: JsError)

  /** `if (v)`: false, 0, "", null and undefined are falsy, everything else truthy. */
  predicate Truthy(v: Value) {
    match v
    case Undefined | Null => false
    case Bool(b) => b
    case Number(n) => n != 0
    case Str(s) => s != ""
    case Object(_) | Function(_, _) => true
  }

  /** The property `key` of `v` when `v` is not null or undefined; a property
      that is missing reads as undefined. */
  function Prop(v: Value, key: string): Value {
    match v
    case Object(p) => if key in p then p[key] else Undefined
    case Function(_, p) => if key in p then p[key] else Undefined
    case _ => Undefined
  }

  /** `v[key]` as an expression: reading a property of null or undefined throws. */
  function GetProperty(v: Value, key: string): (r: Result<Value>)
    ensures r.Err? <==> v.Undefined? || v.Null?
    ensures r.Ok? ==> r.value == Prop(v, key)
  {
    if v.Undefined? || v.Null? then Err(TypeError("Cannot read properties of null or undefined"))
    else Ok(Prop(v, key))
  }

  /** `sub` occurs in `s` starting at position `k`. */
  predicate OccursAt(s: string, sub: string, k: int) {
    0 <= k && k + |sub| <= |s| && s[k..k + |sub|] == sub
  }

  /** `s.indexOf(sub)`: the first position at which `sub` occurs in `s`, or -1. */
  function IndexOf(s: string, sub: string): (r: int)
    ensures r == -1 || OccursAt(s, sub, r)
    ensures r == -1 <==> forall k :: 0 <= k <= |s| ==> !OccursAt(s, sub, k)
    ensures forall k :: 0 <= k < r ==> !OccursAt(s, sub, k)
  {
    IndexOfFrom(s, sub, 0)
  }

  /** The first position at or after `from` at which `sub` occurs in `s`, or -1. */
  function IndexOfFrom(s: string, sub: string, from: nat): (r: int)
    requires from <= |s|
    ensures r == -1 || (from <= r && OccursAt(s, sub, r))
    ensures r == -1 <==> forall k :: from <= k <= |s| ==> !OccursAt(s, sub, k)
    ensures forall k :: from <= k < r ==> !OccursAt(s, sub, k)
    decreases |s| - from
  {
    if OccursAt(s, sub, from) then from
    else if from + |sub| >= |s| then -1
    else IndexOfFrom(s, sub, from + 1)
  }
}
