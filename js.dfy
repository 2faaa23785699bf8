/** The slice of JavaScript's value semantics that the strategy relies on:
    truthiness (`if (x)`, `!x`, `a || b`), strict equality (`===`) and
    reading an own property of a plain object. */
module Js {

  datatype Option<+T> = None | Some(value: T)

  datatype Result<+R, +E> = Success(value: R) | Failure(error: E)

  /** A JavaScript value. Numbers are integers plus NaN; objects are known
      only by their identity. */
  datatype JsValue =
    | Undefined
    | Null
    | Bool(b: bool)
    | Num(n: int)
    | NaN
    | Str(s: string)
    | Obj(id: nat)

  /** JavaScript's ToBoolean: `false`, `0`, `NaN`, `""`, `null` and
      `undefined` are falsy, everything else is truthy. */
  predicate Truthy(v: JsValue) {
    match v
    case Undefined => false
    case Null => false
    case Bool(b) => b
    case Num(n) => n != 0
    case NaN => false
    case Str(s) => s != ""
    case Obj(_) => true
  }

  /** `a === b`: same type and same value, objects by identity, and NaN is
      not equal to itself. */
  function StrictEquals(a: JsValue, b: JsValue): (r: bool)
    ensures r <==> a == b && a != NaN
  {
    match (a, b)
    case (Undefined, Undefined) => true
    case (Null, Null) => true
    case (Bool(x), Bool(y)) => x == y
    case (Num(x), Num(y)) => x == y
    case (Str(x), Str(y)) => x == y
    case (Obj(x), Obj(y)) => x == y
    case _ => false
  }

  /** `a || b`: the first operand when it is truthy, else the second; the
      result is truthy exactly when one of the operands is. */
  function Or(a: JsValue, b: JsValue): (r: JsValue)
    ensures Truthy(r) <==> Truthy(a) || Truthy(b)
    ensures Truthy(a) ==> r == a
    ensures !Truthy(a) ==> r == b
  {
    if Truthy(a) then a else b
  }

  /** `obj[key]` on a plain object: an own property is read as it is, and
      a missing one reads as a falsy value (`undefined`). */
  function Lookup(obj: map<string, JsValue>, key: string): (r: JsValue)
    ensures key in obj ==> r == obj[key]
    ensures key !in obj ==> !Truthy(r)
  {
    if key in obj then obj[key] else Undefined
  }

  /** A value passed where the source expects a callback: either a function
      or some other value (which may still be truthy). */
  datatype Callable<F> = Function(f: F) | NonFunction(v: JsValue)

  /** `!cb` is false: functions are always truthy. */
  predicate Provided<F>(cb: Callable<F>) {
    cb.Function? || Truthy(cb.v)
  }
}
