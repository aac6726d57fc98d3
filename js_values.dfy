/**
 * The JavaScript values that the core inspects: what `!x`, `x || d`,
 * `typeof x === 'string'` and `===` see of them.
 */
module JsValues {

  datatype Value =
    | Undefined
    | Null
    | Bool(b: bool)
    | Num(n: real)
    | NaN
    | Str(s: string)
    | Arr(items: seq<Value>)
    | Obj(fields: map<string, Value>)
    | Date(ms: int)

  /** A plain object literal; a missing key reads as `undefined`. */
  type Object = map<string, Value>

  function Get(o: Object, key: string): Value {
    if key in o then o[key] else Undefined
  }

  /** JavaScript truthiness: `false`, `0`, `NaN`, `""`, `null` and `undefined` are falsy. */
  predicate Truthy(v: Value) {
    match v
    case Undefined => false
    case Null => false
    case Bool(b) => b
    case Num(n) => n != 0.0
    case NaN => false
    case Str(s) => s != ""
    case _ => true
  }

  /** `a || b`: the left operand when it is truthy, otherwise the right one. */
  function Or(a: Value, b: Value): Value {
    if Truthy(a) then a else b
  }

  /**
   * `a === b` on the values the core compares (identifiers read from storage).
   * Arrays and objects are compared by reference in JavaScript; two values
   * that arrive from separate reads are distinct objects, so they are never
   * strictly equal here.
   */
  predicate StrictEq(a: Value, b: Value) {
    a == b && a != NaN && !a.Arr? && !a.Obj?
  }

  /** `x || d` with a truthy default is always truthy, and applying it twice changes nothing. */
  lemma OrDefault(a: Value, d: Value)
    requires Truthy(d)
    ensures Truthy(Or(a, d))
    ensures Or(Or(a, d), d) == Or(a, d)
    ensures Truthy(a) ==> Or(a, d) == a
  {
  }
}
