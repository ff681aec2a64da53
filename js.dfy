/** JavaScript values as the installer and the identity cache see them: the
    handful of dynamic shapes an option may take, their truthiness, and the
    Option/Outcome wrappers that stand for `undefined` results and thrown errors. */
module Js {

  /** A value that may be missing (`undefined` in the source). */
  datatype Option<T> = None | Some(value: T) {
    function GetOr(default: T): T {
      match this
      case Some(v) => v
      case None => default
    }
  }

  /** Normal completion, or an exception carrying `error`. */
  datatype Outcome<E> = Pass | Fail(error: E)

  /** A dynamically typed JavaScript value. Numbers are integers here. */
  datatype Value =
    | Undefined
    | Null
    | Bool(b: bool)
    | Num(n: int)
    | Str(s: string)
    | Obj(fields: map<string, Value>)

  /** A plain object: property name to value. A missing key reads as `undefined`. */
  type Record = map<string, Value>

  /** `record[key]` */
  function Get(r: Record, key: string): Value {
    if key in r then r[key] else Undefined
  }

  /** The falsy values of the model: `undefined`, `null`, `false`, `0` and `""`. */
  predicate Falsy(v: Value) {
    v == Undefined || v == Null || v == Bool(false) || v == Num(0) || v == Str("")
  }

  /** JavaScript truthiness: `undefined`, `null`, `false`, `0` and `""` are
      falsy, every other value (every object included) is truthy. */
  predicate Truthy(v: Value)
    ensures Truthy(v) <==> !Falsy(v)
  {
    match v
    case Undefined => false
    case Null => false
    case Bool(b) => b
    case Num(n) => n != 0
    case Str(s) => s != ""
    case Obj(_) => true
  }

  /** `a || b`: the first operand when it is truthy, otherwise the second. */
  function Or(a: Value, b: Value): (v: Value)
    ensures Truthy(v) <==> Truthy(a) || Truthy(b)
    ensures v == a || v == b
    ensures Truthy(a) ==> v == a
    ensures !Truthy(a) ==> v == b
  {
    if Truthy(a) then a else b
  }
}
