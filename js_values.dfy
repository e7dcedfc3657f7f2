/**
  The JavaScript values that reach the options object of `words()`, and the
  coercions index.js applies to them (truthiness, isNaN, typeof).
  Numbers are integers; NaN is a value of its own.
 */
module JsValues {
  import opened Wrappers

  datatype JsValue =
    | Undefined
    | Null
    | Bool(b: bool)
    | Num(n: int)
    | NaN
    | Str(s: string)
    | Fn(f: (string, int) -> string)

  /** The own enumerable properties of a plain object. */
  type Props = map<string, JsValue>

  /** Reading a property: a key the object does not have reads as undefined. */
  function Get(props: Props, key: string): (v: JsValue) {
    if key in props then props[key] else Undefined
  }

  /** ToBoolean. */
  predicate Truthy(v: JsValue) {
    match v
    case Undefined => false
    case Null => false
    case Bool(b) => b
    case Num(n) => n != 0
    case NaN => false
    case Str(s) => s != ""
    case Fn(_) => true
  }

  /** ToNumber, with None for NaN. Every string is taken as non-numeric. */
  function NumberValue(v: JsValue): (n: Option<int>) {
    match v
    case Null => Some(0)
    case Bool(b) => Some(if b then 1 else 0)
    case Num(n) => Some(n)
    case _ => None
  }

  /** The global isNaN. */
  predicate IsNaN(v: JsValue) {
    NumberValue(v).None?
  }

  /** typeof v === "number" */
  predicate IsNumber(v: JsValue) {
    v.Num? || v.NaN?
  }
}
