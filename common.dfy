/**
 * Values shared by every module of the model: the JavaScript values the core
 * passes around without looking inside, and the Option/Result wrappers used
 * for `undefined` and for thrown errors.
 */
module Common {

  datatype Option<T> = None | Some(value: T)

  /** The outcome of an operation that either returns a value or throws. */
  datatype Result<T, E> = Ok(value: T) | Err(error: E)

  /**
   * A JavaScript value, as far as the core inspects it. Numbers are integers;
   * an object is its own-property entries in insertion order.
   */
  datatype Value =
    | Undefined
    | Null
    | Bool(b: bool)
    | Num(n: int)
    | Str(s: string)
    | Arr(items: seq<Value>)
    | Obj(fields: seq<(string, Value)>)

  /** JavaScript truthiness (`if (v)`, `v || d`, `v && x`). */
  predicate Truthy(v: Value) {
    match v
    case Undefined => false
    case Null => false
    case Bool(b) => b
    case Num(n) => n != 0
    case Str(s) => s != ""
    case Arr(_) => true
    case Obj(_) => true
  }

  /** `v === undefined || v === null`, the test of `??` and of `compact`. */
  predicate Nullish(v: Value) {
    v.Undefined? || v.Null?
  }

  /** Property read `v[key]` on the own entries of an object; `undefined` otherwise. */
  function Get(v: Value, key: string): Value {
    match v
    case Obj(fields) => Lookup(fields, key)
    case _ => Undefined
  }

  /** The value of the first entry named `key`, or `undefined`. */
  function Lookup(fields: seq<(string, Value)>, key: string): Value {
    if fields == [] then Undefined
    else if fields[0].0 == key then fields[0].1
    else Lookup(fields[1..], key)
  }

  /** `v || d`. */
  function Or(v: Value, d: Value): Value {
    if Truthy(v) then v else d
  }

  const EmptyObject: Value := Obj([])
}
