/** The JavaScript values that the utilities in lib/utils.ts inspect. */
module JsValues {

  /**
   * A JavaScript value. Numbers are integers here; `Obj` is a plain object
   * with its own enumerable string keys.
   */
  datatype JsValue =
    | Undefined
    | Null
    | Bool(b: bool)
    | Num(n: int)
    | Str(s: string)
    | Obj(fields: map<string, JsValue>)

  /** JavaScript truthiness: `undefined`, `null`, `false`, `0` and `""` are falsy. */
  predicate Truthy(v: JsValue)
  {
    match v
    case Undefined => false
    case Null => false
    case Bool(b) => b
    case Num(n) => n != 0
    case Str(s) => s != ""
    case Obj(_) => true
  }

  /** `typeof v === "object"`, which holds for `null` as well as for objects. */
  predicate TypeofObject(v: JsValue)
  {
    v.Null? || v.Obj?
  }

  /** `v == null` with loose equality: true of `null` and of `undefined`. */
  predicate IsNullish(v: JsValue)
  {
    v.Undefined? || v.Null?
  }
}
