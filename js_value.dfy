/**
 * JavaScript values as they arrive in a parsed JSON request body and as they
 * are stored in the item array: plain objects are records from property
 * names to values. Numbers are integers (floating point, NaN and -0 are not
 * modelled).
 */
module JsValue {

  datatype JsVal =
    | Str(s: string)
    | Num(n: int)
    | Bool(b: bool)
    | Null
    | Undefined
    | Arr(elems: seq<JsVal>)
    | Obj(fields: map<string, JsVal>)

  /** A plain object: its own enumerable properties. */
  type Record = map<string, JsVal>

  /** JavaScript truthiness, the negation of what `!x` tests. */
  predicate Truthy(v: JsVal)
  {
    match v
    case Str(s) => s != ""
    case Num(n) => n != 0
    case Bool(b) => b
    case Null => false
    case Undefined => false
    case Arr(_) => true
    case Obj(_) => true
  }

  /** Property read `r.k`: a missing property reads as `undefined`. */
  function Get(r: Record, k: string): (v: JsVal)
    ensures k !in r ==> v == Undefined
    ensures k in r ==> v == r[k]
  {
    if k in r then r[k] else Undefined
  }
}
