/**
 * The JSON values a request body can carry, as far as the handlers can tell
 * them apart: `None`, a string, an object, or anything else (a number, a
 * boolean or an array), of which only its Python truthiness matters.
 */
module Json {

  datatype Value =
    | Null
    | Str(s: string)
    | Obj(fields: map<string, Value>)
    | Other(truthy: bool)

  /** Python truthiness, as used by `x or default`. */
  predicate Truthy(v: Value)
  {
    match v
    case Null => false
    case Str(s) => s != ""
    case Obj(m) => |m| > 0
    case Other(t) => t
  }
}
