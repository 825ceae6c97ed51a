/** JSON-compatible values as the bridge passes them around: tool payloads,
    response bodies, audit payloads and error details. */
module Json {

  /** A decoded JSON value. Objects map string keys to values; numbers are
      integers (floating-point values are not part of this model). */
  datatype Value =
    | Null
    | Bool(b: bool)
    | Num(n: int)
    | Str(s: string)
    | List(items: seq<Value>)
    | Object(fields: map<string, Value>)

  /** Python truthiness of the corresponding Python value: None, False, 0,
      "", [] and {} are false, everything else is true. */
  predicate Truthy(v: Value) {
    match v
    case Null => false
    case Bool(b) => b
    case Num(n) => n != 0
    case Str(s) => s != ""
    case List(xs) => xs != []
    case Object(m) => m != map[]
  }

  /** Python's `a or b`. */
  function Or(a: Value, b: Value): (r: Value)
    ensures Truthy(a) ==> r == a
    ensures !Truthy(a) ==> r == b
  {
    if Truthy(a) then a else b
  }
}
