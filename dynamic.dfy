/** A dynamically typed Go value (`any`, `interface{}`) as it appears in the
    flat product map and in decoded GraphQL/JSON responses. JSON numbers are
    kept as integers: no part of the model inspects them. */
module Dynamic {

  /** Go's `byte`. */
  type byte = b: int | 0 <= b < 256

  datatype Value =
    | Str(s: string)
    | Num(n: int)
    | Bool(b: bool)
    | Null
    | List(items: seq<Value>)
    | Object(fields: map<string, Value>)
}
