/**
 * The values a log message's fields may hold, as `encoding/json` encodes a
 * Go `interface{}`: nil, booleans, integers, strings, slices and nested
 * string-keyed maps. Floating-point numbers are not modelled.
 */
module Json {
  datatype Value =
    | Null
    | Bool(b: bool)
    | Int(i: int)
    | Str(s: string)
    | Array(items: seq<Value>)
    | Object(members: map<string, Value>)
}
