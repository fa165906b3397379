/** JSON values as a request body is decoded and a reply body is encoded. */
module Json {

  datatype Value =
    | Null
    | Bool(b: bool)
    | Number(n: int)
    | Str(s: string)
    | Array(elems: seq<Value>)
    | Object(fields: map<string, Value>)

  /** A stored item: one JSON object, keyed by field name. */
  type Item = map<string, Value>
}
