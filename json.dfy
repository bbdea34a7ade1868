/** The generic value that JSON response bodies decode to before they are
    mapped onto records: Go's `interface{}` tree as `encoding/json` builds it. */
module Json {

  /** JSON numbers are modelled as integers (the decoder's float64 is left out). */
  datatype Json =
    | Null
    | Bool(b: bool)
    | Number(n: int)
    | Str(s: string)
    | List(items: seq<Json>)
    | Object(fields: map<string, Json>)

  /** Indexing a decoded object in Go: a missing key and an explicit JSON null
      both read as nil. */
  function Lookup(m: map<string, Json>, key: string): Json
  {
    if key in m then m[key] else Null
  }

  /** The service's error envelope: an object whose `type` is the string "error". */
  predicate IsErrorEnvelope(v: Json)
  {
    v.Object? && Lookup(v.fields, "type") == Str("error")
  }
}
