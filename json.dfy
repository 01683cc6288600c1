/** The JSON document value (`serde_json::Value`, and simd-json's borrowed
    and owned values, whose static node covers the scalar variants). */
module Json {

  /** A JSON number; its payload (integer or float) plays no part in any
      adapter, so it is left abstract. */
  type Number(==)

  datatype Json =
    | Null
    | Bool(b: bool)
    | Num(n: Number)
    | Str(s: string)
    | Array(items: seq<Json>)
    | Object(fields: map<string, Json>)

  /** A JSON value that an adapter mutates in place through `&mut self`. */
  class Document {
    var value: Json

    constructor (j: Json)
      ensures value == j
    {
      value := j;
    }
  }
}
