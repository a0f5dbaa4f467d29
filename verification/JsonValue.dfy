/** JSON documents.  Numbers are the integers; object members are keyed, hence unique. */
module JsonValue {
  datatype Json =
    | Null
    | Bool(b: bool)
    | Number(n: int)
    | String(s: string)
    | Array(items: seq<Json>)
    | Object(fields: map<string, Json>)
}
