/** JSON values as they cross the boundaries of the core: tool inputs, tool results and input schemas. */
module Json {

  datatype Json =
    | JNull
    | JBool(b: bool)
    | JNumber(n: int)
    | JString(s: string)
    | JArray(items: seq<Json>)
    | JObject(fields: seq<(string, Json)>)

  /** The empty object `{}`. */
  const EmptyObject: Json := JObject([])
}
