/** Parsed JSON documents, as `JSON.parse` produces them. */
module JsonValues {

  datatype Json =
    | JNull
    | JBool(b: bool)
    | JNumber(n: int)
    | JString(s: string)
    | JArray(items: seq<Json>)
    | JObject(members: seq<(string, Json)>)
}
