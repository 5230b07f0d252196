/** The parsed JSON document that the generator walks.
    An object is an ordered sequence of key/value pairs, so that the order in
    which the generator visits the keys is explicit; a Swift dictionary's
    iteration order is unspecified, and any fixed order is one it may take. */
module JsonData {

  datatype Json =
    | JNull
    | JBool(b: bool)
    | JInt(i: int)
    | JDouble(d: real)
    | JString(s: string)
    | JArray(items: seq<Json>)
    | JObject(fields: seq<(string, Json)>)
}
