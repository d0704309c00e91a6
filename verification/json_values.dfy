/** Decoded JSON values, as Python's `json.loads` and JavaScript's `JSON.parse` produce them. */
module JsonValues {

  datatype Json =
    | JNull
    | JBool(b: bool)
    | JNumber(n: real)
    | JString(s: string)
    | JArray(items: seq<Json>)
    | JObject(fields: map<string, Json>)

  /** Python's `dict.get(key)`: the stored value, or None (JSON null) when the key is absent. */
  function Get(fields: map<string, Json>, key: string): Json {
    if key in fields then fields[key] else JNull
  }
}
