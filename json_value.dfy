/** The values `json.loads` produces, as far as the backend inspects them. */
module JsonValue {

  /** A JSON number is kept as its literal text: the backend never computes with one. */
  datatype Json =
    | JNull
    | JBool(truth: bool)
    | JNumber(literal: string)
    | JString(str: string)
    | JArray(items: seq<Json>)
    | JObject(fields: map<string, Json>)

  /** Python's `isinstance(v, (dict, list))` for a parsed value. */
  predicate IsContainer(j: Json) {
    j.JArray? || j.JObject?
  }
}
