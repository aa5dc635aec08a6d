/**
 * A parsed JSON document, as the keyed decoding container sees it: an object
 * is a map from key to value. Numbers are exact reals.
 */
module JsonValue {

  datatype Json =
    | JNull
    | JBool(b: bool)
    | JNumber(n: real)
    | JString(s: string)
    | JArray(items: seq<Json>)
    | JObject(fields: map<string, Json>)
}
