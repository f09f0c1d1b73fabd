/**
 * An abstract JSON value: what `response.json()` hands to the decoders.
 * Objects are maps from keys to values, so key order and duplicate keys
 * play no part.
 */
module Json {

  datatype Json =
    | JNull
    | JBool(b: bool)
    | JNumber(n: int)
    | JString(s: string)
    | JArray(items: seq<Json>)
    | JObject(fields: map<string, Json>)
}
