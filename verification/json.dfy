/**
 * The decoded shape of a JSON document, as encoding/json produces it into `any`:
 * objects, arrays, strings, and the remaining scalars as `JOther`. encoding/json
 * decodes every number as a float64; `JNumber` holds the integral ones, such as the
 * encoded max_tokens and n_predict, and a non-integral number decodes to `JOther`
 * along with true, false and null. No check of a reply reads a number.
 */
module Json {
  import opened Wrappers

  datatype Json =
    | JObject(fields: map<string, Json>)
    | JArray(items: seq<Json>)
    | JString(str: string)
    | JNumber(num: int)
    | JOther

  /** Indexing a Go map[string]any: a missing key reads as nil. */
  function Field(fields: map<string, Json>, key: string): (r: Option<Json>)
    ensures r.Some? <==> key in fields
    ensures r.Some? ==> r.value == fields[key]
  {
    if key in fields then Some(fields[key]) else None
  }
}
