/** The JSON values that travel in the body of the inquiry request. */
module Json {

  /** A JSON value. Numbers are kept to integers: no field of the inquiry is numeric. */
  datatype Json =
    | JNull
    | JBool(b: bool)
    | JNumber(n: int)
    | JString(s: string)
    | JArray(items: seq<Json>)
    | JObject(fields: map<string, Json>)

  /** The JSON array of strings that `JSON.stringify` produces for a list of strings. */
  function Strings(xs: seq<string>): (r: Json)
    ensures r.JArray? && |r.items| == |xs|
    ensures forall i :: 0 <= i < |xs| ==> r.items[i] == JString(xs[i])
  {
    JArray(seq(|xs|, i requires 0 <= i < |xs| => JString(xs[i])))
  }
}
