/**
 * The JSON value a response payload is made of, as it comes out of the
 * platform's JSON deserialiser (`[String: Any]`, `[Any]`, `String`, `Bool`,
 * numbers and null).
 */
module Json {
  import opened Wrappers

  datatype Json =
    | JObject(fields: map<string, Json>)
    | JArray(items: seq<Json>)
    | JString(str: string)
    | JBool(boolean: bool)
    | JOther  // numbers and null: never inspected by the engine

  /** `obj[key] as? String` */
  function StringAt(obj: map<string, Json>, key: string): (r: Option<string>)
    ensures r.Some? <==> key in obj && obj[key].JString?
    ensures r.Some? ==> obj[key] == JString(r.value)
  {
    if key in obj && obj[key].JString? then Some(obj[key].str) else None
  }

  /** `obj[key] as? JSON` */
  function ObjectAt(obj: map<string, Json>, key: string): (r: Option<map<string, Json>>)
    ensures r.Some? <==> key in obj && obj[key].JObject?
    ensures r.Some? ==> obj[key] == JObject(r.value)
  {
    if key in obj && obj[key].JObject? then Some(obj[key].fields) else None
  }

  /** `value as? [JSON]` succeeds only when every item is an obj. */
  predicate AllObjects(items: seq<Json>) {
    forall i :: 0 <= i < |items| ==> items[i].JObject?
  }
}
