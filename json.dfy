/** The JSON-like values that scripts, patterns and wire payloads are made of:
    what `json.loads` and `yaml.safe_load` produce, without floating point. */
module Json {
  import opened Wrappers

  datatype Json =
    | JNull
    | JBool(b: bool)
    | JInt(i: int)
    | JStr(s: string)
    | JArray(items: seq<Json>)
    | JObject(fields: map<string, Json>)
  {
    /** A value that is neither a mapping nor a list. */
    predicate IsScalar() {
      !JObject? && !JArray?
    }
  }

  /** `d.get(key)`: the value stored under `key`, or None. */
  function Get(d: map<string, Json>, key: string): (r: Option<Json>)
    ensures r.Some? <==> key in d
    ensures r.Some? ==> r.value == d[key]
  {
    if key in d then Some(d[key]) else None
  }
}
