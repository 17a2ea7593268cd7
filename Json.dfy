/** JSON values as Python's `json.loads` returns them, with Python's truthiness and `dict.get`. */
module Json {
  import opened Wrappers

  /** Numbers are modelled as reals: Python's `0` and `0.0` are both `JNumber(0.0)`. */
  datatype Json =
    | JNull
    | JBool(b: bool)
    | JNumber(x: real)
    | JString(s: string)
    | JArray(items: seq<Json>)
    | JObject(fields: map<string, Json>)

  /** Python's truth value of a decoded JSON value (`if not v` fails exactly on these). */
  predicate Truthy(j: Json) {
    match j
    case JNull => false
    case JBool(b) => b
    case JNumber(x) => x != 0.0
    case JString(s) => s != ""
    case JArray(xs) => xs != []
    case JObject(m) => m != map[]
  }

  /** `d.get(k)`: a missing key gives None, and so does a JSON null, which decodes to Python's None. */
  function Get(m: map<string, Json>, k: string): (r: Option<Json>)
    ensures r == None <==> k !in m || m[k] == JNull
    ensures r != None ==> k in m && r.value == m[k] && r.value != JNull
  {
    if k in m && m[k] != JNull then Some(m[k]) else None
  }
}
