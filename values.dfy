/** Decoded JSON values, the form in which the SDK sees response bodies and builds payloads. */
module Values {

  datatype Option<+T> = None | Some(value: T)

  /** A JSON document after `response.json()`; JNull is Python's None. Objects are dicts
      (their key order is not part of the model). */
  datatype Json =
    | JNull
    | JBool(b: bool)
    | JNum(n: real)
    | JStr(s: string)
    | JArr(items: seq<Json>)
    | JObj(fields: map<string, Json>)

  /** Python truthiness of a decoded value: None, False, 0, "", [] and {} are false. */
  predicate Truthy(j: Json) {
    match j
    case JNull => false
    case JBool(b) => b
    case JNum(n) => n != 0.0
    case JStr(s) => s != ""
    case JArr(xs) => xs != []
    case JObj(m) => m != map[]
  }

  /** `d.get(key, default)` on a dict. */
  function Get(d: map<string, Json>, key: string, default: Json): Json {
    if key in d then d[key] else default
  }

  /** An Optional[str] argument that Python reads as true: present and non-empty. */
  predicate Given(o: Option<string>) {
    o.Some? && o.value != ""
  }
}
