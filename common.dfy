/** Values shared by both scripts: an optional value, and the JSON documents
    that the exchange's endpoints answer with. */
module Common {

  /** A value that may be absent (Python's `None`). */
  datatype Option<T> = None | Some(value: T)

  /** A decoded JSON document. Numbers are integers: no floating point is modelled. */
  datatype Json =
    | JNull
    | JBool(b: bool)
    | JNumber(n: int)
    | JString(str: string)
    | JArray(items: seq<Json>)
    | JObject(obj: map<string, Json>)

  /** True when `j` is a JSON object whose `key` entry equals `v` (Python's `j.get(key) == v`). */
  predicate HasEntry(j: Json, key: string, v: Json)
  {
    j.JObject? && key in j.obj && j.obj[key] == v
  }
}
