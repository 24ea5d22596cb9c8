/**
 * JSON values as they appear in request bodies, stored drink fields and
 * response envelopes. Numbers are integers only: every number the handlers
 * themselves produce (status codes, drink ids) is an integer; fractional
 * numbers in request bodies are not modelled.
 */
module JsonValue {

  datatype Option<+T> = None | Some(value: T)

  datatype Json =
    | JNull
    | JBool(b: bool)
    | JNum(n: int)
    | JStr(s: string)
    | JArr(items: seq<Json>)
    | JObj(fields: map<string, Json>)

  /** The value stored under `key` when `v` is an object that has that key. */
  function Member(v: Json, key: string): Option<Json>
  {
    if v.JObj? && key in v.fields then Some(v.fields[key]) else None
  }

  /** The keys of `v` when it is an object, and no keys otherwise. */
  function Keys(v: Json): (ks: set<string>)
    ensures forall k :: k in ks <==> Member(v, k).Some?
  {
    if v.JObj? then v.fields.Keys else {}
  }
}
