/** Decoded JSON values as the WordPress client receives them from
    `response.json()`, and the dictionary operations the client uses. */
module Json {

  /** A decoded JSON document. Numbers are integers only. */
  datatype Value =
    | Null
    | Bool(b: bool)
    | Num(n: int)
    | Str(s: string)
    | Arr(items: seq<Value>)
    | Obj(fields: map<string, Value>)

  /** A JSON object: a Python `Mapping[str, object]`. */
  type Object = map<string, Value>

  /** Python's `mapping.get(key)`: the value at `key`, or `None` when absent. */
  function Get(o: Object, key: string): Value
  {
    if key in o then o[key] else Null
  }
}
