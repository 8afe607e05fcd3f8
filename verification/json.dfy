/**
 * JSON-like values as they travel through the backend: tool arguments, tool outputs,
 * continuation payloads. Numbers are integers only; serialisation (`json.dumps`) is a
 * parameter of the model, never defined here.
 */
module Json {

  datatype Value =
    | Null
    | Bool(b: bool)
    | Num(n: int)
    | Str(s: string)
    | Arr(items: seq<Value>)
    | Obj(fields: map<string, Value>)

  /** Python truthiness of a decoded JSON value (`if v:` / `v or ...`). */
  predicate Truthy(v: Value) {
    match v
    case Null => false
    case Bool(b) => b
    case Num(n) => n != 0
    case Str(s) => s != ""
    case Arr(items) => items != []
    case Obj(fields) => fields != map[]
  }

  /** `m.get(k)` on a decoded JSON object, `None` mapped to `Null`. */
  function GetField(m: map<string, Value>, k: string): Value {
    if k in m then m[k] else Null
  }
}
