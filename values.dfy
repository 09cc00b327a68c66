/** Values exchanged with the platform and kept in the store: the JSON-like
    dictionaries, strings, numbers and None of the agent, and
    Python's truth test on them. */
module Values {

  datatype Option<+T> = None | Some(value: T)

  /** A Python value as it crosses the tool boundary. Floating-point numbers
      are not modelled (see README). */
  datatype Value =
    | Null
    | Bool(b: bool)
    | Int(i: int)
    | Str(s: string)
    | List(items: seq<Value>)
    | Dict(entries: map<string, Value>)

  type Dict = map<string, Value>

  /** Python's `bool(v)`: None, False, 0 and empty containers are false. */
  predicate Truthy(v: Value) {
    match v
    case Null => false
    case Bool(b) => b
    case Int(i) => i != 0
    case Str(s) => s != ""
    case List(items) => items != []
    case Dict(entries) => entries != map[]
  }

  /** Python's `d.get(key, default)`. */
  function Get(d: Dict, key: string, default: Value): Value {
    if key in d then d[key] else default
  }

  /** `isinstance(v, dict) and key in v`. */
  predicate IsDictWith(v: Value, key: string) {
    v.Dict? && key in v.entries
  }
}
