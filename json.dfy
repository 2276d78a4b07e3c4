/** JSON-like values as the system handles them after `response.json()`. */
module Json {
  import opened Text

  /** A parsed JSON document. Numbers are integers; objects are keyed by field name. */
  datatype Json =
    | Null
    | Bool(b: bool)
    | Number(n: int)
    | String(s: string)
    | Array(items: seq<Json>)
    | Object(fields: map<string, Json>)

  /** Python truthiness of the value (`if value:`). */
  predicate Truthy(j: Json) {
    match j
    case Null => false
    case Bool(b) => b
    case Number(n) => n != 0
    case String(s) => s != ""
    case Array(items) => items != []
    case Object(fields) => fields != map[]
  }

  /** `value.get(key)`: the field's value, `Null` when the field is missing.
      A value that is not an object is read as having no fields. */
  function Get(j: Json, key: string): Json {
    if j.Object? && key in j.fields then j.fields[key] else Null
  }

  /** Python's `a or b`. */
  function Or(a: Json, b: Json): Json {
    if Truthy(a) then a else b
  }

  /** `str(value)` for the scalar values; lists and objects render as the
      empty string here (their `repr` is not modelled). */
  function Str(j: Json): string {
    match j
    case Null => "None"
    case Bool(b) => if b then "True" else "False"
    case Number(n) => IntToString(n)
    case String(s) => s
    case _ => ""
  }
}
