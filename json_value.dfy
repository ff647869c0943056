/**
 * The value that Python's `json.loads` produces, and the nested dictionaries of the
 * extraction schema built from it.
 */
module JsonValue {
  import opened Text

  /**
   * A parsed JSON value: `None`, `bool`, `int`, `float`, `str`, `list` or `dict`.
   * A dict is a map, so the order of its keys is not part of the value.
   */
  datatype Json =
    | JNull
    | JBool(b: bool)
    | JInt(i: int)
    | JFloat(f: real)
    | JStr(s: string)
    | JArr(items: seq<Json>)
    | JObj(fields: map<string, Json>)

  /** Python truthiness of a parsed value (`if value:`). */
  predicate Truthy(v: Json) {
    match v
    case JNull => false
    case JBool(b) => b
    case JInt(i) => i != 0
    case JFloat(f) => f != 0.0
    case JStr(s) => s != ""
    case JArr(items) => items != []
    case JObj(fields) => fields != map[]
  }

  /**
   * Python's `str(v)`. Strings, booleans, `None` and integers are rendered here; the
   * rendering of floats, lists and dicts (CPython's repr algorithms) is supplied by `render`.
   */
  function PyStr(v: Json, render: Json -> string): (r: string)
    ensures v.JStr? ==> r == v.s
    ensures v.JInt? && v.i >= 0 ==> forall k :: 0 <= k < |r| ==> IsDigit(r[k])
  {
    match v
    case JStr(s) => s
    case JNull => "None"
    case JBool(b) => if b then "True" else "False"
    case JInt(i) => IntToDecimal(i)
    case _ => render(v)
  }

  /** The Python type name that appears in a `TypeError` message. */
  function TypeName(v: Json): string {
    match v
    case JNull => "NoneType"
    case JBool(_) => "bool"
    case JInt(_) => "int"
    case JFloat(_) => "float"
    case JStr(_) => "str"
    case JArr(_) => "list"
    case JObj(_) => "dict"
  }

  /** One section of a record: field name to value (`Dict[str, Any]`). */
  type Section = map<string, Json>

  /** A record: section name to section. */
  type Record = map<string, Section>

  /** `d.get(key, default)`. */
  function Get(d: Section, key: string, default: Json): (v: Json)
    ensures key in d ==> v == d[key]
    ensures key !in d ==> v == default
  {
    if key in d then d[key] else default
  }
}
