/** JSON values as the Python code holds them after `json.load`, and the
    Python operations the source applies to them (`in`, `x[key]`, `.get`,
    `x[key] = v`) with the exceptions Python raises when the value is not a
    dict. */
module Json {
  import opened Wrappers
  import Text

  datatype Json =
    | JNull
    | JBool(b: bool)
    | JInt(i: int)
    | JStr(s: string)
    | JArr(items: seq<Json>)
    | JObj(fields: map<string, Json>)

  /** A Python exception that is not one of the package's own classes. */
  datatype PyError = PyError(className: string, message: string)

  /** `type(v).__name__` */
  function TypeName(v: Json): string {
    match v
    case JNull => "NoneType"
    case JBool(_) => "bool"
    case JInt(_) => "int"
    case JStr(_) => "str"
    case JArr(_) => "list"
    case JObj(_) => "dict"
  }

  /** Python truthiness (`if v:`). */
  predicate Truthy(v: Json) {
    match v
    case JNull => false
    case JBool(b) => b
    case JInt(i) => i != 0
    case JStr(s) => |s| > 0
    case JArr(xs) => |xs| > 0
    case JObj(m) => |m| > 0
  }

  /** `key in v` for a string key. */
  function Contains(v: Json, key: string): (r: Result<bool, PyError>)
    ensures v.JObj? ==> r == Ok(key in v.fields)
    ensures v.JNull? || v.JBool? || v.JInt? ==> r.Err?
  {
    match v
    case JObj(m) => Ok(key in m)
    case JArr(xs) => Ok(JStr(key) in xs)
    case JStr(s) => Ok(Text.IsSubstring(key, s))
    case _ => Err(PyError("TypeError", "argument of type '" + TypeName(v) + "' is not iterable"))
  }

  /** `v[key]` for a string key. */
  function Subscript(v: Json, key: string): (r: Result<Json, PyError>)
    ensures r.Ok? <==> v.JObj? && key in v.fields
    ensures r.Ok? ==> r.value == v.fields[key]
  {
    match v
    case JObj(m) =>
      if key in m then Ok(m[key]) else Err(PyError("KeyError", "'" + key + "'"))
    case JArr(_) => Err(PyError("TypeError", "list indices must be integers or slices, not str"))
    case JStr(_) => Err(PyError("TypeError", "string indices must be integers, not 'str'"))
    case _ => Err(PyError("TypeError", "'" + TypeName(v) + "' object is not subscriptable"))
  }

  /** `v.get(key, default)`: only dicts have `get`. */
  function Get(v: Json, key: string, default: Json): (r: Result<Json, PyError>)
    ensures r.Ok? <==> v.JObj?
    ensures v.JObj? ==> r.value == (if key in v.fields then v.fields[key] else default)
  {
    match v
    case JObj(m) => Ok(if key in m then m[key] else default)
    case _ => Err(PyError("AttributeError", "'" + TypeName(v) + "' object has no attribute 'get'"))
  }

  /** `v[key] = x` for a string key, returning the updated value. */
  function SetItem(v: Json, key: string, x: Json): (r: Result<Json, PyError>)
    ensures r.Ok? <==> v.JObj?
    ensures v.JObj? ==> r.value == JObj(v.fields[key := x])
  {
    match v
    case JObj(m) => Ok(JObj(m[key := x]))
    case JArr(_) => Err(PyError("TypeError", "list indices must be integers or slices, not str"))
    case _ => Err(PyError("TypeError", "'" + TypeName(v) + "' object does not support item assignment"))
  }

  /** `str(v)` for a scalar; containers are shown only by their kind. */
  function Show(v: Json): string {
    match v
    case JNull => "None"
    case JBool(b) => if b then "True" else "False"
    case JInt(i) => Text.IntToString(i)
    case JStr(s) => s
    case JArr(_) => "[...]"
    case JObj(_) => "{...}"
  }

  /** `isinstance(x, bool) or isinstance(x, int)`: values Python adds to an int. */
  function AsInt(v: Json): Option<int> {
    match v
    case JInt(i) => Some(i)
    case JBool(b) => Some(if b then 1 else 0)
    case _ => None
  }
}
