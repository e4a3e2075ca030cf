/** The Python values `json.loads` produces, and the three operations the handler
    applies to them: `dict.get` with a default, `len`, and `str.replace`. Applying
    one of them to a value of the wrong type raises, and the exception's text is
    the one Python prints for it.
 */
module PyJson {
  import opened Py

  /** A decoded JSON value, by the Python type `json.loads` gives it. Numbers
      written with a fraction or an exponent become `float`; their value is never
      looked at, so it is not kept. */
  datatype Json =
    | Null
    | Bool(b: bool)
    | Int(i: int)
    | Float
    | Str(s: string)
    | List(items: seq<Json>)
    | Dict(fields: map<string, Json>)

  /** `type(v).__name__`. */
  function TypeName(v: Json): string {
    match v
    case Null => "NoneType"
    case Bool(_) => "bool"
    case Int(_) => "int"
    case Float => "float"
    case Str(_) => "str"
    case List(_) => "list"
    case Dict(_) => "dict"
  }

  /** The text of the `AttributeError` raised by `v.attr` when `v` lacks `attr`. */
  function NoAttribute(v: Json, attr: string): string {
    "'" + TypeName(v) + "' object has no attribute '" + attr + "'"
  }

  /** The text of the `TypeError` raised by `len(v)` when `v` has no length. */
  function NoLength(v: Json): string {
    "object of type '" + TypeName(v) + "' has no len()"
  }

  /** The values `len` accepts. */
  predicate HasLength(v: Json) {
    v.Str? || v.List? || v.Dict?
  }

  /** `d.get(key, default)` on a dictionary. */
  function Get(d: map<string, Json>, key: string, default: Json): Json {
    if key in d then d[key] else default
  }

  /** `v.get(key, default)` on any value: only a dictionary has `get`. */
  function GetAttr(v: Json, key: string, default: Json): (r: Result<Json>)
    ensures r.Ok? <==> v.Dict?
    ensures r.Ok? && key in v.fields ==> r.value == v.fields[key]
    ensures r.Ok? && key !in v.fields ==> r.value == default
    ensures r.Raised? ==> r.message == NoAttribute(v, "get")
  {
    if v.Dict? then Ok(Get(v.fields, key, default)) else Raised(NoAttribute(v, "get"))
  }

  /** `len(v)`: characters of a string, items of a list, keys of a dictionary. */
  function Len(v: Json): (r: Result<nat>)
    ensures r.Ok? <==> HasLength(v)
    ensures v.Str? ==> r == Ok(|v.s|)
    ensures v.List? ==> r == Ok(|v.items|)
    ensures v.Dict? ==> r == Ok(|v.fields|)
    ensures r.Raised? ==> r.message == NoLength(v)
  {
    match v
    case Str(s) => Ok(|s|)
    case List(items) => Ok(|items|)
    case Dict(fields) => Ok(|fields|)
    case _ => Raised(NoLength(v))
  }

  /** `v.replace(pat, rep)`: only a string has `replace`. */
  function ReplaceAttr(v: Json, pat: string, rep: string): (r: Result<string>)
    requires pat != []
    ensures r.Ok? <==> v.Str?
    ensures r.Ok? ==> r.value == Replace(v.s, pat, rep)
    ensures r.Raised? ==> r.message == NoAttribute(v, "replace")
  {
    if v.Str? then Ok(Replace(v.s, pat, rep)) else Raised(NoAttribute(v, "replace"))
  }
}
