/** Decoded JSON documents as Python sees them after `response.json()`,
    with the truthiness, `dict.get` and `len` rules the scripts rely on. */
module JsonData {
  import opened Core

  /** A decoded JSON value. A number without a fraction or exponent
      decodes to a Python `int`, any other number to a `float`, kept here
      as an exact real. */
  datatype Json =
    | Null
    | Bool(b: bool)
    | Int(i: int)
    | Float(x: real)
    | Str(s: string)
    | Arr(items: seq<Json>)
    | Obj(fields: map<string, Json>)

  /** A decoded JSON object: a Python `dict` with string keys. */
  type Dict = map<string, Json>

  /** Python truthiness: `None`, `False`, `0` and empty containers are falsy. */
  predicate Truthy(v: Json) {
    match v
    case Null => false
    case Bool(b) => b
    case Int(i) => i != 0
    case Float(x) => x != 0.0
    case Str(s) => |s| > 0
    case Arr(a) => |a| > 0
    case Obj(m) => |m| > 0
  }

  /** `d.get(key, default)`. */
  function GetOr(d: Dict, key: string, default: Json): (v: Json)
    ensures key in d ==> v == d[key]
    ensures key !in d ==> v == default
  {
    if key in d then d[key] else default
  }

  /** `d.get(key)`: a missing key reads as `None`. */
  function Get(d: Dict, key: string): Json {
    GetOr(d, key, Null)
  }

  /** `bool(d.get(key))`: the key is present with a truthy value. */
  predicate Has(d: Dict, key: string) {
    Truthy(Get(d, key))
  }

  /** `len(v)`, or `None` where Python raises `TypeError`. */
  function Len(v: Json): (n: Option<nat>)
    ensures n.Some? <==> v.Str? || v.Arr? || v.Obj?
    ensures n.Some? ==> (n.value > 0 <==> Truthy(v))
  {
    match v
    case Str(s) => Some(|s|)
    case Arr(a) => Some(|a|)
    case Obj(m) => Some(|m|)
    case _ => None
  }

  /** `type(v).__name__`, as quoted in Python's error messages. */
  function TypeName(v: Json): string {
    match v
    case Null => "NoneType"
    case Bool(_) => "bool"
    case Int(_) => "int"
    case Float(_) => "float"
    case Str(_) => "str"
    case Arr(_) => "list"
    case Obj(_) => "dict"
  }
}
