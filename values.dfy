/** Shared value types: optional values, results, and the dynamically typed
    values that the system's dictionaries (JSON bodies, Kafka payloads, YAML
    documents) hold. */
module Values {
  import Strings

  datatype Option<+T> = None | Some(value: T)

  datatype Result<+T, +E> = Ok(value: T) | Err(error: E)

  /** A JSON/YAML value as a Python program sees it after decoding. */
  datatype Value =
    | Null
    | Bool(b: bool)
    | Int(i: int)
    | Num(r: real)
    | Str(s: string)
    | List(items: seq<Value>)
    | Dict(entries: map<string, Value>)

  /** Python truthiness of a decoded value. */
  predicate Truthy(v: Value) {
    match v
    case Null => false
    case Bool(b) => b
    case Int(i) => i != 0
    case Num(r) => r != 0.0
    case Str(s) => s != ""
    case List(items) => items != []
    case Dict(entries) => entries != map[]
  }

  /** The number a value stands for in a Python numeric comparison
      (bool is a subclass of int); None when the comparison raises TypeError. */
  function AsNumber(v: Value): (r: Option<real>)
    ensures r.Some? <==> (v.Bool? || v.Int? || v.Num?)
  {
    match v
    case Bool(b) => Some(if b then 1.0 else 0.0)
    case Int(i) => Some(i as real)
    case Num(x) => Some(x)
    case _ => None
  }

  /** `d.get(key, default)` on a dictionary of values. */
  function Get(d: map<string, Value>, key: string, default: Value): (v: Value)
    ensures key in d ==> v == d[key]
    ensures key !in d ==> v == default
  {
    if key in d then d[key] else default
  }

  /** The exceptions the modelled Python code can raise on a decoded value. */
  datatype PyError = TypeError | KeyError(key: string) | AttributeError

  /** `needle in v` for a string needle: a key of a dictionary, an element of
      a list, a substring of a string; any other container raises TypeError. */
  function In(needle: string, v: Value): (r: Result<bool, PyError>)
    ensures r.Err? <==> !(v.Dict? || v.List? || v.Str?)
    ensures v.Dict? ==> r == Ok(needle in v.entries)
    ensures v.Str? ==> r == Ok(Strings.Contains(v.s, needle))
  {
    match v
    case Dict(entries) => Ok(needle in entries)
    case List(items) => Ok(Str(needle) in items)
    case Str(s) => Ok(Strings.Contains(s, needle))
    case _ => Err(TypeError)
  }

  /** `v[key]` for a string key: a dictionary lookup (KeyError when absent);
      lists and strings are indexed by integers only and raise TypeError. */
  function Subscript(v: Value, key: string): (r: Result<Value, PyError>)
    ensures r.Ok? <==> v.Dict? && key in v.entries
    ensures r.Ok? ==> r.value == v.entries[key]
    ensures v.Dict? && key !in v.entries ==> r == Err(KeyError(key))
  {
    match v
    case Dict(entries) => if key in entries then Ok(entries[key]) else Err(KeyError(key))
    case _ => Err(TypeError)
  }
}
