/** Parsed JSON values as Python's `json` module hands them to the pipeline, and
    the outcome of a Python call that either returns or raises. */
module JsonValue {

  /** A JSON value. Floating-point numbers are not modelled; numbers are integers. */
  datatype Json =
    | Null
    | Bool(b: bool)
    | Num(n: int)
    | Str(s: string)
    | Arr(items: seq<Json>)
    | Obj(fields: map<string, Json>)

  /** A Python call that returns a value or raises an exception. */
  datatype Outcome<+T> = Ok(value: T) | Raised {
    predicate IsFailure() { Raised? }

    function PropagateFailure<U>(): Outcome<U>
      requires Raised?
    {
      Raised
    }

    function Extract(): T
      requires Ok?
    {
      value
    }
  }

  /** The empty string, the default of every `.get(key, "")` in the pipeline. */
  const EmptyText: Json := Str("")

  /** `d.get(key, default)` on a dict. */
  function GetOr(fields: map<string, Json>, key: string, default: Json): Json
  {
    if key in fields then fields[key] else default
  }

  /** `x.get(key, default)`: raises unless `x` is a dict. */
  function Get(x: Json, key: string, default: Json): Outcome<Json>
  {
    if x.Obj? then Ok(GetOr(x.fields, key, default)) else Raised
  }

  /** Python truthiness of a JSON value (`if x:`). */
  predicate Truthy(j: Json)
  {
    match j
    case Null => false
    case Bool(b) => b
    case Num(n) => n != 0
    case Str(s) => s != ""
    case Arr(items) => items != []
    case Obj(fields) => fields != map[]
  }

  /** The elements a loop `for x in j: x.get(...)` visits. A list yields its items.
      An empty string or dict yields nothing. A non-empty string or dict yields
      strings, and the `.get` the loop body applies to the first of them raises.
      The `for` itself raises on null, a boolean or a number, which are not
      iterable. */
  function Elements(j: Json): Outcome<seq<Json>>
  {
    match j
    case Arr(items) => Ok(items)
    case Str(s) => if s == "" then Ok([]) else Raised
    case Obj(fields) => if fields == map[] then Ok([]) else Raised
    case _ => Raised
  }
}
