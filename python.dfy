/** The Python values that the record store keeps in its JSON files, and the
    few language rules the store relies on: `dict.get`, truthiness, `or`,
    keyword-argument binding and the exceptions raised. */
module Python {
  import opened Wrappers

  /** A value that `json.load` produces and `json.dump` writes:
      None, bool, int, float, str, list and dict with string keys. */
  datatype Json =
    | Null
    | Bool(b: bool)
    | Int(i: int)
    | Float(r: real)
    | Str(s: string)
    | Arr(items: seq<Json>)
    | Obj(fields: map<string, Json>)

  /** A dictionary with string keys: a stored record's attributes, a request
      body, the keyword arguments of a call. */
  type Record = map<string, Json>

  /** The exceptions the modelled code raises. */
  datatype PyError =
    | ValueError(message: string)
    | TypeError(message: string)
    | ImportError(message: string)

  /** `d.get(key, default)` */
  function Get(d: Record, key: string, default: Json): Json
  {
    if key in d then d[key] else default
  }

  /** Python's truth value: None, False, 0, 0.0, "", [] and {} are false. */
  predicate Truthy(v: Json)
  {
    match v
    case Null => false
    case Bool(b) => b
    case Int(i) => i != 0
    case Float(r) => r != 0.0
    case Str(s) => s != ""
    case Arr(items) => items != []
    case Obj(fields) => fields != map[]
  }

  /** `v or default` */
  function Or(v: Json, default: Json): Json
  {
    if Truthy(v) then v else default
  }

  /** Binding the keyword arguments of `f(**kwargs)` to a signature whose
      parameters (besides `self`) are `params`, of which `required` have no
      default. An unexpected keyword is reported first, then a missing
      parameter; both raise TypeError. */
  function BindError(kwargs: Record, params: set<string>, required: set<string>): (r: Option<PyError>)
    ensures r.None? <==> kwargs.Keys <= params && required <= kwargs.Keys
    ensures r.Some? ==> r.value.TypeError?
  {
    if !(kwargs.Keys <= params) then Some(TypeError("__init__() got an unexpected keyword argument"))
    else if !(required <= kwargs.Keys) then Some(TypeError("__init__() missing a required positional argument"))
    else None
  }

  /** The decimal digits of `n`, as an f-string prints an int. */
  function DecimalString(n: nat): string
  {
    if n < 10 then [DigitChar(n)] else DecimalString(n / 10) + [DigitChar(n % 10)]
  }

  function DigitChar(d: nat): char
    requires d < 10
  {
    ('0' as int + d) as char
  }
}
