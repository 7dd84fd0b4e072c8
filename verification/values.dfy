/**
  The Python values that flow through the post-processing of the language
  model's replies: the decoded JSON object (`structured`, the `{"sectors": ...}`
  reply) and the table rows handed to the prompt (`raw_rows`). Only the parts
  of Python's object model that the post-processing observes are modelled:
  truthiness, `x or default`, `dict.get`, `isinstance(x, (int, float))`,
  ordering against a float constant, and equality/hashing inside a `set`.
*/
module Values {
  import opened Common

  /**
    A Python value. `NaN` is the float `nan`: truthy, numeric, and false in
    every ordering comparison. A dict's keys are strings, as in decoded JSON
    and in the table rows.
  */
  datatype Value =
    | Null
    | Bool(b: bool)
    | Int(i: int)
    | Float(x: real)
    | NaN
    | Str(s: string)
    | List(items: seq<Value>)
    | Dict(fields: map<string, Value>)

  type Row = map<string, Value>

  /** `bool(v)`. */
  predicate Truthy(v: Value)
  {
    match v
    case Null => false
    case Bool(b) => b
    case Int(i) => i != 0
    case Float(x) => x != 0.0
    case NaN => true
    case Str(s) => s != ""
    case List(items) => items != []
    case Dict(fields) => fields != map[]
  }

  /** `v or default`: the first operand when it is truthy, otherwise the second. */
  function Or(v: Value, default: Value): (r: Value)
    ensures Truthy(v) ==> r == v
    ensures !Truthy(v) ==> r == default
  {
    if Truthy(v) then v else default
  }

  /** `d.get(k)`: `None` for a missing key. */
  function Get(d: map<string, Value>, k: string): (r: Value)
    ensures k in d ==> r == d[k]
    ensures k !in d ==> r == Null
  {
    if k in d then d[k] else Null
  }

  /** `isinstance(v, (int, float))`; a bool is an int in Python. */
  predicate IsNumber(v: Value)
  {
    v.Bool? || v.Int? || v.Float? || v.NaN?
  }

  /** The numeric value of a number other than NaN. */
  function NumberValue(v: Value): real
    requires IsNumber(v) && !v.NaN?
  {
    match v
    case Bool(b) => if b then 1.0 else 0.0
    case Int(i) => i as real
    case Float(x) => x
  }

  /** `v < c` holds: `v` is a number other than NaN and lies below `c`. */
  predicate Below(v: Value, c: real)
  {
    IsNumber(v) && !v.NaN? && NumberValue(v) < c
  }

  /** `v > c` holds. */
  predicate Above(v: Value, c: real)
  {
    IsNumber(v) && !v.NaN? && NumberValue(v) > c
  }

  /**
    Python's `v < c` against a float constant: a `TypeError` unless `v` is a
    number, and false for NaN.
  */
  function LessThan(v: Value, c: real): (r: Result<bool>)
    ensures r.Err? <==> !IsNumber(v)
    ensures r.Err? ==> r.error == TypeError
    ensures r.Ok? ==> (r.value <==> Below(v, c))
  {
    if !IsNumber(v) then Err(TypeError)
    else if v.NaN? then Ok(false)
    else Ok(NumberValue(v) < c)
  }

  /** Python's `v > c` against a float constant. */
  function GreaterThan(v: Value, c: real): (r: Result<bool>)
    ensures r.Err? <==> !IsNumber(v)
    ensures r.Err? ==> r.error == TypeError
    ensures r.Ok? ==> (r.value <==> Above(v, c))
  {
    if !IsNumber(v) then Err(TypeError)
    else if v.NaN? then Ok(false)
    else Ok(NumberValue(v) > c)
  }

  /** Python's short-circuit `a and b` on comparisons that may raise: `b` is not evaluated when `a` is false. */
  function AndThen(a: Result<bool>, b: Result<bool>): (r: Result<bool>)
    ensures a.Err? ==> r == a
    ensures a.Ok? && !a.value ==> r == Ok(false)
    ensures a.Ok? && a.value ==> r == b
  {
    if a.Err? || !a.value then a else b
  }

  /** Python's short-circuit `a or b`: `b` is not evaluated when `a` is true. */
  function OrElse(a: Result<bool>, b: Result<bool>): (r: Result<bool>)
    ensures a.Err? ==> r == a
    ensures a.Ok? && a.value ==> r == Ok(true)
    ensures a.Ok? && !a.value ==> r == b
  {
    if a.Err? || a.value then a else b
  }

  /** Whether `hash(v)` succeeds: lists and dicts are unhashable. */
  predicate Hashable(v: Value)
  {
    !v.List? && !v.Dict?
  }

  /**
    The representative of `v` under Python's equality of hashable values:
    `True == 1 == 1.0`. Every `nan` decoded by `json.loads` is the same
    object, so two of them are found equal in a set.
  */
  function Canon(v: Value): (c: Value)
    ensures IsNumber(v) && !v.NaN? ==> c == Float(NumberValue(v))
    ensures !IsNumber(v) || v.NaN? ==> c == v
  {
    match v
    case Bool(b) => Float(if b then 1.0 else 0.0)
    case Int(i) => Float(i as real)
    case _ => v
  }

  /** Python's `str(v)` of a string is the string itself; the text of any other value is supplied from outside. */
  function PyStr(v: Value, show: Value -> string): (s: string)
    ensures v.Str? ==> s == v.s
  {
    if v.Str? then v.s else show(v)
  }
}
