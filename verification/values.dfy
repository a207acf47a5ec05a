/** The values a transaction-parameter dictionary holds, Python's
    truthiness and the `int()` and `+` operations the library applies to
    them. A dictionary is a `map` from key to value. */
module Values {
  import opened Exceptions
  import opened Wrappers
  import opened Decimals
  import Text

  /** A dictionary value: `None`, an `int`, a `Decimal` or float (by its
      exact decimal value), or a `str` (addresses, call data). */
  datatype Value = Null | Int(i: int) | Num(d: Dec) | Str(s: string)

  /** A transaction-parameter dictionary (`TxParams`). */
  type Params = map<string, Value>

  /** Python's `bool(v)`. */
  predicate Truthy(v: Value) {
    match v
    case Null => false
    case Int(i) => i != 0
    case Num(d) => d.mant != 0
    case Str(s) => |s| > 0
  }

  /** `params.get(key)`: the value under `key`, or `None` when it is absent. */
  function Get(p: Params, key: string): (v: Value)
    ensures key in p ==> v == p[key]
    ensures key !in p ==> v == Null
  {
    if key in p then p[key] else Null
  }

  /** Python's `int(v)`: truncation of numbers, parsing of strings,
      TypeError for `None`. */
  function IntOf(v: Value): (r: Result<int>)
    ensures v.Int? ==> r == Ok(v.i)
    ensures v.Num? ==> r.Ok? && IsTrunc(r.value, v.d.Value())
    ensures v.Null? ==> r == Err(TypeError)
    ensures v.Str? ==> (r.Ok? <==> Text.ParseInt(v.s).Some?)
  {
    match v
    case Null => Err(TypeError)
    case Int(i) => Ok(i)
    case Num(d) => Ok(Trunc(d))
    case Str(s) =>
      match Text.ParseInt(s)
      case Some(n) => Ok(n)
      case None => Err(ValueError)
  }

  /** `v + n` for an integer `n`: numbers add, `None` and strings raise TypeError. */
  function AddInt(v: Value, n: int): (r: Result<Value>)
    ensures v.Int? ==> r == Ok(Int(v.i + n))
    ensures v.Num? ==> r.Ok? && r.value.Num? && r.value.d.Value() == v.d.Value() + n as real
    ensures (v.Null? || v.Str?) ==> r == Err(TypeError)
  {
    match v
    case Int(i) => Ok(Int(i + n))
    case Num(d) => Ok(Num(Decimals.AddInt(d, n)))
    case _ => Err(TypeError)
  }

  /** `p` and `q` agree on every key outside `keys`: the same keys are
      present and they hold the same values. */
  ghost predicate AgreeOutside(p: Params, q: Params, keys: set<string>) {
    forall k :: k !in keys ==> (k in p <==> k in q) && (k in p ==> p[k] == q[k])
  }
}
