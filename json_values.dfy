/**
  The already-parsed JSON values both scripts read. Only scalars are
  rendered; objects are maps from key to value.
*/
module JsonValues {
  import opened Strings

  datatype Option<+T> = None | Some(value: T)

  /** A JSON scalar as `json.load` yields it: str, int, bool or None. */
  datatype Scalar = Text(s: string) | Int(i: int) | Bool(b: bool) | Null

  /** A JSON object whose values are scalars. */
  type Object = map<string, Scalar>

  /** `str(v)` in Python. */
  function Str(v: Scalar): string
  {
    match v
    case Text(s) => s
    case Int(i) => IntToString(i)
    case Bool(b) => if b then "True" else "False"
    case Null => "None"
  }

  /** `str(d.get(k))`: a missing key renders as `None`. */
  function StrOrNone(v: Option<Scalar>): string
  {
    match v
    case Some(x) => Str(x)
    case None => "None"
  }

  /** Python truthiness of `d.get(k)` for a scalar value: a missing key,
      `None`, `False`, `0` and the empty string are false. */
  predicate Truthy(v: Option<Scalar>)
  {
    match v
    case None => false
    case Some(Text(s)) => s != []
    case Some(Int(i)) => i != 0
    case Some(Bool(b)) => b
    case Some(Null) => false
  }

  /** `d.get(k)` on an object. */
  function Get<V>(m: map<string, V>, k: string): Option<V>
  {
    if k in m then Some(m[k]) else None
  }

  /** `d.get(k, default)` on an object. */
  function GetOr<V>(m: map<string, V>, k: string, default: V): V
  {
    if k in m then m[k] else default
  }
}
