/** Value types shared by the firmware and host-side models. */
module Common {

  datatype Option<+T> = None | Some(value: T)

  /** A scalar taken from a decoded JSON object (the sensor hub sends flat objects). */
  datatype Value = Null | Bool(b: bool) | Num(n: real) | Str(s: string)

  /** Python truthiness of a decoded scalar: `None`, `False`, `0` and `""` are false. */
  predicate Truthy(v: Value)
  {
    match v
    case Null => false
    case Bool(b) => b
    case Num(n) => n != 0.0
    case Str(s) => s != ""
  }

  /** The number Python arithmetic sees: `bool` is a subclass of `int`, while
      `None` and strings raise `TypeError` (reported as `None` here). */
  function AsNumber(v: Value): (r: Option<real>)
    ensures r.None? <==> v.Null? || v.Str?
    ensures v.Num? ==> r == Some(v.n)
    ensures v.Bool? ==> r == Some(if v.b then 1.0 else 0.0)
  {
    match v
    case Num(n) => Some(n)
    case Bool(b) => Some(if b then 1.0 else 0.0)
    case _ => None
  }

  /** `d.get(key, default)` on a decoded object. */
  function Get(d: map<string, Value>, key: string, default: Value): (v: Value)
    ensures key in d ==> v == d[key]
    ensures key !in d ==> v == default
  {
    if key in d then d[key] else default
  }

  /** `min(max(x, lo), hi)`: both the Arduino `constrain` macro and the Python
      `max(lo, min(hi, x))` / `np.clip` idioms reduce to this for `lo <= hi`. */
  function Clamp(x: real, lo: real, hi: real): (r: real)
    requires lo <= hi
    ensures lo <= r <= hi
    ensures lo <= x <= hi ==> r == x
    ensures x < lo ==> r == lo
    ensures x > hi ==> r == hi
  {
    if x < lo then lo else if x > hi then hi else x
  }
}
