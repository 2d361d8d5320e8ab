/** Values and numeric helpers shared by every component of the dashboard model.

    JavaScript numbers are modelled as `real`, so arithmetic is exact and
    double rounding is abstracted away. Optional object fields become
    `Option`, and the two JavaScript defaulting operators are spelled out:
    `x || d` (falls back on absent AND on zero) and `x ?? d` (falls back on
    absent only).
 */
module Common {

  datatype Option<+T> = None | Some(value: T) {

    /** `x ?? d`: the value when present, otherwise the default. */
    function GetOr(default: T): (r: T)
      ensures Some? ==> r == value
      ensures None? ==> r == default
    {
      match this
      case Some(v) => v
      case None => default
    }
  }

  datatype Result<+T, +E> = Ok(value: T) | Err(error: E)

  /** JavaScript truthiness of an optional number (NaN is not modelled). */
  predicate Truthy(x: Option<real>) {
    x.Some? && x.value != 0.0
  }

  /** `x || d` on an optional number: absent and zero both select the default. */
  function OrDefault(x: Option<real>, d: real): (r: real)
    ensures x.None? ==> r == d
    ensures x == Some(0.0) ==> r == d
    ensures x.Some? && x.value != 0.0 ==> r == x.value
  {
    if Truthy(x) then x.value else d
  }

  /** `d || 1` on a plotting denominator: a zero span is replaced by one. */
  function NonZeroOrOne(d: real): (r: real)
    ensures r != 0.0
    ensures d != 0.0 ==> r == d
    ensures d >= 0.0 ==> r > 0.0
  {
    if d == 0.0 then 1.0 else d
  }

  function Abs(x: real): (r: real)
    ensures r >= 0.0
    ensures r == x || r == -x
  {
    if x < 0.0 then -x else x
  }

  /** `Math.min` on two numbers. */
  function Min(a: real, b: real): (r: real)
    ensures r <= a && r <= b
    ensures r == a || r == b
  {
    if a <= b then a else b
  }

  /** `Math.max` on two numbers. */
  function Max(a: real, b: real): (r: real)
    ensures r >= a && r >= b
    ensures r == a || r == b
  {
    if a >= b then a else b
  }

  function MinNat(a: int, b: int): (r: int)
    ensures r <= a && r <= b
    ensures r == a || r == b
  {
    if a <= b then a else b
  }

  /** `Math.max(lo, Math.min(hi, x))`, the clamp idiom used throughout the code. */
  function Clamp(x: real, lo: real, hi: real): (r: real)
    ensures lo <= hi ==> lo <= r <= hi
    ensures lo <= x <= hi ==> r == x
    ensures lo <= hi && x < lo ==> r == lo
    ensures lo <= hi && x > hi ==> r == hi
  {
    Max(lo, Min(hi, x))
  }

  /** `Math.round`: the nearest integer, halves rounded up (towards +infinity). */
  function Round(x: real): (r: int)
    ensures r as real - 0.5 <= x < r as real + 0.5
  {
    (x + 0.5).Floor
  }
}
