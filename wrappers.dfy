/** Optional values, standing for the source's `field?: T` and `T | undefined`. */
module Wrappers {

  datatype Option<+T> = None | Some(value: T) {

    /** The value, or `default` when absent: the source's `x ?? default`. */
    function GetOr(default: T): T {
      match this
      case Some(v) => v
      case None => default
    }
  }

  /** JavaScript truthiness of an optional string: present and non-empty. */
  predicate IsTruthy(s: Option<string>) {
    s.Some? && s.value != ""
  }

  /** `s || fallback` for an optional string. */
  function OrElse(s: Option<string>, fallback: string): string
  {
    if IsTruthy(s) then s.value else fallback
  }

  /** `x || fallback` for a number: 0 (and an absent value) is falsy. */
  function NumOr(x: Option<real>, fallback: real): real
  {
    if x.Some? && x.value != 0.0 then x.value else fallback
  }

  /** `x || fallback` for a number that is always present: only 0 is replaced. */
  function NonZeroOr(x: real, fallback: real): real
  {
    if x != 0.0 then x else fallback
  }

  /** `n || fallback` for an integer that is always present. */
  function IntNonZeroOr(n: int, fallback: int): int
  {
    if n != 0 then n else fallback
  }
}
