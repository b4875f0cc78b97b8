/**
 * Kotlin's integer conversions and clamps, which differ from Dafny's built-in operators:
 * `toInt()` truncates toward zero, `Int / Int` truncates toward zero, and `coerceIn`
 * clamps into a range that must not be empty.
 */
module Numerics {

  /** `Float.toInt()` / `Double.toInt()` on a finite value: truncation toward zero. */
  function TruncToInt(x: real): (r: int)
    ensures x >= 0.0 ==> r as real <= x < r as real + 1.0
    ensures x < 0.0 ==> r as real - 1.0 < x <= r as real
  {
    if x >= 0.0 then x.Floor else -((-x).Floor)
  }

  /** `n / 2` on `Int`: halving truncated toward zero (Dafny's `/` rounds negative values down). */
  function Half(n: int): (h: int)
    ensures n >= 0 ==> 2 * h <= n <= 2 * h + 1
    ensures n < 0 ==> 2 * h - 1 <= n <= 2 * h
  {
    if n >= 0 then n / 2 else -((-n) / 2)
  }

  /** `v.coerceIn(lo, hi)` for a non-empty range (Kotlin throws when `lo > hi`). */
  function CoerceIn(v: int, lo: int, hi: int): (r: int)
    requires lo <= hi
    ensures lo <= r <= hi
    ensures lo <= v <= hi ==> r == v
    ensures v < lo ==> r == lo
    ensures v > hi ==> r == hi
  {
    if v < lo then lo else if v > hi then hi else v
  }

  function Max(a: int, b: int): int { if a >= b then a else b }

  function Min(a: int, b: int): int { if a <= b then a else b }
}
