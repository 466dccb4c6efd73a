/** Machine-width integers and the optional value used throughout the firmware model. */
module Types {

  /** Rust's `Option<T>`. */
  datatype Option<+T> = None | Some(value: T)

  /** Rust's `u8`. */
  type u8 = x: int | 0 <= x < 0x100

  /** Rust's `u16`. */
  type u16 = x: int | 0 <= x < 0x1_0000

  /** `u16::MAX`, the value at which the cycle counters saturate. */
  const U16_MAX: u16 := 0xFFFF

  /** The string `s` begins with `p` (Rust's `str::starts_with`). */
  predicate StartsWith(s: string, p: string)
  {
    |p| <= |s| && s[..|p|] == p
  }

  /** `n` copies of `x`: a run of equal samples, or a run of equal events. */
  function Repeat<T>(x: T, n: nat): (s: seq<T>)
    ensures |s| == n && forall i | 0 <= i < n :: s[i] == x
  {
    if n == 0 then [] else Repeat(x, n - 1) + [x]
  }
}
