/** Machine integers and the small failure-carrying datatypes shared by the other modules. */
module Common {

  /** Largest value of Rust's `u64`. */
  const U64_MAX: nat := 0xFFFF_FFFF_FFFF_FFFF

  /** Rust's `u64`: the unbounded integers restricted to its range. */
  type U64 = x: int | 0 <= x <= U64_MAX

  /** Rust's `Option<T>`. */
  datatype Option<+T> = None | Some(value: T)

  /** Rust's `Result<(), E>`: success carries nothing, failure carries an error value. */
  datatype Outcome<+E> = Pass | Fail(error: E)

  function Min(a: int, b: int): int
  {
    if a <= b then a else b
  }

  /** `a.saturating_sub(b)` on `u64`. */
  function SaturatingSub(a: U64, b: U64): U64
  {
    if b <= a then a - b else 0
  }

  /** `a.wrapping_sub(b)` on `u64`: what `a - b` yields in a build without overflow checks. */
  function WrappingSub(a: U64, b: U64): U64
  {
    if b <= a then a - b else a - b + U64_MAX + 1
  }
}
