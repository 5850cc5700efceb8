/** Fixed-width integer types of the source, modelled as subset types of `int`. */
module Numeric {
  const U16_LIMIT: int := 0x1_0000
  const USIZE_MAX: int := 0xFFFF_FFFF_FFFF_FFFF

  type u16 = x: int | 0 <= x < 0x1_0000
  /** `usize` on a 64-bit target. */
  type usize = x: int | 0 <= x <= 0xFFFF_FFFF_FFFF_FFFF
  /** `isize` on a 64-bit target; also used for `i64`. */
  type isize = x: int | -0x8000_0000_0000_0000 <= x < 0x8000_0000_0000_0000
  type i64 = isize

  /** Rust's `x as u16`: keep the low 16 bits (two's complement truncation). */
  function AsU16(x: int): (r: u16)
    ensures (x - r) % U16_LIMIT == 0
    ensures 0 <= x < U16_LIMIT ==> r == x
  {
    x % U16_LIMIT
  }

  function Min(a: int, b: int): int { if a <= b then a else b }
  function Max(a: int, b: int): int { if a <= b then b else a }
}
