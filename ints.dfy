/** Rust's fixed-width unsigned integers, as ranges of `int`. */
module Ints {

  const U8_LIMIT: int := 0x100
  const U16_LIMIT: int := 0x1_0000
  const U32_LIMIT: int := 0x1_0000_0000
  const U64_LIMIT: int := 0x1_0000_0000_0000_0000

  type u8 = x: int | 0 <= x < U8_LIMIT
  type u16 = x: int | 0 <= x < U16_LIMIT
  type u32 = x: int | 0 <= x < U32_LIMIT
  type u64 = x: int | 0 <= x < U64_LIMIT
  /** `usize` on the 64-bit targets the library is built for. */
  type usize = u64

  /** `x as u32` on an unsigned value: keeps the low 32 bits. */
  function AsU32(x: nat): (r: u32)
    ensures x < U32_LIMIT ==> r == x
    ensures (x - r) % U32_LIMIT == 0
  {
    x % U32_LIMIT
  }

  /** `u8::wrapping_add`. */
  function WrappingAddU8(x: u8, y: u8): (r: u8)
    ensures x + y < U8_LIMIT ==> r == x + y
    ensures x + y >= U8_LIMIT ==> r == x + y - U8_LIMIT
  {
    (x + y) % U8_LIMIT
  }
}
