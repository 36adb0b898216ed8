/**
 * Rust's fixed-width integer types, as subset types of `int`, and the two
 * operations on them that the server and the settings loader rely on: the
 * truncating `as` cast from `i64` and the `+= 1` on a `u16` counter.
 */
module Ints {

  const U16_LIMIT: int := 0x1_0000
  const U32_LIMIT: int := 0x1_0000_0000
  const U64_LIMIT: int := 0x1_0000_0000_0000_0000

  type u8 = x: int | 0 <= x < 0x100
  type u16 = x: int | 0 <= x < 0x1_0000
  type u32 = x: int | 0 <= x < 0x1_0000_0000
  type i64 = x: int | -0x8000_0000_0000_0000 <= x < 0x8000_0000_0000_0000

  /** The 64-bit two's-complement bit pattern of `x`, read as an unsigned number. */
  function Bits64(x: i64): (r: nat)
    ensures r < U64_LIMIT
    ensures r == x || r == x + U64_LIMIT
  {
    if x < 0 then x + U64_LIMIT else x
  }

  /** `x as u16`: the low 16 bits of the two's-complement pattern of `x`. */
  function AsU16(x: i64): (r: u16)
    ensures (r - x) % U16_LIMIT == 0
  {
    Bits64(x) % U16_LIMIT
  }

  /** `x as u32`: the low 32 bits of the two's-complement pattern of `x`. */
  function AsU32(x: i64): (r: u32)
    ensures (r - x) % U32_LIMIT == 0
  {
    Bits64(x) % U32_LIMIT
  }

  /** `c += 1` on a `u16`, with the wrap-around of a release build. */
  function WrappingInc16(c: u16): (r: u16)
    ensures c < U16_LIMIT - 1 ==> r == c + 1
    ensures c == U16_LIMIT - 1 ==> r == 0
  {
    (c + 1) % U16_LIMIT
  }

  /** The casts leave a value that already fits in the target type unchanged. */
  lemma CastsKeepFittingValues(x: i64)
    ensures 0 <= x < U16_LIMIT ==> AsU16(x) == x
    ensures 0 <= x < U32_LIMIT ==> AsU32(x) == x
  {
  }

  /** Truncation is two's complement, so `-1 as u16` is 65535 and `-1 as u32` is 4294967295. */
  lemma CastOfMinusOne()
    ensures AsU16(-1) == U16_LIMIT - 1
    ensures AsU32(-1) == U32_LIMIT - 1
  {
  }
}
