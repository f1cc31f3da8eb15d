/** Fixed-width integer types of the C source, as subsets of the unbounded integers. */
module Ints {

  /** uint8_t: one colour sample of a packed RGB24 pixel. */
  type byte = x: int | 0 <= x < 0x100

  /** One 16-bit signed lane of an SSE2 __m128i register. */
  type int16 = x: int | -0x8000 <= x < 0x8000

  /** One 32-bit signed lane of an SSE2 __m128i register. */
  type int32 = x: int | -0x8000_0000 <= x < 0x8000_0000

  /** The "integer indefinite" value 0x80000000 that SSE2 conversions return out of range. */
  const INT32_MIN: int32 := -0x8000_0000
}
