/**
  The output conversion at the end of each 8-lane block of process_color_plane_sse2:
  _mm_cvtps_epi32 (float to int32, nearest-even), _mm_packs_epi32 (int32 to int16 with
  signed saturation) and _mm_packus_epi16 (int16 to uint8 with unsigned saturation).
  Single-precision floats are modelled by reals.
 */
module Saturation {
  import opened Ints

  /** Reference definition of clamping k into [lo, hi]. */
  function Clamp(k: int, lo: int, hi: int): (r: int)
    requires lo <= hi
    ensures lo <= r <= hi
    ensures lo <= k <= hi ==> r == k
    ensures k < lo ==> r == lo
    ensures hi < k ==> r == hi
  {
    if k < lo then lo else if hi < k then hi else k
  }

  /** Round to the nearest integer, ties to the even one (the default MXCSR rounding mode). */
  function RoundHalfEven(x: real): (r: int)
    ensures x - 0.5 <= r as real <= x + 0.5
    ensures (r as real - x == 0.5 || x - r as real == 0.5) ==> r % 2 == 0
  {
    var f := x.Floor;
    var d := x - f as real;
    if d < 0.5 then f
    else if d > 0.5 then f + 1
    else if f % 2 == 0 then f
    else f + 1
  }

  /** Rounding is the identity on integral values. */
  lemma RoundOfInteger(k: int)
    ensures RoundHalfEven(k as real) == k
  {
  }

  /** One lane of _mm_cvtps_epi32: x rounded to the nearest integer, ties to even, while that
      fits in int32, which is exactly when -2^31 - 0.5 <= x < 2^31 - 0.5; otherwise the integer
      indefinite. */
  function CvtPsLane(x: real): (r: int32)
    ensures -2147483648.5 <= x < 2147483647.5 ==> r == RoundHalfEven(x)
    ensures !(-2147483648.5 <= x < 2147483647.5) ==> r == INT32_MIN
  {
    var k := RoundHalfEven(x);
    if -0x8000_0000 <= k < 0x8000_0000 then k else INT32_MIN
  }

  /** One lane of _mm_packs_epi32: int32 to int16 with signed saturation. */
  function PacksLane(k: int32): (r: int16)
    ensures r == Clamp(k, -0x8000, 0x7FFF)
  {
    if k < -0x8000 then -0x8000 else if k > 0x7FFF then 0x7FFF else k
  }

  /** One lane of _mm_packus_epi16: int16 to uint8 with unsigned saturation. */
  function PackusLane(k: int16): (r: byte)
    ensures r == Clamp(k, 0, 0xFF)
  {
    if k < 0 then 0 else if k > 0xFF then 0xFF else k
  }

  /** _mm_packs_epi32(a, b): the four lanes of a, then the four lanes of b, each saturated. */
  function PacksEpi32(a: seq<int32>, b: seq<int32>): (r: seq<int16>)
    requires |a| == 4 && |b| == 4
    ensures |r| == 8 && forall i :: 0 <= i < 8 ==> r[i] == Clamp((a + b)[i], -0x8000, 0x7FFF)
  {
    seq<int16>(8, i requires 0 <= i < 8 => PacksLane((a + b)[i]))
  }

  /** _mm_packus_epi16(a, b): the eight lanes of a, then the eight lanes of b, each saturated. */
  function PackusEpi16(a: seq<int16>, b: seq<int16>): (r: seq<byte>)
    requires |a| == 8 && |b| == 8
    ensures |r| == 16 && forall i :: 0 <= i < 16 ==> r[i] == Clamp((a + b)[i], 0, 0xFF)
  {
    seq<byte>(16, i requires 0 <= i < 16 => PackusLane((a + b)[i]))
  }

  /** _mm_setzero_si128 seen as eight int16 lanes. */
  const ZERO_EPI16: seq<int16> := [0, 0, 0, 0, 0, 0, 0, 0]

  /** Signed saturation to int16 followed by unsigned saturation to uint8 is a clamp to [0, 255]:
      it saturates and never wraps. */
  lemma PackChainIsClamp(k: int32)
    ensures PackusLane(PacksLane(k)) == Clamp(k, 0, 255)
  {
  }

  /** The eight bytes that _mm_storel_epi64 stores after packs(lo, hi) and packus(_, zero) are
      the eight int32 lanes of lo and hi, in order, each clamped to [0, 255]. */
  lemma StoredBlockIsClamp(lo: seq<int32>, hi: seq<int32>)
    requires |lo| == 4 && |hi| == 4
    ensures |PackusEpi16(PacksEpi32(lo, hi), ZERO_EPI16)| == 16
    ensures forall i :: 0 <= i < 8 ==> PackusEpi16(PacksEpi32(lo, hi), ZERO_EPI16)[i] == Clamp((lo + hi)[i], 0, 255)
    ensures forall i :: 8 <= i < 16 ==> PackusEpi16(PacksEpi32(lo, hi), ZERO_EPI16)[i] == 0
  {
    var words := PacksEpi32(lo, hi);
    forall i | 0 <= i < 8
      ensures PackusEpi16(words, ZERO_EPI16)[i] == Clamp((lo + hi)[i], 0, 255)
    {
      PackChainIsClamp((lo + hi)[i]);
    }
    forall i | 8 <= i < 16
      ensures PackusEpi16(words, ZERO_EPI16)[i] == 0
    {
      assert ZERO_EPI16[i - 8] == 0;
      assert (words + ZERO_EPI16)[i] == 0;
    }
  }

  /** The conversion of one lane of the scaled accumulator to an output byte: the converted
      int32 clamped to [0, 255]. */
  function ConvertLane(x: real): (b: byte)
    ensures b == Clamp(CvtPsLane(x), 0, 0xFF)
  {
    PackusLane(PacksLane(CvtPsLane(x)))
  }

  /** What the lane conversion computes, for every real input: the rounded value clamped to
      [0, 255], except that a value whose rounding leaves the int32 range comes out as 0. */
  lemma ConvertLaneCases(x: real)
    ensures -0x8000_0000 <= RoundHalfEven(x) < 0x8000_0000 ==> ConvertLane(x) == Clamp(RoundHalfEven(x), 0, 255)
    ensures RoundHalfEven(x) >= 0x8000_0000 ==> ConvertLane(x) == 0
    ensures x <= 0.0 ==> ConvertLane(x) == 0
  {
    if -0x8000_0000 <= RoundHalfEven(x) < 0x8000_0000 {
      PackChainIsClamp(RoundHalfEven(x));
    }
  }

  /** Values that round into [255, 2^31) saturate to white. */
  lemma ConvertLaneSaturatesHigh(x: real)
    requires 254.5 < x < 2147483647.5
    ensures ConvertLane(x) == 255
  {
    ConvertLaneCases(x);
  }

  /** A scaled accumulator of at least 2^31 - 0.5 rounds out of the int32 range, becomes the
      integer indefinite 0x80000000 and is therefore stored as 0 (black), not 255. */
  lemma ConvertLaneOverflowIsBlack(x: real)
    requires x >= 2147483647.5
    ensures ConvertLane(x) == 0
  {
    ConvertLaneCases(x);
  }

  /** A value already in [0, 255] passes through unchanged. */
  lemma ConvertLaneOfByte(v: byte)
    ensures ConvertLane(v as real) == v
  {
    RoundOfInteger(v);
  }
}
