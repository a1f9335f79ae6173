/** Fixed-width integers, result codes and the ring-buffer flags word used by the
    AAudio binding layer. */
module AAudioTypes {

  newtype int32 = x: int | -0x8000_0000 <= x < 0x8000_0000
  newtype uint32 = x: int | 0 <= x < 0x1_0000_0000

  const TWO_TO_32: int := 0x1_0000_0000

  /** aaudio_result_t: zero is success, negative values are errors. */
  type ResultCode = int32

  const AAUDIO_OK: ResultCode := 0
  const AAUDIO_ERROR_INTERNAL: ResultCode := -896

  /** A result code that reports a failure. */
  type ErrorCode = c: ResultCode | c != AAUDIO_OK witness AAUDIO_ERROR_INTERNAL

  /** RingbufferFlags is an enumeration whose underlying type is a 32-bit unsigned integer. */
  type RingbufferFlags = uint32

  /** A signed and an unsigned 32-bit value with the same bit pattern. */
  predicate SameBits(x: int32, f: uint32) {
    (x as int - f as int) % TWO_TO_32 == 0
  }

  /** `static_cast<RingbufferFlags>(int32_t)`: the wire word read as the flag enumeration.
      `SameBits` pins down a single value on either side (SameBitsDeterminesUnsigned and
      SameBitsDeterminesSigned), so this contract and FlagsToWire's determine the casts. */
  function FlagsFromWire(x: int32): (f: RingbufferFlags)
    ensures SameBits(x, f)
  {
    if x < 0 then (x as int + TWO_TO_32) as uint32 else x as uint32
  }

  /** `static_cast<int32_t>(RingbufferFlags)`: the flag enumeration written as a wire word. */
  function FlagsToWire(f: RingbufferFlags): (x: int32)
    ensures SameBits(x, f)
  {
    if f < 0x8000_0000 then f as int32 else (f as int - TWO_TO_32) as int32
  }

  /** A bit pattern determines the unsigned value it stands for. */
  lemma SameBitsDeterminesUnsigned(x: int32, f: uint32, g: uint32)
    requires SameBits(x, f) && SameBits(x, g)
    ensures f == g
  {
  }

  /** A bit pattern determines the signed value it stands for. */
  lemma SameBitsDeterminesSigned(x: int32, y: int32, f: uint32)
    requires SameBits(x, f) && SameBits(y, f)
    ensures x == y
  {
  }

  /** Reading a wire word as flags and writing it back gives the same word. */
  lemma FlagsWireRoundTrip(x: int32)
    ensures FlagsToWire(FlagsFromWire(x)) == x
  {
  }

  /** Writing flags to the wire and reading them back gives the same flags. */
  lemma FlagsValueRoundTrip(f: RingbufferFlags)
    ensures FlagsFromWire(FlagsToWire(f)) == f
  {
  }
}
