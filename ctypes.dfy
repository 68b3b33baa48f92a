/**
 * The fixed-width integer types of the C code. Only ranges are modelled;
 * where the code converts between widths the conversion is written out.
 */
module CTypes {

  newtype int8 = x: int | -0x80 <= x < 0x80
  newtype uint8 = x: int | 0 <= x < 0x100
  newtype int16 = x: int | -0x8000 <= x < 0x8000
  newtype uint16 = x: int | 0 <= x < 0x1_0000
  newtype int32 = x: int | -0x8000_0000 <= x < 0x8000_0000
  newtype uint32 = x: int | 0 <= x < 0x1_0000_0000
  newtype int64 = x: int | -0x8000_0000_0000_0000 <= x < 0x8000_0000_0000_0000
  newtype uint64 = x: int | 0 <= x < 0x1_0000_0000_0000_0000

  /**
   * The C cast `(int32_t)x` of a 64-bit value: two's-complement truncation to
   * the low 32 bits. The result agrees with `x` modulo 2^32, and equals `x`
   * whenever `x` already fits.
   */
  function ToInt32(x: int64): (r: int32)
    ensures (x as int - r as int) % 0x1_0000_0000 == 0
    ensures -0x8000_0000 <= x as int < 0x8000_0000 ==> r as int == x as int
  {
    var low := x as int % 0x1_0000_0000;
    if low < 0x8000_0000 then low as int32 else (low - 0x1_0000_0000) as int32
  }
}
