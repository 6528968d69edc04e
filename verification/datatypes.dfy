/**
  The fixed-width integer types of the TI C2000 target. On that compiler
  `short` is 16 bits and `long` is 32 bits, so each typedef becomes a
  newtype over `int` restricted to the range of its two's-complement or
  unsigned representation.
 */
module DataTypes {

  const INT16_MIN: int := -0x8000
  const INT16_MAX: int := 0x7FFF
  const INT32_MIN: int := -0x8000_0000
  const INT32_MAX: int := 0x7FFF_FFFF
  const UINT16_MAX: int := 0xFFFF
  const UINT32_MAX: int := 0xFFFF_FFFF

  /** `typedef short int16;` */
  newtype Int16 = x: int | INT16_MIN <= x <= INT16_MAX

  /** `typedef long int32;` */
  newtype Int32 = x: int | INT32_MIN <= x <= INT32_MAX

  /** `typedef unsigned short Uint16;` */
  newtype Uint16 = x: int | 0 <= x <= UINT16_MAX

  /** `typedef unsigned long Uint32;` */
  newtype Uint32 = x: int | 0 <= x <= UINT32_MAX
}
