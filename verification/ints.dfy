/** The fixed-width integer types of the source, as subsets of `int`. */
module Ints {
  newtype U8 = x: int | 0 <= x < 0x100
  newtype I8 = x: int | -0x80 <= x < 0x80
  newtype I16 = x: int | -0x8000 <= x < 0x8000
  newtype I32 = x: int | -0x8000_0000 <= x < 0x8000_0000
  newtype I64 = x: int | -0x8000_0000_0000_0000 <= x < 0x8000_0000_0000_0000
}
