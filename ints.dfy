/** Fixed-width integer types of the C++ source, as bounded subsets of int. */
module Ints {
  newtype uint8 = x: int | 0 <= x < 0x100
  newtype uint16 = x: int | 0 <= x < 0x1_0000
  newtype uint32 = x: int | 0 <= x < 0x1_0000_0000
  newtype int32 = x: int | -0x8000_0000 <= x < 0x8000_0000

  const UINT32_LIMIT: int := 0x1_0000_0000

  /** Unsigned 32-bit wrap-around of an integer result. */
  function Wrap32(x: int): (r: uint32)
    ensures 0 <= x < UINT32_LIMIT ==> r as int == x
    ensures (r as int - x) % UINT32_LIMIT == 0
  {
    (x % UINT32_LIMIT) as uint32
  }
}
