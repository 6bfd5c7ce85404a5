/** Fixed-width unsigned integers of the C code, with C's wrap-around made explicit. */
module Uint {

  const UINT32_MODULUS: int := 0x1_0000_0000

  type uint8 = x: int | 0 <= x < 0x100

  type uint32 = x: int | 0 <= x < 0x1_0000_0000

  /** C's `a + b` on two `uint32_t` operands: the sum is reduced modulo 2^32. */
  function AddU32(a: uint32, b: uint32): (r: uint32)
    ensures a + b < UINT32_MODULUS ==> r == a + b
    ensures a + b >= UINT32_MODULUS ==> r == a + b - UINT32_MODULUS && r < a
  {
    (a + b) % UINT32_MODULUS
  }
}
