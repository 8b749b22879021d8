/** Fixed-width C integer types used by the adapter, and the conversions the
    C "usual arithmetic conversions" apply between them. Dafny integers are
    unbounded, so every wrap-around is written out here. */
module CTypes {

  const U16_MODULUS: nat := 0x1_0000
  const U32_MODULUS: nat := 0x1_0000_0000
  const INT32_MIN: int := -0x8000_0000
  const INT32_MAX: int := 0x7fff_ffff

  /** `uint16_t` */
  type U16 = x: nat | x < U16_MODULUS

  /** `uint32_t` (and `unsigned int`) */
  type U32 = x: nat | x < U32_MODULUS

  /** `int` on the adapter's targets */
  type Int32 = x: int | INT32_MIN <= x <= INT32_MAX

  /** Conversion of any integer value to `uint32_t`: the unique value in range
      congruent to it modulo 2^32. Negative values wrap to the top of the range. */
  function ToU32(x: int): (r: U32)
    ensures (x - r) % U32_MODULUS == 0
    ensures 0 <= x < U32_MODULUS ==> r == x
  {
    x % U32_MODULUS
  }
}
