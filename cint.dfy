/** Fixed-width C integer types (the 32-bit `int` that arithmetic is done in,
    and the unsigned `uint8_t` and `uint32_t`) and the truncating conversions
    that C applies when a wider `int` value is stored into an unsigned one. */
module CInt {

  const Uint8Modulus: nat := 0x100
  const Uint32Modulus: nat := 0x1_0000_0000

  /** The largest value of a 32-bit C `int`. */
  const Int32Max: int := 0x7FFF_FFFF

  type int32 = x: int | -0x8000_0000 <= x <= 0x7FFF_FFFF
  type uint8 = x: int | 0 <= x < 0x100
  type uint32 = x: int | 0 <= x < 0x1_0000_0000

  /** Storing an `int` into a `uint8_t`: reduction modulo 2^8. */
  function ToUint8(x: int): (r: uint8)
    ensures 0 <= x < Uint8Modulus ==> r == x
    ensures (r - x) % Uint8Modulus == 0
  {
    x % Uint8Modulus
  }

  /** Storing an `int` into a `uint32_t`: reduction modulo 2^32. */
  function ToUint32(x: int): (r: uint32)
    ensures 0 <= x < Uint32Modulus ==> r == x
    ensures (r - x) % Uint32Modulus == 0
  {
    x % Uint32Modulus
  }
}
