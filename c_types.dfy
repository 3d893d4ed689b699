/**
 * The fixed-width unsigned integers of the C and C++ sources. On the
 * platforms SDL2 supports, `unsigned int` and SDL's `Uint32` are both 32
 * bits wide, and their arithmetic wraps around modulo 2^32.
 */
module CTypes {

  /** 2^32, the number of values of `unsigned int` and of `Uint32`. */
  const UintMod: int := 0x1_0000_0000

  type Uint = n: int | 0 <= n < UintMod

  /** Unsigned subtraction and addition, which wrap around modulo 2^32. */
  function UintSub(a: Uint, b: Uint): Uint { (a - b) % UintMod }
  function UintAdd(a: Uint, b: Uint): Uint { (a + b) % UintMod }

  /** The conversion of a non-negative `size_t` value to `Uint32`: it keeps the low 32 bits. */
  function ToUint32(n: nat): Uint { n % UintMod }
}
