/** C# `int`: 32-bit two's-complement integers and the unchecked addition the cart uses. */
module Int32 {

  const MinValue: int := -0x8000_0000
  const MaxValue: int := 0x7FFF_FFFF
  const Modulus: int := 0x1_0000_0000

  /** The values a C# `int` can hold. */
  type int32 = x: int | -0x8000_0000 <= x <= 0x7FFF_FFFF

  /** `a + b` in C#'s default unchecked context: the exact sum reduced modulo 2^32
      into the `int` range. */
  function WrapAdd(a: int32, b: int32): (r: int32)
    ensures MinValue <= a + b <= MaxValue ==> r == a + b
    ensures a + b > MaxValue ==> r == a + b - Modulus
    ensures a + b < MinValue ==> r == a + b + Modulus
  {
    (a + b - MinValue) % Modulus + MinValue
  }

  /** Adding a positive amount to a non-negative counter wraps to a non-positive value
      exactly when the exact sum leaves the `int` range. */
  lemma AccumulateOverflowIff(current: int32, quantity: int32)
    requires 0 <= current && 0 < quantity
    ensures WrapAdd(current, quantity) <= 0 <==> current + quantity > MaxValue
    ensures current + quantity <= MaxValue ==> WrapAdd(current, quantity) == current + quantity
  {
  }
}
