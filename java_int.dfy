/**
 * Java's 32-bit two's-complement `int` and the wrapping arithmetic its
 * `*` and `+` operators perform.
 */
module JavaInt {

  const TWO_31: int := 0x8000_0000
  const TWO_32: int := 0x1_0000_0000

  /** The values of Java's `int`. */
  type Int32 = x: int | -0x8000_0000 <= x < 0x8000_0000

  /**
   * The `int` that a Java computation with exact result x leaves behind:
   * the one 32-bit value congruent to x modulo 2^32.
   */
  function Wrap(x: int): (r: Int32)
    ensures (x - r) % TWO_32 == 0
    ensures -TWO_31 <= x < TWO_31 ==> r == x
  {
    (x + TWO_31) % TWO_32 - TWO_31
  }

  /** Java `a * b` on two `int`s. */
  function Mul(a: Int32, b: Int32): Int32
  {
    Wrap(a * b)
  }

  /** Java `a + b` on two `int`s. */
  function Add(a: Int32, b: Int32): Int32
  {
    Wrap(a + b)
  }

  /**
   * Wrapping an intermediate result does not change the final wrapped
   * value: Java's step-by-step `int` arithmetic agrees with exact
   * arithmetic reduced once at the end.
   */
  lemma WrapAbsorbs(x: int, y: int)
    ensures Wrap(Wrap(x) + y) == Wrap(x + y)
  {
  }

  /** Java `int` addition is injective in its second operand. */
  lemma AddCancels(a: Int32, b: Int32, c: Int32)
    ensures Add(a, b) == Add(a, c) <==> b == c
  {
  }
}
