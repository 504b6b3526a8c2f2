/** Java's 32-bit int arithmetic: the narrowing cast (wrap-around) and truncating division and remainder. */
module JavaInts {
  import opened JavaStrings

  const TwoTo32: int := 0x1_0000_0000

  predicate IsInt32(x: int) { Int32Min <= x <= Int32Max }

  /** The values of a Java int. */
  type Int32 = x: int | Int32Min <= x <= Int32Max

  /** (int) x, and the result of int arithmetic that overflowed: the low 32 bits as two's complement. */
  function Wrap32(x: int): (r: int)
    ensures IsInt32(r)
    ensures (x - r) % TwoTo32 == 0
    ensures IsInt32(x) ==> r == x
  {
    (x - Int32Min) % TwoTo32 + Int32Min
  }

  /** Java's a / b on a positive divisor: the quotient is truncated toward zero. */
  function TruncDiv(a: int, b: int): (r: int)
    requires b > 0
    ensures a >= 0 ==> 0 <= r * b <= a < r * b + b
    ensures a < 0 ==> r * b - b < a <= r * b <= 0
  {
    if a >= 0 then DivBounds(a, b); a / b
    else DivBounds(-a, b); -((-a) / b)
  }

  /** Java's a % b on a positive divisor: the remainder takes the sign of the dividend. */
  function JavaRem(a: int, b: int): (r: int)
    requires b > 0
    ensures TruncDiv(a, b) * b + r == a
    ensures a >= 0 ==> 0 <= r < b
    ensures a < 0 ==> -b < r <= 0
    ensures 0 <= a < b ==> r == a
  {
    a - TruncDiv(a, b) * b
  }

  /** Euclidean division of a non-negative number brackets it between consecutive multiples. */
  lemma DivBounds(a: int, b: int)
    requires a >= 0 && b > 0
    ensures 0 <= a / b && (a / b) * b <= a < (a / b) * b + b
  {
    assert a == (a / b) * b + a % b;
  }
}
