/** Java's fixed-width integers and the part of java.math.BigDecimal the gateway relies on. */
module Numeric {

  const TWO_TO_63: int := 0x8000_0000_0000_0000
  const TWO_TO_64: int := 0x1_0000_0000_0000_0000

  /** Java `int`. */
  type Int32 = x: int | -0x8000_0000 <= x < 0x8000_0000

  /** Java `long`. */
  type Int64 = x: int | -0x8000_0000_0000_0000 <= x < 0x8000_0000_0000_0000

  predicate IsLong(x: int) {
    -TWO_TO_63 <= x < TWO_TO_63
  }

  /** Narrowing of an unbounded integer to `long`: only the low-order 64 bits are kept,
      read as two's complement (what BigInteger.longValue does). */
  function WrapToLong(x: int): (r: Int64)
    ensures (x - r) % TWO_TO_64 == 0
    ensures IsLong(x) ==> r == x
  {
    var m := x % TWO_TO_64;
    if m < TWO_TO_63 then m else m - TWO_TO_64
  }

  function Pow10(n: nat): (r: nat)
    ensures r >= 1
  {
    if n == 0 then 1 else 10 * Pow10(n - 1)
  }

  /** Integer division rounding toward zero (BigInteger.divide, Java's `/`), unlike Dafny's
      Euclidean `/`. */
  function TruncDiv(a: int, b: int): (q: int)
    requires b > 0
    ensures a >= 0 ==> q >= 0 && q * b <= a < (q + 1) * b
    ensures a < 0 ==> q <= 0 && (q - 1) * b < a <= q * b
  {
    if a >= 0 then
      DivBounds(a, b);
      a / b
    else
      DivBounds(-a, b);
      -((-a) / b)
  }

  lemma DivBounds(a: nat, b: int)
    requires b > 0
    ensures a / b >= 0 && (a / b) * b <= a < (a / b + 1) * b
  {
    var q, r := a / b, a % b;
    assert a == q * b + r && 0 <= r < b;
    assert (q + 1) * b == q * b + b;
  }

  /** A java.math.BigDecimal: the number unscaled * 10^(-scale). Two decimals with the same
      value but different scales are different, as BigDecimal.equals has it. */
  datatype Decimal = Decimal(unscaled: int, scale: int)
}
