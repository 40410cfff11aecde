/**
 * Machine-integer helpers shared by the three driver models: C's fixed-width
 * wrap-around, C's truncating division, ceiling division, powers, and the
 * outcome of a driver routine modelled as a pure function.
 */
module Bits {

  datatype Option<T> = None | Some(value: T)

  /** Values of C's uint8_t, uint16_t and uint32_t. */
  type U8 = x: int | 0 <= x < 0x100
  type U16 = x: int | 0 <= x < 0x1_0000
  type U32 = x: int | 0 <= x < 0x1_0000_0000

  /**
   * Outcome of a driver routine: `Ok` with its result, `Fail` with the
   * negative status code the C routine returns, or `Undefined` where the
   * C code divides by zero (undefined behaviour in C).
   */
  datatype Outcome<T> = Ok(value: T) | Fail(code: int) | Undefined

  function Pow(b: nat, e: nat): (r: nat)
    ensures b > 0 ==> r > 0
  {
    if e == 0 then 1 else b * Pow(b, e - 1)
  }

  /** Conversion to uint8_t: the value modulo 2^8. */
  function W8(x: int): (r: nat)
    ensures r < 0x100
    ensures 0 <= x < 0x100 ==> r == x
  {
    x % 0x100
  }

  /** Conversion to uint16_t: the value modulo 2^16. */
  function W16(x: int): (r: nat)
    ensures r < 0x1_0000
    ensures 0 <= x < 0x1_0000 ==> r == x
  {
    x % 0x1_0000
  }

  /** Conversion to uint32_t: the value modulo 2^32. */
  function W32(x: int): (r: nat)
    ensures r < 0x1_0000_0000
    ensures 0 <= x < 0x1_0000_0000 ==> r == x
  {
    x % 0x1_0000_0000
  }

  /** A field of at most 8 bits read into a uint8_t. */
  function Raw8(field: bv32): U8
  {
    W8(field as int)
  }

  /** A field of at most 16 bits read into a uint16_t. */
  function Raw16(field: bv32): U16
  {
    W16(field as int)
  }

  /** A value below 2^32 as a 32-bit register word. */
  function Word(x: nat): bv32
    requires x < 0x1_0000_0000
  {
    x as bv32
  }

  /** A uint8_t widened to uint32_t. */
  function Zext8(x: U8): bv32
  {
    (x as bv8) as bv32
  }

  /** A uint16_t widened to uint32_t. */
  function Zext16(x: U16): bv32
  {
    (x as bv16) as bv32
  }

  lemma MulAtLeast(k: int, m: int)
    requires k >= 1 && m > 0
    ensures k * m >= m
  {
    assert k * m == (k - 1) * m + m;
  }

  /** Quotient and remainder are determined by any decomposition x == d*m + s with 0 <= s < m. */
  lemma {:induction false} DivUnique(x: int, m: int, d: int, s: int)
    requires m > 0 && 0 <= s < m && x == d * m + s
    ensures x / m == d && x % m == s
  {
    var q, r := x / m, x % m;
    assert q * m + r == d * m + s;
    assert (q - d) * m == q * m - d * m;
    if q > d {
      MulAtLeast(q - d, m);
    } else if q < d {
      MulAtLeast(d - q, m);
    }
  }

  /** Dividing twice is dividing by the product: the effect of two successive right shifts. */
  lemma {:induction false} DivDiv(x: nat, a: nat, b: nat)
    requires a > 0 && b > 0
    ensures x / a / b == x / (a * b)
  {
    var q, r := x / a, x % a;
    var q2, r2 := q / b, q % b;
    assert x == q * a + r;
    assert q == q2 * b + r2;
    NestedDigits(a, b, q2, r2, r);
    DivUnique(x, a * b, q2, r2 * a + r);
  }

  /** A two-level mixed-radix number: (q2*b + r2)*a + r, with digits r2 < b and r < a. */
  lemma NestedDigits(a: nat, b: nat, q2: nat, r2: nat, r: nat)
    requires r < a && r2 < b
    ensures (q2 * b + r2) * a + r == q2 * (a * b) + (r2 * a + r)
    ensures r2 * a + r < a * b
  {
    assert (q2 * b + r2) * a == q2 * (a * b) + r2 * a;
    MulMono(r2, b - 1, a);
    assert (b - 1) * a == a * b - a;
  }

  lemma MulMono(a: nat, b: nat, c: nat)
    requires a <= b
    ensures a * c <= b * c
  {
  }

  /** The floor quotient is the number of whole m-sized pieces in x. */
  lemma DivBounds(x: nat, m: nat)
    requires m > 0
    ensures (x / m) * m <= x < (x / m + 1) * m
  {
    DivUnique(x, m, x / m, x % m);
    assert (x / m + 1) * m == (x / m) * m + m;
  }

  lemma MulLess(a: nat, b: nat, bigA: nat, bigB: nat)
    requires a < bigA && b < bigB
    ensures a * b < bigA * bigB
  {
    assert a * bigB - a * b == a * (bigB - b);
    assert bigA * bigB - a * bigB == (bigA - a) * bigB;
    MulAtLeast(bigA - a, bigB);
  }

  /** Reducing an intermediate result modulo 2^32 does not change the final one. */
  lemma W32Add(x: int, y: int)
    ensures W32(W32(x) + y) == W32(x + y)
  {
    var m := 0x1_0000_0000;
    var q := x / m;
    DivUnique(x, m, q, x % m);
    var z := x + y;
    DivUnique(z, m, z / m, z % m);
    assert W32(x) + y == (z / m - q) * m + z % m;
    DivUnique(W32(x) + y, m, z / m - q, z % m);
  }

  lemma MulGrows(k: nat, m: nat)
    requires m >= 1
    ensures k <= k * m
  {
    if k > 0 { MulAtLeast(m, k); }
  }

  /**
   * The drivers' rounding-up division, `a / b + (a % b ? 1 : 0)`: the
   * least number of b-sized pieces that hold a.
   */
  function CeilDiv(a: nat, b: nat): (r: nat)
    requires b > 0
    ensures r * b >= a
    ensures r > 0 ==> (r - 1) * b < a
    ensures r <= a
  {
    DivUnique(a, b, a / b, a % b);
    MulGrows(a / b, b);
    if a % b != 0 then
      assert (a / b + 1) * b == a / b * b + b;
      a / b + 1
    else
      assert a / b * b == a;
      a / b
  }

  /** C's signed division, which truncates toward zero, for a positive divisor. */
  function CQuot(a: int, b: int): (q: int)
    requires b > 0
    ensures a >= 0 ==> q >= 0 && q * b <= a < (q + 1) * b
    ensures a < 0 ==> q <= 0 && (q - 1) * b < a <= q * b
  {
    if a >= 0 then
      DivBounds(a, b);
      QuotNonNegative(a, b);
      a / b
    else
      QuotNonNegative(-a, b);
      NegatedQuotBounds(-a, b);
      -((-a) / b)
  }

  lemma QuotNonNegative(n: int, m: int)
    requires n >= 0 && m > 0
    ensures n / m >= 0
  {
  }

  /** The negated floor quotient of n by m brackets -n from above. */
  lemma NegatedQuotBounds(n: int, m: int)
    requires n >= 0 && m > 0
    ensures (-(n / m) - 1) * m < -n <= -(n / m) * m
  {
    var q := n / m;
    DivBounds(n, m);
    assert -q * m == -(q * m);
    assert (-q - 1) * m == -((q + 1) * m);
  }

  /** C's signed remainder `a % b` for a positive divisor: its sign follows a. */
  function CRem(a: int, b: int): (r: int)
    requires b > 0
    ensures r == 0 <==> a % b == 0
    ensures -b < r < b
    ensures a >= 0 ==> r >= 0
    ensures a < 0 ==> r <= 0
    ensures CQuot(a, b) * b + r == a
  {
    var r := a - b * CQuot(a, b);
    if a >= 0 then
      r
    else
      DivUnique(-a, b, (-a) / b, (-a) % b);
      if (-a) % b == 0 then
        DivUnique(a, b, -((-a) / b), 0);
        r
      else
        assert r == -((-a) % b);
        DivUnique(a, b, -((-a) / b) - 1, b - (-a) % b);
        r
  }
}
