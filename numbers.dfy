/** Fixed-width integer types of the boundary and the explicit casts the sources perform. */
module Numbers {
  const TWO_7: int := 0x80
  const TWO_8: int := 0x100
  const TWO_31: int := 0x8000_0000
  const TWO_32: int := 0x1_0000_0000
  const TWO_52: int := 0x10_0000_0000_0000
  const TWO_53: int := 0x20_0000_0000_0000
  const TWO_63: int := 0x8000_0000_0000_0000
  const TWO_64: int := 0x1_0000_0000_0000_0000
  const TWO_128: int := 0x1_0000_0000_0000_0000_0000_0000_0000_0000

  type U8 = x: int | 0 <= x < TWO_8
  type I8 = x: int | -TWO_7 <= x < TWO_7
  type U32 = x: int | 0 <= x < TWO_32
  type I32 = x: int | -TWO_31 <= x < TWO_31
  type U64 = x: int | 0 <= x < TWO_64
  type I64 = x: int | -TWO_63 <= x < TWO_63
  type U128 = x: int | 0 <= x < TWO_128

  /** An IEEE 754 binary64 value, kept as its bit pattern; arithmetic on it is never modelled. */
  type F64Bits = x: int | 0 <= x < TWO_64

  /** Go `uint64(x)` / C `(uint64_t)x` on a signed value: reduction modulo 2^64. */
  function WrapU64(x: int): (r: U64)
    ensures 0 <= x < TWO_64 ==> r == x
    ensures -TWO_64 <= x < 0 ==> r == x + TWO_64
  {
    x % TWO_64
  }

  /** Go `uint32(x)`: reduction modulo 2^32. */
  function WrapU32(x: int): (r: U32)
    ensures 0 <= x < TWO_32 ==> r == x
    ensures TWO_32 <= x < 2 * TWO_32 ==> r == x - TWO_32
  {
    x % TWO_32
  }

  /** Go `uint8(x)` / C `(uint8_t)x`: reduction modulo 2^8. */
  function WrapU8(x: int): (r: U8)
    ensures 0 <= x < TWO_8 ==> r == x
    ensures TWO_8 <= x < 2 * TWO_8 ==> r == x - TWO_8
  {
    x % TWO_8
  }

  /** Go `int8(x)` on an int32: the low eight bits read as two's complement. */
  function WrapI8(x: int): (r: I8)
    ensures -TWO_7 <= x < TWO_7 ==> r == x
    ensures TWO_7 <= x < TWO_8 ==> r == x - TWO_8
  {
    var low := x % TWO_8;
    if low < TWO_7 then low else low - TWO_8
  }

  /** JavaScript `BigInt64Array` element store: BigInt.asIntN(64, x). */
  function WrapI64(x: int): (r: I64)
    ensures -TWO_63 <= x < TWO_63 ==> r == x
    ensures TWO_63 <= x < TWO_64 ==> r == x - TWO_64
  {
    var low := x % TWO_64;
    if low < TWO_63 then low else low - TWO_64
  }

  /** The 11 exponent bits of a binary64 pattern. */
  function Exponent(f: F64Bits): (e: nat)
    ensures e < 0x800
  {
    (f / TWO_52) % 0x800
  }

  /** The 52 fraction bits of a binary64 pattern. */
  function Fraction(f: F64Bits): (m: nat)
    ensures m < TWO_52
  {
    f % TWO_52
  }

  /** NaN or an infinity: the exponent field is all ones. */
  predicate NonFinite(f: F64Bits)
  {
    Exponent(f) == 0x7FF
  }

  /** Positive or negative zero. */
  predicate IsZero(f: F64Bits)
  {
    f % TWO_63 == 0
  }

  predicate IsNaN(f: F64Bits)
  {
    NonFinite(f) && Fraction(f) != 0
  }

  function Pow2(n: nat): (r: nat)
    ensures r >= 1
  {
    if n == 0 then 1 else 2 * Pow2(n - 1)
  }

  /**
   * The value of a binary64 that holds an integer (JavaScript `Number.isInteger`): it is finite
   * and either zero or a normal number whose fraction has no bits below the binary point.
   */
  predicate IsIntegral(f: F64Bits)
  {
    var e := Exponent(f);
    if e == 0x7FF then false
    else if e == 0 then Fraction(f) == 0
    else if e < 1023 then false
    else if e >= 1023 + 52 then true
    else Fraction(f) % Pow2(52 - (e - 1023)) == 0
  }

  /** The integer a binary64 holds, when IsIntegral; its sign is bit 63. */
  function IntegralValue(f: F64Bits): int
    requires IsIntegral(f)
  {
    var e := Exponent(f);
    var magnitude :=
      if e == 0 then 0
      else if e >= 1023 + 52 then (TWO_52 + Fraction(f)) * Pow2(e - 1023 - 52)
      else (TWO_52 + Fraction(f)) / Pow2(52 - (e - 1023));
    if f >= TWO_63 then -magnitude else magnitude
  }

  /** IEEE 754 round-to-nearest-even of an integer to the binary64 grid. */
  function RoundToF64(i: int): (r: int)
    ensures -TWO_53 <= i <= TWO_53 ==> r == i
    ensures (i < 0) == (r < 0)
  {
    if i < 0 then
      var m: int := RoundMagnitude(-i);
      -m
    else RoundMagnitude(i)
  }

  /** Position of the last representable bit for a magnitude: 2^Ulp(m) apart neighbours. */
  function UlpExp(m: nat): (e: nat)
    ensures m < TWO_53 * Pow2(e)
    ensures m >= 1 ==> Pow2(e) <= m
    ensures m >= TWO_53 ==> e >= 1 && TWO_52 * Pow2(e) <= m
    decreases m
  {
    if m < TWO_53 then 0
    else
      var e := 1 + UlpExp(m / 2);
      assert TWO_52 * Pow2(e) == 2 * (TWO_52 * Pow2(e - 1));
      e
  }

  function RoundMagnitude(m: nat): (r: nat)
    ensures m <= TWO_53 ==> r == m
    ensures m > 0 ==> r > 0
  {
    if m <= TWO_53 then m
    else
      var u := Pow2(UlpExp(m));
      var q := m / u;
      var rem := m % u;
      assert q >= 1 && q * u >= u;
      if 2 * rem < u then q * u
      else if 2 * rem > u then (q + 1) * u
      else if q % 2 == 0 then q * u
      else (q + 1) * u
  }

  // ---- the binary64 an integer converts to ------------------------------------------------------

  lemma Pow2Add(a: nat, b: nat)
    ensures Pow2(a + b) == Pow2(a) * Pow2(b)
    decreases a
  {
    if a > 0 {
      Pow2Add(a - 1, b);
    }
  }

  lemma Pow2Monotone(a: nat, b: nat)
    requires a <= b
    ensures Pow2(a) <= Pow2(b)
    decreases b - a
  {
    if a < b {
      Pow2Monotone(a, b - 1);
    }
  }

  lemma MulMonotone(a: int, b: int, c: int)
    requires a <= b && c >= 0
    ensures a * c <= b * c
  {
  }

  /** A quotient whose product lies between two multiples of the divisor lies between their factors. */
  lemma QuotientBetween(m: int, q: int, p: int, lo: int, hi: int)
    requires p >= 1 && q * p <= m < (q + 1) * p
    requires lo * p <= m < hi * p
    ensures lo <= q < hi
  {
    if q < lo {
      MulMonotone(q + 1, lo, p);
    }
    if q >= hi {
      MulMonotone(hi, q, p);
    }
  }

  /** The position of the highest set bit: 2^Log2(m) <= m < 2^(Log2(m)+1). */
  function Log2(m: nat): (e: nat)
    requires m >= 1
    ensures Pow2(e) <= m < 2 * Pow2(e)
    decreases m
  {
    if m == 1 then 0 else 1 + Log2(m / 2)
  }

  lemma Log2Unique(m: nat, k: nat)
    requires Pow2(k) <= m < 2 * Pow2(k)
    ensures Log2(m) == k
  {
    var e := Log2(m);
    if e < k {
      Pow2Monotone(e + 1, k);
    }
  }

  /** A positive integer binary64 holds exactly: below 2^1024, with no set bit 53 places under the top one. */
  predicate OnGrid(m: nat)
  {
    m >= 1 && Log2(m) < 1024 && (Log2(m) <= 52 || m % Pow2(Log2(m) - 52) == 0)
  }

  lemma Pow2Literals()
    ensures Pow2(12) == 0x1000 && Pow2(52) == TWO_52 && Pow2(53) == TWO_53
  {
    assert Pow2(6) == 64 && Pow2(7) == 128;
    Pow2Add(6, 6);
    Pow2Add(6, 7);
    Pow2Add(13, 13);
    Pow2Add(26, 26);
    assert Pow2(53) == 2 * Pow2(52);
  }

  /** The fraction field of a positive integer on the grid: the bits below the leading one, left-aligned. */
  function GridFraction(m: nat): (frac: nat)
    requires OnGrid(m)
    ensures frac < TWO_52
    ensures Log2(m) < 52 ==> (TWO_52 + frac) / Pow2(52 - Log2(m)) == m && frac % Pow2(52 - Log2(m)) == 0
    ensures Log2(m) >= 52 ==> (TWO_52 + frac) * Pow2(Log2(m) - 52) == m
  {
    if Log2(m) <= 52 then LowFraction(m) else HighFraction(m)
  }

  function LowFraction(m: nat): (frac: nat)
    requires m >= 1 && Log2(m) <= 52
    ensures frac < TWO_52
    ensures Log2(m) < 52 ==> (TWO_52 + frac) / Pow2(52 - Log2(m)) == m && frac % Pow2(52 - Log2(m)) == 0
    ensures Log2(m) == 52 ==> TWO_52 + frac == m
  {
    var k := Log2(m);
    Pow2Literals();
    Pow2Add(k, 52 - k);
    ScaledFraction(m, Pow2(k), Pow2(52 - k))
  }

  /** With 2^k <= m < 2^(k+1) and 2^k * p == 2^52, the bits of m below bit k shifted up to bit 52. */
  function ScaledFraction(m: int, pk: int, p: int): (frac: nat)
    requires 1 <= pk <= m < 2 * pk && p >= 1 && pk * p == TWO_52
    ensures frac < TWO_52 && frac == (m - pk) * p
    ensures (TWO_52 + frac) / p == m && frac % p == 0
  {
    var frac := (m - pk) * p;
    assert frac == m * p - pk * p;
    MulMonotone(m - pk, pk - 1, p);
    DivModUnique(frac, m - pk, 0, p);
    DivModUnique(TWO_52 + frac, m, 0, p);
    frac
  }

  function HighFraction(m: nat): (frac: nat)
    requires OnGrid(m) && Log2(m) > 52
    ensures frac < TWO_52
    ensures (TWO_52 + frac) * Pow2(Log2(m) - 52) == m
  {
    var k := Log2(m);
    var p := Pow2(k - 52);
    assert TWO_52 * p <= m < TWO_53 * p by {
      Pow2Literals();
      Pow2Add(52, k - 52);
      assert Pow2(k) == TWO_52 * p;
    }
    ExactQuotient(m, p, TWO_52, TWO_53);
    m / p - TWO_52
  }

  /** A multiple m of p with lo * p <= m < hi * p is p times a quotient between lo and hi. */
  lemma ExactQuotient(m: int, p: int, lo: int, hi: int)
    requires p >= 1 && m % p == 0 && lo * p <= m < hi * p
    ensures lo <= m / p < hi && m / p * p == m
  {
    var q := m / p;
    assert m == q * p;
    QuotientBetween(m, q, p, lo, hi);
  }

  /** The sign, exponent and fraction fields put together. */
  lemma Fields(high: nat, frac: nat)
    requires high < 0x1000 && frac < TWO_52
    ensures high * TWO_52 + frac < TWO_64
    ensures Exponent(high * TWO_52 + frac) == high % 0x800
    ensures Fraction(high * TWO_52 + frac) == frac
    ensures high * TWO_52 + frac >= TWO_63 <==> high >= 0x800
  {
    MulMonotone(high, 0xFFF, TWO_52);
    DivModUnique(high * TWO_52 + frac, high, frac, TWO_52);
    if high >= 0x800 {
      MulMonotone(0x800, high, TWO_52);
    } else {
      MulMonotone(high, 0x7FF, TWO_52);
    }
  }

  /** The bit pattern of a signed integer on the grid: sign, biased exponent, fraction. */
  function GridBits(m: nat, negative: bool): (f: F64Bits)
    requires OnGrid(m)
    ensures IsIntegral(f)
    ensures IntegralValue(f) == if negative then -(m as int) else m as int
  {
    var k := Log2(m);
    var frac := GridFraction(m);
    var high := (if negative then 0x800 else 0) + k + 1023;
    Fields(high, frac);
    var f := high * TWO_52 + frac;
    FieldsValue(f, k, frac, m);
    f
  }

  /** A pattern with exponent field k + 1023 and the grid fraction of m holds m, with the sign bit's sign. */
  lemma FieldsValue(f: F64Bits, k: nat, frac: nat, m: nat)
    requires OnGrid(m) && k == Log2(m) && frac == GridFraction(m)
    requires Exponent(f) == k + 1023 && Fraction(f) == frac
    ensures IsIntegral(f)
    ensures IntegralValue(f) == if f >= TWO_63 then -(m as int) else m as int
  {
    if k < 52 {
      assert 52 - (Exponent(f) - 1023) == 52 - k;
    } else {
      assert Exponent(f) - 1023 - 52 == k - 52;
    }
  }

  /** Up to 2^53 every integer is on the grid. */
  lemma SmallOnGrid(n: nat)
    requires 1 <= n <= TWO_53
    ensures OnGrid(n)
  {
    var k := Log2(n);
    Pow2Literals();
    if k > 53 {
      Pow2Monotone(54, k);
    }
    if k == 53 {
      assert n == TWO_53;
      DivModUnique(n, TWO_52, 0, Pow2(1));
    }
  }

  /** A multiple of 2^u whose factor has its leading one at bit 52, or is 2^53, is on the grid. */
  lemma MultipleOnGrid(r: nat, u: nat)
    requires TWO_52 <= r <= TWO_53 && u < 12
    ensures OnGrid(r * Pow2(u))
  {
    Pow2Literals();
    if r < TWO_53 {
      BelowTopOnGrid(r, u);
    } else {
      Pow2Add(53, u);
      Pow2Add(52, u + 1);
      TopOnGrid(u + 53, u + 1);
    }
  }

  lemma BelowTopOnGrid(r: nat, u: nat)
    requires TWO_52 <= r < TWO_53 && u < 12
    ensures OnGrid(r * Pow2(u))
  {
    Log2OfMultiple(r, u);
    DivModUnique(r * Pow2(u), r, 0, Pow2(u));
  }

  lemma Log2OfMultiple(r: nat, u: nat)
    requires TWO_52 <= r < TWO_53
    ensures r * Pow2(u) >= 1 && Log2(r * Pow2(u)) == 52 + u
  {
    var p := Pow2(u);
    Pow2Literals();
    Pow2Add(52, u);
    MulMonotone(TWO_52, r, p);
    MulMonotone(r, TWO_53 - 1, p);
    Log2Unique(r * p, 52 + u);
  }

  /** A power of two 2^k with 52 < k < 1024 is on the grid. */
  lemma TopOnGrid(k: nat, d: nat)
    requires 52 < k < 1024 && d == k - 52
    ensures OnGrid(Pow2(k))
  {
    Log2Unique(Pow2(k), k);
    Pow2Add(52, d);
    DivModUnique(Pow2(k), Pow2(52), 0, Pow2(d));
  }

  /** What rounding to the nearest binary64 yields is on the grid, for any magnitude below 2^64. */
  lemma RoundedOnGrid(n: nat)
    requires 1 <= n < TWO_64
    ensures OnGrid(RoundMagnitude(n))
  {
    if n <= TWO_53 {
      SmallOnGrid(n);
    } else {
      var u := UlpExp(n);
      var p := Pow2(u);
      var q := n / p;
      DivModUnique(n, q, n % p, p);
      QuotientBetween(n, q, p, TWO_52, TWO_53);
      Pow2Literals();
      if u >= 12 {
        Pow2Monotone(12, u);
        MulMonotone(0x1000, p, TWO_52);
      }
      assert RoundMagnitude(n) == q * p || RoundMagnitude(n) == (q + 1) * p;
      if RoundMagnitude(n) == q * p {
        MultipleOnGrid(q, u);
      } else {
        MultipleOnGrid(q + 1, u);
      }
    }
  }

  /**
   * The binary64 an `int64` becomes, as `float64(i)` in Go or reading its decimal text as a
   * JSON number: the nearest value on the grid, ties to even.
   */
  function IntegerBits(i: I64): (f: F64Bits)
    ensures IsIntegral(f) && IntegralValue(f) == RoundToF64(i)
  {
    if i == 0 then
      assert Exponent(0) == 0 && Fraction(0) == 0;
      0
    else if i > 0 then
      var m := RoundMagnitude(i);
      RoundedOnGrid(i);
      assert RoundToF64(i) == m;
      GridBits(m, false)
    else
      var n: nat := -(i as int);
      var m := RoundMagnitude(n);
      RoundedOnGrid(n);
      assert RoundToF64(i) == -(m as int);
      GridBits(m, true)
  }

  /** Euclidean division is determined by its defining equation. */
  lemma DivModUnique(t: int, q: int, r: int, n: int)
    requires n > 0 && 0 <= r < n && t == q * n + r
    ensures t / n == q && t % n == r
  {
    var q2, r2 := t / n, t % n;
    assert (q - q2) * n == r2 - r;
    if q > q2 {
      MulAtLeast(q - q2, n);
    } else if q < q2 {
      MulAtLeast(q2 - q, n);
    }
  }

  lemma MulAtLeast(a: int, n: int)
    requires a >= 1 && n > 0
    ensures a * n >= n
  {
  }
}
