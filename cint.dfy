/** Fixed-width C integer types and C's truncating division, shared by the
    Hall decoder and the current pipeline. */
module CInt {

  type Int16 = x: int | -0x8000 <= x < 0x8000
  type UInt16 = x: int | 0 <= x < 0x1_0000
  type Int32 = x: int | -0x8000_0000 <= x < 0x8000_0000

  function Abs(x: int): (r: nat)
    ensures r == x || r == -x
  {
    if x < 0 then -x else x
  }

  /** `(int16_t)u`: reinterprets a 16-bit unsigned value as two's complement.
      For `u >= 0x8000` this conversion is implementation-defined in C99
      (section 6.3.1.3 of ISO/IEC 9899:1999); the model takes the usual
      two's-complement compiler behaviour of keeping the value modulo 2^16. */
  function AsInt16(u: UInt16): (r: Int16)
    ensures r % 0x1_0000 == u
    ensures u < 0x8000 ==> r == u
  {
    if u < 0x8000 then u else u - 0x1_0000
  }

  /** Narrowing of a 32-bit value to `int16_t`. C99 leaves an out-of-range
      conversion implementation-defined (section 6.3.1.3 of ISO/IEC
      9899:1999); the model takes the usual two's-complement compiler
      behaviour: the value is kept modulo 2^16 and read as two's complement. */
  function WrapInt16(x: Int32): (r: Int16)
    ensures (r - x) % 0x1_0000 == 0
    ensures -0x8000 <= x < 0x8000 ==> r == x
  {
    var m := x % 0x1_0000;
    if m < 0x8000 then m else m - 0x1_0000
  }

  /** C99 integer division: the quotient is truncated toward zero.
      (Dafny's own `/` is Euclidean, which differs for a negative dividend.) */
  function CDiv(a: int, b: int): (q: int)
    requires b != 0
    ensures Abs(q) == Abs(a) / Abs(b)
    ensures (a >= 0) == (b > 0) ==> q >= 0
    ensures (a >= 0) != (b > 0) ==> q <= 0
  {
    var n := Abs(a) / Abs(b);
    DivNonNegative(Abs(a), Abs(b));
    if (a >= 0) == (b > 0) then n else -n
  }

  lemma DivNonNegative(a: nat, b: int)
    requires b > 0
    ensures a / b >= 0
  {
    var q, r := a / b, a % b;
    assert a == q * b + r && 0 <= r < b;
  }

  /** Dividing a multiple of `d` by `d` gives back the factor, whatever the
      signs: the case the temperature formula's fixed point relies on. */
  lemma CDivMultiple(m: nat, d: int)
    requires d != 0
    ensures CDiv(m * d, d) == m
  {
    var q := CDiv(m * d, d);
    assert Abs(m * d) == m * Abs(d) by {
      if d < 0 { assert m * d == -(m * -d); }
    }
    DivExact(m, Abs(d));
    if m > 0 {
      assert q > 0 by {
        assert Abs(q) == m;
        if d > 0 { assert m * d > 0; } else { assert m * d < 0; }
      }
    }
  }

  lemma DivExact(m: nat, n: int)
    requires n > 0
    ensures (m * n) / n == m
  {
    var q, r := (m * n) / n, (m * n) % n;
    assert m * n == q * n + r && 0 <= r < n;
    QuotientUnique(m, n, q, r);
  }

  lemma QuotientUnique(m: int, n: int, q: int, r: int)
    requires n > 0 && 0 <= r < n
    requires m * n == q * n + r
    ensures q == m
  {
    if q < m {
      assert (q + 1) * n == q * n + n;
      MulMonotone(q + 1, m, n);
    } else if q > m {
      assert (m + 1) * n == m * n + n;
      MulMonotone(m + 1, q, n);
    }
  }

  lemma MulMonotone(x: int, y: int, n: int)
    requires x <= y && n > 0
    ensures x * n <= y * n
  {
    assert y * n - x * n == (y - x) * n;
  }
}
