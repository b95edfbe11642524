/** Integer semantics of the 8-bit AVR target the firmware is compiled for
    (an ATmega328P): `char` is 8 bits, `short` and `int` are 16 bits, `long`
    is 32 bits.  Dafny's integers are unbounded, so every narrowing, every
    wrap-around and every C operator whose meaning differs from Dafny's is
    written out here once and used by the rest of the model. */
module CInt {

  newtype u8 = x: int | 0 <= x < 0x100
  newtype u16 = x: int | 0 <= x < 0x1_0000
  newtype u32 = x: int | 0 <= x < 0x1_0000_0000

  const TWO16: int := 0x1_0000
  const TWO32: int := 0x1_0000_0000

  /** The value fits a signed 16-bit `short` / `int`. */
  predicate InI16(x: int) { -0x8000 <= x < 0x8000 }

  /** The value fits a signed 32-bit `long`. */
  predicate InI32(x: int) { -0x8000_0000 <= x < 0x8000_0000 }

  function Abs(x: int): nat { if x < 0 then -x else x }

  /** Two bytes read most significant first, assembled into an
      `unsigned short`. */
  function Word(msb: u8, lsb: u8): (w: u16)
    ensures w as int / 256 == msb as int && w as int % 256 == lsb as int
  {
    (msb as int * 256 + lsb as int) as u16
  }

  /** Arithmetic on `unsigned long`: the result is reduced modulo 2^32. */
  function Wrap32(x: int): (r: u32)
    ensures 0 <= x < TWO32 ==> r as int == x
    ensures (x - r as int) % TWO32 == 0
  {
    (x % TWO32) as u32
  }

  /** Arithmetic on a 16-bit `unsigned int`: the result is reduced modulo
      2^16. */
  function Wrap16(x: int): (r: u16)
    ensures 0 <= x < TWO16 ==> r as int == x
    ensures (x - r as int) % TWO16 == 0
  {
    (x % TWO16) as u16
  }

  /** Reinterpreting an `unsigned short` as a `short` (the two share storage
      in a union): the two's-complement value with the same bit pattern. */
  function ToShort(w: u16): (r: int)
    ensures InI16(r)
    ensures r % TWO16 == w as int
  {
    if w < 0x8000 then w as int else w as int - TWO16
  }

  /** Converting an `unsigned long` to a `long`: avr-gcc keeps the bit
      pattern, so values of 2^31 and above come out negative. */
  function ToLong(u: u32): (r: int)
    ensures InI32(r)
    ensures Wrap32(r) == u
  {
    if u < 0x8000_0000 then u as int else u as int - TWO32
  }

  /** C's `/` on signed operands: the quotient is truncated toward zero.
      Dafny's own `/` is Euclidean and differs for negative dividends. */
  function TDiv(a: int, b: int): int
    requires b != 0
  {
    if (a < 0) == (b < 0) then Abs(a) / Abs(b) else -(Abs(a) / Abs(b))
  }

  /** C's `%` on signed operands: what is left after truncating division. */
  function TRem(a: int, b: int): int
    requires b != 0
  {
    a - TDiv(a, b) * b
  }

  /** Truncating division leaves a remainder smaller than the divisor that
      is zero or has the sign of the dividend. */
  lemma TruncatedDivision(a: int, b: int)
    requires b != 0
    ensures Abs(TRem(a, b)) < Abs(b)
    ensures TRem(a, b) == 0 || (TRem(a, b) < 0 <==> a < 0)
    ensures a == TDiv(a, b) * b + TRem(a, b)
  {
    var m := Abs(a) / Abs(b);
    assert Abs(a) - m * Abs(b) < Abs(b);
    if (a < 0) == (b < 0) {
      assert m * b == (if b < 0 then -(m * Abs(b)) else m * Abs(b));
    } else {
      assert -m * b == (if b < 0 then m * Abs(b) else -(m * Abs(b)));
    }
  }

  /** On a non-negative dividend and a positive divisor, C's `/` and `%`
      agree with Dafny's. */
  lemma NonNegativeDivision(a: int, b: int)
    requires a >= 0 && b > 0
    ensures TDiv(a, b) == a / b && TRem(a, b) == a % b
    ensures 0 <= a / b <= a && 0 <= a % b < b
  {
    MulMonotone(1, b, a / b);
  }

  /** Multiplying by a non-negative factor keeps the order. */
  lemma MulMonotone(x: int, y: int, d: nat)
    ensures x <= y ==> x * d <= y * d
  {
    if x <= y {
      assert y * d - x * d == (y - x) * d;
    }
  }

  /** Euclidean division is pinned down by its bracket. */
  lemma {:induction false} DivBracket(a: int, d: int, q: int)
    requires d > 0 && q * d <= a < (q + 1) * d
    ensures a / d == q
  {
    var q', r' := a / d, a % d;
    assert a == q' * d + r' && 0 <= r' < d;
    MulMonotone(q' + 1, q, d);
    MulMonotone(q + 1, q', d);
  }

  function Pow2(k: nat): (p: nat)
    ensures p >= 1
  {
    if k == 0 then 1 else 2 * Pow2(k - 1)
  }

  /** `a >> k` on a signed `long`: avr-gcc shifts arithmetically, which is
      division by 2^k rounded toward minus infinity. */
  function Asr(a: int, k: nat): (r: int)
    ensures r * Pow2(k) <= a < (r + 1) * Pow2(k)
  {
    a / Pow2(k)
  }

  /** `millis() - t` on `unsigned long`: the elapsed time, correct across a
      wrap of the millisecond counter. */
  function Elapsed(now: u32, since: u32): (d: u32)
    ensures (since as int + d as int) % TWO32 == now as int
  {
    Wrap32(now as int - since as int)
  }

  /** However far the counter has run past `since` (less than one full
      period), the subtraction recovers the distance, even when the counter
      wrapped through zero on the way. */
  lemma {:induction false} ElapsedAcrossWrap(since: u32, d: nat)
    requires d < TWO32
    ensures Elapsed(Wrap32(since as int + d), since) as int == d
  {
    var now := Wrap32(since as int + d);
    if since as int + d < TWO32 {
      assert now as int == since as int + d;
    } else {
      assert now as int == since as int + d - TWO32;
      assert now as int - since as int == d - TWO32;
    }
  }
}
