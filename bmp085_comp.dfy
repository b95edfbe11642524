/** The BMP085 fixed-point compensation: the raw temperature and pressure
    counts and the eleven factory calibration coefficients become the true
    temperature in tenths of a degree Celsius and the pressure in pascals.
    The algorithm is the one of section 3.5 of the Bosch BMP085 datasheet
    ("Calculating pressure and temperature"), in the exact order of
    operations of the firmware: every truncating `/`, every arithmetic `>>`
    and every `unsigned long` wrap is part of the result. */
module Bmp085Comp {
  import opened CInt

  /** `BMP085_Cal.Coeff`: AC1..AC3, B1, B2, MB, MC and MD are `short`,
      AC4..AC6 are `unsigned short`. */
  datatype Coeffs = Coeffs(
    ac1: int, ac2: int, ac3: int,
    ac4: int, ac5: int, ac6: int,
    b1: int, b2: int,
    mb: int, mc: int, md: int)

  /** The coefficients as the union overlays them on the eleven words read
      from the device: the unsigned fields are the words themselves, the
      signed ones their two's-complement reading. */
  function CoeffsOf(dat: seq<u16>): (c: Coeffs)
    requires |dat| == 11
    ensures c.ac4 == dat[3] as int && c.ac5 == dat[4] as int && c.ac6 == dat[5] as int
    ensures InI16(c.ac1) && c.ac1 % TWO16 == dat[0] as int
    ensures InI16(c.ac2) && c.ac2 % TWO16 == dat[1] as int
    ensures InI16(c.ac3) && c.ac3 % TWO16 == dat[2] as int
    ensures InI16(c.b1) && c.b1 % TWO16 == dat[6] as int
    ensures InI16(c.b2) && c.b2 % TWO16 == dat[7] as int
    ensures InI16(c.mb) && c.mb % TWO16 == dat[8] as int
    ensures InI16(c.mc) && c.mc % TWO16 == dat[9] as int
    ensures InI16(c.md) && c.md % TWO16 == dat[10] as int
  {
    Coeffs(ToShort(dat[0]), ToShort(dat[1]), ToShort(dat[2]),
           dat[3] as int, dat[4] as int, dat[5] as int,
           ToShort(dat[6]), ToShort(dat[7]),
           ToShort(dat[8]), ToShort(dat[9]), ToShort(dat[10]))
  }

  // ---------------------------------------------------------------- temperature

  /** `X1 = (Ut - AC6) * AC5 / 32768L`: the product scaled by 2^-15,
      rounded toward zero. */
  function TempX1(c: Coeffs, ut: int): (x1: int)
    requires InI32((ut - c.ac6) * c.ac5)
    ensures Abs(x1) * 32768 <= Abs((ut - c.ac6) * c.ac5) < (Abs(x1) + 1) * 32768
    ensures x1 == 0 || (x1 < 0 <==> (ut - c.ac6) * c.ac5 < 0)
  {
    TDiv((ut - c.ac6) * c.ac5, 32768)
  }

  /** The temperature computation is defined C: the product does not
      overflow a `long` and the divisor `X1 + MD` is not zero. */
  predicate TempDefined(c: Coeffs, ut: int) {
    InI32((ut - c.ac6) * c.ac5) && TempX1(c, ut) + c.md != 0
  }

  /** `X2 = MC * 2048L / (X1 + MD)`. */
  function TempX2(c: Coeffs, ut: int): int
    requires TempDefined(c, ut)
  {
    TDiv(c.mc * 2048, TempX1(c, ut) + c.md)
  }

  /** `B5 = X1 + X2`, kept for the pressure computation. */
  function B5(c: Coeffs, ut: int): int
    requires TempDefined(c, ut)
  {
    TempX1(c, ut) + TempX2(c, ut)
  }

  /** `T = (B5 + 8) / 16`, in tenths of a degree Celsius.  From B5 = -8 up
      this is B5/16 rounded to the nearest integer (halves upward); below,
      the truncating division rounds toward zero instead, so the result can
      be one tenth higher than the nearest value. */
  function TenthsC(b5: int): (t: int)
    ensures b5 >= -8 ==> 16 * t - 8 <= b5 < 16 * t + 8
    ensures b5 < -8 ==> 16 * t - 24 < b5 <= 16 * t - 8
  {
    TDiv(b5 + 8, 16)
  }

  // ---------------------------------------------------------------- pressure

  /** The products feeding `B3` fit a `long`. */
  predicate B3Defined(c: Coeffs, b6: int) {
    InI32(b6 * b6) && InI32(Asr(b6 * b6, 12) * c.b2) && InI32(c.ac2 * b6)
  }

  /** `X1 = ((B6*B6)>>12) * B2 >> 11; X2 = AC2*B6 >> 11; X3 = X1 + X2;
      B3 = ((AC1*4 + X3) + 2) >> 2`. */
  function B3(c: Coeffs, b6: int): int
    requires B3Defined(c, b6)
  {
    var x1 := Asr(Asr(b6 * b6, 12) * c.b2, 11);
    var x2 := Asr(c.ac2 * b6, 11);
    Asr(c.ac1 * 4 + (x1 + x2) + 2, 2)
  }

  /** The products feeding `B4` fit a `long`. */
  predicate B4Defined(c: Coeffs, b6: int) {
    InI32(b6 * b6) && InI32(c.ac3 * b6) && InI32(c.b1 * Asr(b6 * b6, 12))
  }

  /** `X1 = AC3*B6 >> 13; X2 = B1*((B6*B6)>>12) >> 16; X3 = ((X1+X2)+2) >> 2;
      B4 = AC4 * (unsigned long)(X3 + 32768) >> 15`, the last product and
      shift on `unsigned long`. */
  function B4(c: Coeffs, b6: int): (b4: u32)
    requires B4Defined(c, b6)
    ensures b4 as int < 0x2_0000
  {
    var x1 := Asr(c.ac3 * b6, 13);
    var x2 := Asr(c.b1 * Asr(b6 * b6, 12), 16);
    var x3 := Asr(x1 + x2 + 2, 2);
    (Wrap32(c.ac4 * Wrap32(x3 + 32768) as int) as int / 0x8000) as u32
  }

  /** `B7 = (unsigned long)(Up - B3) * 50000L`, on `unsigned long`: the
      exact product whenever it fits 32 bits. */
  function B7(b3: int, up: int): (b7: u32)
    ensures 0 <= up - b3 <= 85899 ==> b7 as int == (up - b3) * 50000
  {
    Wrap32(Wrap32(up - b3) as int * 50000)
  }

  /** `p = B7 < 0x80000000 ? (B7 << 1) / B4 : (B7 / B4) << 1`, on
      `unsigned long`. */
  function Quotient(b7: u32, b4: u32): u32
    requires b4 != 0
  {
    if b7 < 0x8000_0000 then
      (Wrap32(b7 as int * 2) as int / b4 as int) as u32
    else
      Wrap32((b7 as int / b4 as int) * 2)
  }

  /** The products of the final correction fit a `long`. */
  predicate CorrectionDefined(p: int) {
    var x1 := Asr(p, 8);
    InI32(x1 * x1) && InI32(x1 * x1 * 3038) && InI32(p * -7357)
  }

  /** `X1 = (p>>8)^2 * 3038 >> 16; X2 = p * -7357 >> 16;
      (X1 + X2 + 3791) >> 4`. */
  function Correction(p: int): int
    requires CorrectionDefined(p)
  {
    var x1 := Asr(p, 8);
    var x1' := Asr(x1 * x1 * 3038, 16);
    var x2 := Asr(p * -7357, 16);
    Asr(x1' + x2 + 3791, 4)
  }

  /** The whole pressure computation is defined C for this calibration,
      this `B5` and this raw count: no `long` overflows and `B4` is not
      zero. */
  predicate PressDefined(c: Coeffs, b5: int, up: int)
  {
    var b6 := b5 - 4000;
    && InI32(b6)
    && B3Defined(c, b6) && B4Defined(c, b6) && B4(c, b6) != 0
    && InI32(up - B3(c, b6))
    && var p := ToLong(Quotient(B7(B3(c, b6), up), B4(c, b6)));
       CorrectionDefined(p) && InI32(p + Correction(p))
  }

  /** The true pressure in pascals, `p` of lines 201-231. */
  function Pressure(c: Coeffs, b5: int, up: int): int
    requires PressDefined(c, b5, up)
  {
    var b6 := b5 - 4000;
    var p := ToLong(Quotient(B7(B3(c, b6), up), B4(c, b6)));
    p + Correction(p)
  }

  // ---------------------------------------------------------------- properties

  /** Doubling after dividing loses at most the one unit that dividing the
      doubled value keeps. */
  lemma {:induction false} HalvedDivision(x: nat, d: int)
    requires d > 0
    ensures 2 * (x / d) <= (2 * x) / d <= 2 * (x / d) + 1
  {
    var q, r := x / d, x % d;
    assert x == q * d + r && 0 <= r < d;
    if 2 * r < d {
      assert 2 * q * d <= 2 * x < (2 * q + 1) * d;
      DivBracket(2 * x, d, 2 * q);
    } else {
      assert (2 * q + 1) * d <= 2 * x < (2 * q + 2) * d;
      DivBracket(2 * x, d, 2 * q + 1);
    }
  }

  /** On the guarded branch the shift cannot wrap, and on the other branch
      the halved division loses at most one pascal: both compute the exact
      `2*B7 / B4` up to one unit, whenever `(B7/B4) << 1` itself does not
      wrap, that is whenever B4 >= 2. */
  lemma {:induction false} QuotientNearExact(b7: u32, b4: u32)
    requires b4 >= 2
    ensures b7 < 0x8000_0000 ==> Wrap32(b7 as int * 2) as int == 2 * b7 as int
    ensures b7 < 0x8000_0000 ==> Quotient(b7, b4) as int == (2 * b7 as int) / b4 as int
    ensures Quotient(b7, b4) as int <= (2 * b7 as int) / b4 as int <= Quotient(b7, b4) as int + 1
  {
    var x, d := b7 as int, b4 as int;
    HalvedDivision(x, d);
    if x < 0x8000_0000 {
      assert Wrap32(x * 2) as int == x * 2;
      assert Quotient(b7, b4) as int == (x * 2) / d;
    } else {
      var q := x / d;
      assert q * d <= x;
      MulMonotone(2, d, q);
      assert Wrap32(q * 2) as int == q * 2;
      assert Quotient(b7, b4) as int == q * 2;
    }
  }

  /** The coefficients of the worked example in section 3.5 of the BMP085
      datasheet. */
  const DATASHEET := Coeffs(408, -72, -14383, 32741, 32757, 23153, 6190, 4, -32768, -8711, 2868)

  /** The worked example of the datasheet, temperature half: UT = 27898
      gives T = 150, i.e. 15.0 degrees Celsius.  With C's truncating
      division X2 is -2343 where the datasheet, dividing with floor, prints
      -2344, so B5 is 2400 rather than 2399; T is the same either way. */
  lemma DatasheetTemperature()
    ensures TempDefined(DATASHEET, 27898)
    ensures TempX1(DATASHEET, 27898) == 4743
    ensures TempX2(DATASHEET, 27898) == -2343
    ensures (DATASHEET.mc * 2048) / (4743 + DATASHEET.md) == -2344
    ensures B5(DATASHEET, 27898) == 2400
    ensures TenthsC(B5(DATASHEET, 27898)) == 150
  {
    assert TDiv(4745 * 32757, 32768) == 4743;
    assert TDiv(-8711 * 2048, 7611) == -2343;
    assert TDiv(2408, 16) == 150;
  }

  /** The worked example of the datasheet, pressure half: with B5 = 2400
      and UP = 23843 the intermediate values are those the datasheet lists
      (B3 = 422, B4 = 33457, B7 = 1171050000, p = 70003) and the final
      pressure is 69964 Pa. */
  lemma DatasheetPressure()
    ensures PressDefined(DATASHEET, 2400, 23843)
    ensures B3(DATASHEET, -1600) == 422
    ensures B4(DATASHEET, -1600) == 33457
    ensures B7(422, 23843) == 1171050000
    ensures Quotient(1171050000, 33457) == 70003
    ensures Pressure(DATASHEET, 2400, 23843) == 69964
  {
    assert Pow2(2) == 4 && Pow2(4) == 16 && Pow2(8) == 256 && Pow2(11) == 2048;
    assert Pow2(12) == 4096 && Pow2(13) == 8192 && Pow2(16) == 65536;
    assert Asr(2560000, 12) == 625;
    assert Asr(625 * 4, 11) == 1;
    assert Asr(-72 * -1600, 11) == 56;
    assert Asr(408 * 4 + 57 + 2, 2) == 422;
    assert Asr(-14383 * -1600, 13) == 2809;
    assert Asr(6190 * 625, 16) == 59;
    assert Asr(2809 + 59 + 2, 2) == 717;
    assert Wrap32(32741 * 33485) as int / 0x8000 == 33457;
    assert Asr(70003, 8) == 273;
    assert Asr(273 * 273 * 3038, 16) == 3454;
    assert Asr(70003 * -7357, 16) == -7859;
    assert Asr(3454 - 7859 + 3791, 4) == -39;
  }
}
