/**
  The BMP280 barometer driver of DRIVER/BMP280.c: the identity check, the
  initialisation sequence, the calibration and raw-sample reads over the
  second I2C bus, and the integer compensation formulas of section 3.11.3
  of the Bosch BMP280 datasheet.

  The module globals g_calibData and g_t_fine become the fields of class
  Sensor. The compensation formulas are pure functions with t_fine passed
  explicitly from the temperature step to the pressure step.
 */
module Bmp280 {
  import opened CTypes
  import opened I2C

  const BMP280_ADDR: byte := 0xEC
  const WHO_AM_I_REG: byte := 0xD0
  const WHO_AM_I_VAL: byte := 0x58
  const RESET_REG: byte := 0xE0
  const CTRL_MEAS_REG: byte := 0xF4
  const CONFIG_REG: byte := 0xF5
  const PRESS_MSB_REG: byte := 0xF7
  /** Soft-reset command, then oversampling x4 / x4 in normal mode, then 1000 ms standby with filter 4. */
  const RESET_CMD: byte := 0xB6
  const CTRL_MEAS_VAL: byte := 0x73
  const CONFIG_VAL: byte := 0xA0

  /** Number of calibration words (dig_T1..dig_T3, dig_P1..dig_P9). */
  const CALIB_WORDS: nat := 12

  /**
    BMP280_CalibData_t. dig_T1 and dig_P1 are uint16_t, the other ten are
    int16_t; the fields hold the values C sees after the assignment.
   */
  datatype Calib = Calib(t1: int, t2: int, t3: int,
                         p1: int, p2: int, p3: int, p4: int, p5: int,
                         p6: int, p7: int, p8: int, p9: int)
  {
    predicate InRange()
    {
      0 <= t1 < 0x1_0000 && 0 <= p1 < 0x1_0000
      && -0x8000 <= t2 < 0x8000 && -0x8000 <= t3 < 0x8000
      && -0x8000 <= p2 < 0x8000 && -0x8000 <= p3 < 0x8000
      && -0x8000 <= p4 < 0x8000 && -0x8000 <= p5 < 0x8000
      && -0x8000 <= p6 < 0x8000 && -0x8000 <= p7 < 0x8000
      && -0x8000 <= p8 < 0x8000 && -0x8000 <= p9 < 0x8000
    }
  }

  /** The static calibration record before BMP280_ReadCalibData runs: all zero. */
  function ZeroCalib(): Calib
  {
    Calib(0, 0, 0, 0, 0, 0, 0, 0, 0, 0, 0, 0)
  }

  /** The 16-bit pattern stored for calibration word k. */
  function CalibWord(c: Calib, k: nat): u16
    requires c.InRange() && k < CALIB_WORDS
  {
    match k
    case 0 => c.t1
    case 1 => Int16Bits(c.t2)
    case 2 => Int16Bits(c.t3)
    case 3 => c.p1
    case 4 => Int16Bits(c.p2)
    case 5 => Int16Bits(c.p3)
    case 6 => Int16Bits(c.p4)
    case 7 => Int16Bits(c.p5)
    case 8 => Int16Bits(c.p6)
    case 9 => Int16Bits(c.p7)
    case 10 => Int16Bits(c.p8)
    case _ => Int16Bits(c.p9)
  }

  /**
    The calibration record built from the 24 bytes read: word k is
    (high byte << 8) | low byte, where bs[2k] is the high byte (read
    first) and bs[2k+1] the low byte.
   */
  function CalibFromBytes(bs: seq<byte>): (c: Calib)
    requires |bs| == 2 * CALIB_WORDS
    ensures c.InRange()
  {
    Calib(Word(bs[0], bs[1]), Int16(Word(bs[2], bs[3])), Int16(Word(bs[4], bs[5])),
          Word(bs[6], bs[7]), Int16(Word(bs[8], bs[9])), Int16(Word(bs[10], bs[11])),
          Int16(Word(bs[12], bs[13])), Int16(Word(bs[14], bs[15])), Int16(Word(bs[16], bs[17])),
          Int16(Word(bs[18], bs[19])), Int16(Word(bs[20], bs[21])), Int16(Word(bs[22], bs[23])))
  }

  /**
    Each calibration word is (byte at the higher address << 8) | byte at the
    lower address; dig_T1 and dig_P1 keep that value, the other ten are its
    two's-complement reading.
   */
  lemma CalibFromBytesWords(bs: seq<byte>)
    requires |bs| == 2 * CALIB_WORDS
    ensures forall k :: 0 <= k < CALIB_WORDS ==> CalibWord(CalibFromBytes(bs), k) == Word(bs[2 * k], bs[2 * k + 1])
  {
    var c := CalibFromBytes(bs);
    forall k | 0 <= k < CALIB_WORDS
      ensures CalibWord(c, k) == Word(bs[2 * k], bs[2 * k + 1])
    {
      Int16BitsRoundTrip(Word(bs[2 * k], bs[2 * k + 1]));
    }
  }

  /** The bytes a device must hold for the driver to read calibration `c`. */
  function CalibBytes(c: Calib): (bs: seq<byte>)
    requires c.InRange()
    ensures |bs| == 2 * CALIB_WORDS
  {
    var t1, t2, t3 := c.t1, Int16Bits(c.t2), Int16Bits(c.t3);
    var p1, p2, p3 := c.p1, Int16Bits(c.p2), Int16Bits(c.p3);
    var p4, p5, p6 := Int16Bits(c.p4), Int16Bits(c.p5), Int16Bits(c.p6);
    var p7, p8, p9 := Int16Bits(c.p7), Int16Bits(c.p8), Int16Bits(c.p9);
    [HighByte(t1), LowByte(t1), HighByte(t2), LowByte(t2), HighByte(t3), LowByte(t3),
     HighByte(p1), LowByte(p1), HighByte(p2), LowByte(p2), HighByte(p3), LowByte(p3),
     HighByte(p4), LowByte(p4), HighByte(p5), LowByte(p5), HighByte(p6), LowByte(p6),
     HighByte(p7), LowByte(p7), HighByte(p8), LowByte(p8), HighByte(p9), LowByte(p9)]
  }

  /** Every calibration record in range is read back unchanged from its bytes. */
  lemma CalibRoundTrip(c: Calib)
    requires c.InRange()
    ensures CalibFromBytes(CalibBytes(c)) == c
  {
    WordRoundTrip(c.t1);
    WordRoundTrip(Int16Bits(c.t2));
    WordRoundTrip(Int16Bits(c.t3));
    WordRoundTrip(c.p1);
    WordRoundTrip(Int16Bits(c.p2));
    WordRoundTrip(Int16Bits(c.p3));
    WordRoundTrip(Int16Bits(c.p4));
    WordRoundTrip(Int16Bits(c.p5));
    WordRoundTrip(Int16Bits(c.p6));
    WordRoundTrip(Int16Bits(c.p7));
    WordRoundTrip(Int16Bits(c.p8));
    WordRoundTrip(Int16Bits(c.p9));
  }

  /** Two records in range with the same twelve words are equal. */
  lemma CalibWordInjective(c: Calib, d: Calib)
    requires c.InRange() && d.InRange()
    requires forall k :: 0 <= k < CALIB_WORDS ==> CalibWord(c, k) == CalibWord(d, k)
    ensures c == d
  {
    forall k | 0 <= k < CALIB_WORDS
      ensures CalibWord(c, k) == CalibWord(d, k)
    {
    }
    assert CalibWord(c, 1) == CalibWord(d, 1);
    assert Int16(CalibWord(c, 1)) == c.t2 && Int16(CalibWord(d, 1)) == d.t2;
    assert CalibWord(c, 2) == CalibWord(d, 2);
    assert Int16(CalibWord(c, 2)) == c.t3 && Int16(CalibWord(d, 2)) == d.t3;
    assert CalibWord(c, 4) == CalibWord(d, 4);
    assert Int16(CalibWord(c, 4)) == c.p2 && Int16(CalibWord(d, 4)) == d.p2;
    assert CalibWord(c, 5) == CalibWord(d, 5);
    assert Int16(CalibWord(c, 5)) == c.p3 && Int16(CalibWord(d, 5)) == d.p3;
    assert CalibWord(c, 6) == CalibWord(d, 6);
    assert Int16(CalibWord(c, 6)) == c.p4 && Int16(CalibWord(d, 6)) == d.p4;
    assert CalibWord(c, 7) == CalibWord(d, 7);
    assert Int16(CalibWord(c, 7)) == c.p5 && Int16(CalibWord(d, 7)) == d.p5;
    assert CalibWord(c, 8) == CalibWord(d, 8);
    assert Int16(CalibWord(c, 8)) == c.p6 && Int16(CalibWord(d, 8)) == d.p6;
    assert CalibWord(c, 9) == CalibWord(d, 9);
    assert Int16(CalibWord(c, 9)) == c.p7 && Int16(CalibWord(d, 9)) == d.p7;
    assert CalibWord(c, 10) == CalibWord(d, 10);
    assert Int16(CalibWord(c, 10)) == c.p8 && Int16(CalibWord(d, 10)) == d.p8;
    assert CalibWord(c, 11) == CalibWord(d, 11);
    assert Int16(CalibWord(c, 11)) == c.p9 && Int16(CalibWord(d, 11)) == d.p9;
    assert CalibWord(c, 0) == CalibWord(d, 0) && CalibWord(c, 3) == CalibWord(d, 3);
  }

  /** BMP280_RawData_t: the 20-bit ADC outputs. */
  datatype Raw = Raw(press: int, temp: int)

  /** One 20-bit ADC value from its msb, lsb and xlsb registers; the low nibble of xlsb is not part of it. */
  function Adc20(msb: byte, lsb: byte, xlsb: byte): (v: int)
    ensures 0 <= v < 0x10_0000
    ensures v / 0x1000 == msb && v / 0x10 % 0x100 == lsb && v % 0x10 == xlsb / 0x10
  {
    Adc20Fields(msb, lsb, xlsb / 0x10);
    msb * 0x1000 + lsb * 0x10 + xlsb / 0x10
  }

  lemma Adc20Fields(msb: byte, lsb: byte, nibble: int)
    requires 0 <= nibble < 0x10
    ensures var v := msb * 0x1000 + lsb * 0x10 + nibble;
      0 <= v < 0x10_0000 && v / 0x1000 == msb && v / 0x10 % 0x100 == lsb && v % 0x10 == nibble
  {
    var w := msb * 0x100 + lsb;
    var v := w * 0x10 + nibble;
    assert v / 0x10 == w && v % 0x10 == nibble;
    assert w / 0x100 == msb && w % 0x100 == lsb;
    assert v / 0x1000 == w / 0x100;
  }

  /**
    The raw sample from the six bytes at 0xF7..0xFC: pressure from the
    first three, temperature from the last three.
   */
  function RawFromBytes(bs: seq<byte>): (r: Raw)
    requires |bs| == 6
    ensures 0 <= r.press < 0x10_0000 && 0 <= r.temp < 0x10_0000
    ensures r.press == Adc20(bs[0], bs[1], bs[2]) && r.temp == Adc20(bs[3], bs[4], bs[5])
  {
    Raw(Adc20(bs[0], bs[1], bs[2]), Adc20(bs[3], bs[4], bs[5]))
  }

  /** Bytes that encode a 20-bit pressure and temperature, with zero low nibbles. */
  function RawBytes(press: int, temp: int): (bs: seq<byte>)
    requires 0 <= press < 0x10_0000 && 0 <= temp < 0x10_0000
    ensures |bs| == 6
  {
    [press / 0x1000, press / 0x10 % 0x100, press % 0x10 * 0x10,
     temp / 0x1000, temp / 0x10 % 0x100, temp % 0x10 * 0x10]
  }

  /** Every pair of 20-bit values is read back unchanged. */
  lemma RawRoundTrip(press: int, temp: int)
    requires 0 <= press < 0x10_0000 && 0 <= temp < 0x10_0000
    ensures RawFromBytes(RawBytes(press, temp)) == Raw(press, temp)
  {
    var bs := RawBytes(press, temp);
    Adc20Inverse(press, bs[0], bs[1], bs[2]);
    Adc20Inverse(temp, bs[3], bs[4], bs[5]);
  }

  lemma Adc20Inverse(v: int, msb: byte, lsb: byte, xlsb: byte)
    requires 0 <= v < 0x10_0000
    requires msb == v / 0x1000 && lsb == v / 0x10 % 0x100 && xlsb == v % 0x10 * 0x10
    ensures Adc20(msb, lsb, xlsb) == v
  {
    assert xlsb / 0x10 == v % 0x10;
    assert v == (v / 0x10) * 0x10 + v % 0x10;
    assert v / 0x10 == (v / 0x1000) * 0x100 + v / 0x10 % 0x100;
  }

  /** The low nibble of each xlsb register does not affect the sample. */
  lemma RawIgnoresLowNibbles(bs: seq<byte>, cs: seq<byte>)
    requires |bs| == 6 && |cs| == 6
    requires bs[0] == cs[0] && bs[1] == cs[1] && bs[3] == cs[3] && bs[4] == cs[4]
    requires bs[2] / 0x10 == cs[2] / 0x10 && bs[5] / 0x10 == cs[5] / 0x10
    ensures RawFromBytes(bs) == RawFromBytes(cs)
  {
  }

  // ---------------------------------------------------------------------
  // Temperature compensation
  // ---------------------------------------------------------------------

  /** The temperature step's results: t_fine and T in units of 0.01 degC. */
  datatype Temp = Temp(tFine: int, centi: int)

  /** T = (t_fine * 5 + 128) >> 8 on int32_t: t_fine * 5 / 256 rounded to nearest. */
  function Centi(tFine: int): (t: int)
    ensures 256 * t <= 5 * tFine + 128 < 256 * t + 256
  {
    Asr(5 * tFine + 128, 8)
  }

  /**
    The first-order term var1, in the signed arithmetic of the datasheet:
    the floor of (adc_T / 16384 - dig_T1 / 1024) * dig_T2, the datasheet's
    real-valued var1, once the three low bits of adc_T are dropped.
   */
  function TempLinear(c: Calib, adcT: int): (v: int)
    ensures v >= 0 <==> (adcT / 8 - 2 * c.t1) * c.t2 >= 0
    ensures 16384 * v <= (adcT - adcT % 8 - 16 * c.t1) * c.t2 < 16384 * v + 16384
  {
    LinearScale(adcT, c.t1, c.t2);
    ShiftConstants();
    Asr((adcT / 8 - 2 * c.t1) * c.t2, 11)
  }

  lemma LinearScale(a: int, t1: int, t2: int)
    ensures 8 * ((a / 8 - 2 * t1) * t2) == (a - a % 8 - 16 * t1) * t2
  {
    assert 8 * (a / 8) == a - a % 8;
    assert 8 * ((a / 8 - 2 * t1) * t2) == (8 * (a / 8) - 16 * t1) * t2;
  }

  /** The second-order term var2, in the signed arithmetic of the datasheet: it has the sign of dig_T3. */
  function TempQuadratic(c: Calib, adcT: int): (v: int)
    ensures c.t3 >= 0 ==> v >= 0
    ensures c.t3 <= 0 ==> v <= 0
    ensures c.t3 < 0 && (adcT / 16 - c.t1) * (adcT / 16 - c.t1) >= 0x1000 ==> v < 0
  {
    var d := adcT / 16 - c.t1;
    SquareShiftSign(d, c.t3);
    Asr(Asr(d * d, 12) * c.t3, 14)
  }

  lemma SquareShiftSign(d: int, t3: int)
    ensures Asr(d * d, 12) >= 0
    ensures t3 >= 0 ==> Asr(Asr(d * d, 12) * t3, 14) >= 0
    ensures t3 <= 0 ==> Asr(Asr(d * d, 12) * t3, 14) <= 0
    ensures t3 < 0 && d * d >= 0x1000 ==> Asr(Asr(d * d, 12) * t3, 14) < 0
  {
    var s := Asr(d * d, 12);
    assert Pow2(12) == 0x1000 && Pow2(14) == 0x4000;
    if t3 < 0 && d * d >= 0x1000 {
      assert s >= 1;
      assert s * t3 < 0;
    }
  }

  /**
    The temperature step as the datasheet states it (signed 32-bit
    arithmetic, arithmetic shifts). This is the corrected form of
    BMP280_CalculateTemperature used by Sensor.
   */
  function Temperature(c: Calib, adcT: int): (r: Temp)
    ensures r.tFine == TempLinear(c, adcT) + TempQuadratic(c, adcT)
    ensures r.centi == Centi(r.tFine)
    ensures 256 * r.centi <= 5 * r.tFine + 128 < 256 * r.centi + 256
    ensures var v1 := r.tFine - TempQuadratic(c, adcT);
      16384 * v1 <= (adcT - adcT % 8 - 16 * c.t1) * c.t2 < 16384 * v1 + 16384
    ensures c.t3 >= 0 && (adcT / 8 - 2 * c.t1) * c.t2 >= 0 ==> r.tFine >= 0 && r.centi >= 0
    ensures c.t3 <= 0 && (adcT / 8 - 2 * c.t1) * c.t2 < 0 ==> r.tFine < 0 && r.centi <= 0
  {
    var tFine := TempLinear(c, adcT) + TempQuadratic(c, adcT);
    Temp(tFine, Centi(tFine))
  }

  /**
    var1 as BMP280_CalculateTemperature computes it: adc_temp is uint32_t,
    so the subtraction and the product are taken modulo 2^32 and the shift
    is logical.
   */
  function TempLinearAsWritten(c: Calib, adcT: u32): (v: int)
    ensures 0 <= v < 0x20_0000
  {
    U32(U32(adcT / 8 - 2 * c.t1) * U32(c.t2)) / 0x800
  }

  /** var2 as BMP280_CalculateTemperature computes it, modulo 2^32 with logical shifts. */
  function TempQuadraticAsWritten(c: Calib, adcT: u32): (v: int)
    ensures 0 <= v < 0x4_0000
  {
    var d := U32(adcT / 16 - c.t1);
    U32(U32(d * d) / 0x1000 * U32(c.t3)) / 0x4000
  }

  /**
    BMP280_CalculateTemperature as written. Both terms are unsigned, so
    t_fine can never be negative.
   */
  function TemperatureAsWritten(c: Calib, adcT: u32): (r: Temp)
    ensures 0 <= r.tFine < 0x20_0000 + 0x4_0000
    ensures r.centi == Centi(r.tFine) && r.centi >= 0
  {
    var tFine := TempLinearAsWritten(c, adcT) + TempQuadraticAsWritten(c, adcT);
    Temp(tFine, Centi(tFine))
  }

  /**
    When no intermediate difference or product is negative or reaches
    2^32, the unsigned computation agrees with the datasheet formula.
   */
  lemma TemperatureAgrees(c: Calib, adcT: u32)
    requires c.InRange() && adcT < 0x10_0000
    requires adcT / 8 >= 2 * c.t1 && c.t2 >= 0
    requires adcT / 16 >= c.t1 && c.t3 >= 0
    requires Asr((adcT / 16 - c.t1) * (adcT / 16 - c.t1), 12) * c.t3 < TWO_POW_32
    ensures TemperatureAsWritten(c, adcT) == Temperature(c, adcT)
  {
    LinearAgrees(c, adcT);
    var d := adcT / 16 - c.t1;
    Bounded16Square(d);
    assert Pow2(12) == 0x1000 && Pow2(14) == 0x4000;
    assert U32(d) == d;
    assert U32(d * d) == d * d;
    assert Asr(d * d, 12) == d * d / 0x1000;
    assert U32(c.t3) == c.t3;
    assert TempQuadraticAsWritten(c, adcT) == TempQuadratic(c, adcT);
  }

  lemma LinearAgrees(c: Calib, adcT: u32)
    requires c.InRange() && adcT < 0x10_0000
    requires adcT / 8 >= 2 * c.t1 && c.t2 >= 0
    ensures TempLinearAsWritten(c, adcT) == TempLinear(c, adcT)
  {
    var d := adcT / 8 - 2 * c.t1;
    assert 0 <= d < 0x2_0000;
    BoundedProduct(d, 0x2_0000, c.t2, 0x8000);
    assert Pow2(11) == 0x800;
    assert U32(d) == d && U32(c.t2) == c.t2;
  }

  lemma BoundedProduct(x: int, xb: int, y: int, yb: int)
    requires 0 <= x < xb && 0 <= y < yb
    ensures 0 <= x * y < xb * yb
  {
  }

  lemma Bounded16Square(d: int)
    requires 0 <= d < 0x1_0000
    ensures 0 <= d * d < TWO_POW_32
  {
    BoundedProduct(d, 0x1_0000, d, 0x1_0000);
  }

  /**
    With the usual negative dig_T3 and a non-trivial second-order term, the
    unsigned computation gives a different t_fine from the datasheet's.
   */
  lemma NegativeT3ChangesTFine(c: Calib, adcT: u32)
    requires c.InRange() && adcT < 0x10_0000
    requires adcT / 8 >= 2 * c.t1 && c.t2 >= 0
    requires adcT / 16 >= c.t1 && c.t3 < 0
    requires (adcT / 16 - c.t1) * (adcT / 16 - c.t1) >= 0x1000
    ensures TemperatureAsWritten(c, adcT).tFine != Temperature(c, adcT).tFine
  {
    LinearAgrees(c, adcT);
  }

  /**
    When adc_T / 8 falls below 2 dig_T1 with a positive dig_T2, the
    unsigned subtraction wraps and the as-written var1 exceeds the intended
    one by exactly 2^21.
   */
  lemma NegativeLinearShiftsVar1(c: Calib, adcT: u32)
    requires c.InRange() && adcT < 0x10_0000
    requires adcT / 8 < 2 * c.t1 && c.t2 > 0
    ensures TempLinearAsWritten(c, adcT) == TempLinear(c, adcT) + 0x20_0000
  {
    var d, t2 := adcT / 8 - 2 * c.t1, c.t2;
    WrappedVar1(d, t2);
    ShiftConstants();
    assert TempLinear(c, adcT) == d * t2 / 0x800;
  }

  /**
    The unsigned var1 for a negative difference `d` and a positive dig_T2:
    the difference and the product both wrap once, and the wrap survives
    the shift as 2^21.
   */
  lemma WrappedVar1(d: int, t2: int)
    requires -0x2_0000 < d < 0 && 0 < t2 < 0x8000
    ensures U32(U32(d) * U32(t2)) / 0x800 == d * t2 / 0x800 + 0x20_0000
  {
    assert U32(d) == d + TWO_POW_32 && U32(t2) == t2;
    var p := d * t2;
    BoundedProduct(-d, 0x2_0000, t2, 0x8000);
    assert -TWO_POW_32 < p < 0;
    assert (d + TWO_POW_32) * t2 == p + TWO_POW_32 * t2;
    WrapProduct(p, t2);
    assert (p + TWO_POW_32) / 0x800 == p / 0x800 + 0x20_0000;
  }

  lemma WrapProduct(p: int, k: int)
    requires -TWO_POW_32 < p < 0
    ensures U32(p + TWO_POW_32 * k) == p + TWO_POW_32
  {
    var x := p + TWO_POW_32 * k;
    assert x == (p + TWO_POW_32) + TWO_POW_32 * (k - 1);
    assert x % TWO_POW_32 == p + TWO_POW_32;
  }

  /** The calibration and samples of the datasheet's worked example. */
  function ExampleCalib(): (c: Calib)
    ensures c.InRange()
  {
    Calib(27504, 26435, -1000, 36477, -10685, 3024, 2855, 140, -7, 15500, -14600, 6000)
  }

  const EXAMPLE_ADC_T: u32 := 519888
  const EXAMPLE_ADC_P: u32 := 415148

  /** On the worked example the datasheet gives 25.08 degC; the unsigned computation gives 76.28 degC. */
  lemma ExampleTemperature()
    ensures Temperature(ExampleCalib(), EXAMPLE_ADC_T) == Temp(128422, 2508)
    ensures TemperatureAsWritten(ExampleCalib(), EXAMPLE_ADC_T) == Temp(390566, 7628)
  {
    ExampleTempTerms();
    ExampleTempTermsAsWritten();
    ShiftConstants();
    assert Centi(128422) == 642238 / 0x100 == 2508;
    assert Centi(390566) == 1952958 / 0x100 == 7628;
  }

  lemma ExampleTempTerms()
    ensures TempLinear(ExampleCalib(), EXAMPLE_ADC_T) == 128793
    ensures TempQuadratic(ExampleCalib(), EXAMPLE_ADC_T) == -371
  {
    ShiftConstants();
    var c := ExampleCalib();
    assert EXAMPLE_ADC_T / 8 - 2 * c.t1 == 9978;
    assert 9978 * 26435 == 263768430;
    assert EXAMPLE_ADC_T / 16 - c.t1 == 4989;
    assert 4989 * 4989 == 24890121;
    assert 24890121 / 0x1000 == 6076;
    assert -6076000 / 0x4000 == -371;
  }

  lemma ExampleTempTermsAsWritten()
    ensures TempLinearAsWritten(ExampleCalib(), EXAMPLE_ADC_T) == 128793
    ensures TempQuadraticAsWritten(ExampleCalib(), EXAMPLE_ADC_T) == 261773
  {
    ExampleLinearAsWritten();
    ExampleQuadraticAsWritten();
  }

  lemma ExampleLinearAsWritten()
    ensures TempLinearAsWritten(ExampleCalib(), EXAMPLE_ADC_T) == 128793
  {
    var c := ExampleCalib();
    assert c.t1 == 27504 && c.t2 == 26435;
    assert U32(EXAMPLE_ADC_T / 8 - 2 * c.t1) == 9978;
    assert U32(c.t2) == 26435;
    assert U32(9978 * 26435) == 263768430;
  }

  lemma ExampleQuadraticAsWritten()
    ensures TempQuadraticAsWritten(ExampleCalib(), EXAMPLE_ADC_T) == 261773
  {
    var c := ExampleCalib();
    assert U32(EXAMPLE_ADC_T / 16 - c.t1) == 4989;
    assert U32(4989 * 4989) / 0x1000 == 6076;
    assert U32(c.t3) == 4294966296;
    QuadraticAsWrittenSteps(c, EXAMPLE_ADC_T, 4989, 6076, 4294966296);
    assert U32(6076 * 4294966296) == 4288891296;
  }

  /** TempQuadraticAsWritten evaluated through its intermediate values. */
  lemma QuadraticAsWrittenSteps(c: Calib, adcT: u32, d: int, q: int, t: int)
    requires d == U32(adcT / 16 - c.t1) && q == U32(d * d) / 0x1000 && t == U32(c.t3)
    ensures TempQuadraticAsWritten(c, adcT) == U32(q * t) / 0x4000
  {
  }

  /** The shift amounts used by the compensation formulas, as powers of two. */
  lemma ShiftConstants()
    ensures Pow2(8) == 0x100 && Pow2(11) == 0x800 && Pow2(12) == 0x1000
    ensures Pow2(13) == 0x2000 && Pow2(14) == 0x4000 && Pow2(19) == 0x8_0000
    ensures Pow2(25) == 0x200_0000 && Pow2(33) == 0x2_0000_0000
  {
    Pow2Add(8, 3);
    Pow2Add(8, 4);
    Pow2Add(8, 5);
    Pow2Add(8, 6);
    Pow2Add(8, 11);
    Pow2Add(8, 17);
    Pow2Add(8, 25);
  }

  // ---------------------------------------------------------------------
  // Pressure compensation (int64_t arithmetic)
  // ---------------------------------------------------------------------

  /** var1 after line 150: the divisor of the pressure step. */
  function PressureDivisor(c: Calib, tFine: int): (r: int)
    ensures c.p1 == 0 ==> r == 0
    ensures tFine == 128000 ==> r == c.p1 * 0x4000
  {
    ShiftConstants();
    assert 0x8000_0000_0000 * c.p1 == (c.p1 * 0x4000) * 0x2_0000_0000;
    var v1 := tFine - 128000;
    var w := Asr(v1 * v1 * c.p3, 8) + v1 * c.p2 * 0x1000;
    Asr((0x8000_0000_0000 + w) * c.p1, 33)
  }

  /** var2 after line 148. */
  function PressureOffset(c: Calib, tFine: int): (r: int)
    ensures tFine == 128000 ==> r == c.p4 * 0x8_0000_0000
    ensures c.p4 == 0 && c.p5 == 0 && c.p6 == 0 ==> r == 0
  {
    var v1 := tFine - 128000;
    v1 * v1 * c.p6 + v1 * c.p5 * 0x2_0000 + c.p4 * 0x8_0000_0000
  }

  /** `1048576 - adc_press`, evaluated in uint32_t: exact and positive for a 20-bit sample. */
  function PressureComplement(adcP: u32): (p: int)
    ensures adcP <= 0x10_0000 ==> p == 0x10_0000 - adcP
    ensures adcP < 0x10_0000 ==> p > 0
  {
    U32(0x10_0000 - adcP)
  }

  /**
    BMP280_CalculatePressure on integers: the pressure in Pa as a Q24.8
    fixed-point value, or the 0 sentinel when the divisor is zero. Line 158
    divides with C's truncation; every other shift is arithmetic.
   */
  function Pressure(c: Calib, tFine: int, adcP: u32): (p: int)
    ensures PressureDivisor(c, tFine) == 0 ==> p == 0
  {
    PressureFrom(c, PressureDivisor(c, tFine), PressureOffset(c, tFine), adcP)
  }

  /** The steps from line 152 on, given the divisor var1 and the offset var2 computed before them. */
  function PressureFrom(c: Calib, v1: int, v2: int, adcP: u32): (p: int)
    ensures v1 == 0 ==> p == 0
  {
    if v1 == 0 then 0
    else
      var q := TruncDiv((PressureComplement(adcP) * 0x8000_0000 - v2) * 3125, v1);
      var a := Asr(c.p9 * Asr(q, 13) * Asr(q, 13), 25);
      var b := Asr(c.p8 * q, 19);
      Asr(q + a + b, 8) + c.p7 * 0x10
  }

  /** Before calibration is read (all coefficients zero), every pressure is the 0 sentinel. */
  lemma UncalibratedPressure(tFine: int, adcP: u32)
    ensures Pressure(ZeroCalib(), tFine, adcP) == 0
  {
    assert PressureDivisor(ZeroCalib(), tFine) == 0;
  }

  /**
    On the worked example the pressure from the datasheet's t_fine is
    25767233 / 256 Pa (1006.53 hPa); with the t_fine of the unsigned
    temperature step it would be 27802141 / 256 Pa (1086.02 hPa).
   */
  lemma ExamplePressure()
    ensures Pressure(ExampleCalib(), 128422, EXAMPLE_ADC_P) == 25767233
    ensures Pressure(ExampleCalib(), 390566, EXAMPLE_ADC_P) == 27802141
  {
    ExampleDivisor();
    ExampleOffset();
    ExampleQuotients();
    var c := ExampleCalib();
    assert c.p7 == 15500 && c.p8 == -14600 && c.p9 == 6000;
    assert PressureComplement(EXAMPLE_ADC_P) == 633428;
    PressureSteps(c, 597560748, 98104795527812, EXAMPLE_ADC_P, 633428, 6600644165, 805742, 116089612, -183810053);
    PressureSteps(c, 552299329, 102432573815428, EXAMPLE_ADC_P, 633428, 7117085520, 868784, 134966189, -198191545);
  }

  /** The quotients of line 158 and the terms built on them, for the two example t_fine values. */
  lemma ExampleQuotients()
    ensures TruncDiv((633428 * 0x8000_0000 - 98104795527812) * 3125, 597560748) == 6600644165
    ensures TruncDiv((633428 * 0x8000_0000 - 102432573815428) * 3125, 552299329) == 7117085520
    ensures Asr(6600644165, 13) == 805742 && Asr(7117085520, 13) == 868784
    ensures Asr(6000 * 805742 * 805742, 25) == 116089612 && Asr(6000 * 868784 * 868784, 25) == 134966189
    ensures Asr(-14600 * 6600644165, 19) == -183810053 && Asr(-14600 * 7117085520, 19) == -198191545
    ensures Asr(6600644165 + 116089612 - 183810053, 8) == 25519233
    ensures Asr(7117085520 + 134966189 - 198191545, 8) == 27554141
  {
    ShiftConstants();
  }

  /** PressureFrom evaluated through its intermediate values. */
  lemma PressureSteps(c: Calib, v1: int, v2: int, adcP: u32, comp: int, q: int, q13: int, a: int, b: int)
    requires v1 != 0 && PressureComplement(adcP) == comp
    requires q == TruncDiv((comp * 0x8000_0000 - v2) * 3125, v1) && q13 == Asr(q, 13)
    requires a == Asr(c.p9 * q13 * q13, 25) && b == Asr(c.p8 * q, 19)
    ensures PressureFrom(c, v1, v2, adcP) == Asr(q + a + b, 8) + c.p7 * 0x10
  {
  }

  lemma ExampleDivisor()
    ensures PressureDivisor(ExampleCalib(), 128422) == 597560748
    ensures PressureDivisor(ExampleCalib(), 390566) == 552299329
  {
    ShiftConstants();
    assert 422 * 422 * 3024 == 538526016;
    assert 538526016 / 0x100 + 422 * -10685 * 0x1000 == -18467047103;
    assert (0x8000_0000_0000 - 18467047103) * 36477 == 5133007740260123325;
    assert 5133007740260123325 / 0x2_0000_0000 == 597560748;
    assert 262566 * 262566 * 3024 == 208477294772544;
    assert 208477294772544 / 0x100 + 262566 * -10685 * 0x1000 == -10677036107455;
    assert (0x8000_0000_0000 - 10677036107455) * 36477 == 4744215116645663421;
    assert 4744215116645663421 / 0x2_0000_0000 == 552299329;
  }

  lemma ExampleOffset()
    ensures PressureOffset(ExampleCalib(), 128422) == 98104795527812
    ensures PressureOffset(ExampleCalib(), 390566) == 102432573815428
  {
    assert 422 * 422 * -7 + 422 * 140 * 0x2_0000 + 2855 * 0x8_0000_0000 == 98104795527812;
    assert 262566 * 262566 * -7 + 262566 * 140 * 0x2_0000 + 2855 * 0x8_0000_0000 == 102432573815428;
  }

  // ---------------------------------------------------------------------
  // Bus transactions
  // ---------------------------------------------------------------------

  /** A register that can hold the low byte of a word: its high byte sits at the next register. */
  type WordReg = r: int | 0 <= r < 0xFF

  /** The two one-byte reads of a calibration word: the high-byte register (lsbReg + 1) first, then lsbReg. */
  function WordLog(lsbReg: WordReg, hi: byte, lo: byte): seq<Event>
  {
    ReadLog(BMP280_ADDR, lsbReg + 1, [hi]) + ReadLog(BMP280_ADDR, lsbReg, [lo])
  }

  /** One word read: its low-byte register and the two bytes it received. */
  datatype WordRead = WordRead(lsbReg: WordReg, hi: byte, lo: byte)

  // WordLog, Flatten and the *ReadsChain lemmas below only chain the
  // per-word read logs together; they split the proof of the calibration
  // reads into small steps and model nothing beyond ReadLog.

  /** The concatenation of a sequence of event runs, in order. */
  function Flatten<T>(runs: seq<seq<T>>): seq<T>
  {
    if runs == [] then [] else Flatten(runs[..|runs| - 1]) + runs[|runs| - 1]
  }

  lemma FlattenSnoc<T>(runs: seq<seq<T>>, run: seq<T>)
    ensures Flatten(runs + [run]) == Flatten(runs) + run
  {
    assert (runs + [run])[..|runs|] == runs;
  }

  lemma {:induction false} FlattenAppend<T>(a: seq<seq<T>>, b: seq<seq<T>>)
    ensures Flatten(a + b) == Flatten(a) + Flatten(b)
    decreases |b|
  {
    if b == [] {
      assert a + b == a;
    } else {
      var init, last := b[..|b| - 1], b[|b| - 1];
      assert b == init + [last];
      assert a + b == (a + init) + [last];
      FlattenAppend(a, init);
      FlattenSnoc(a + init, last);
      FlattenSnoc(init, last);
    }
  }


  /** Three runs appended one after another are their flattening. */
  lemma Flatten3<T>(s: seq<T>, a: seq<T>, b: seq<T>, c: seq<T>)
    ensures s + a + b + c == s + Flatten([a, b, c])
  {
    var none: seq<seq<T>> := [];
    assert Flatten(none) == [];
    assert [a] == none + [a] && [a, b] == [a] + [b] && [a, b, c] == [a, b] + [c];
    FlattenSnoc(none, a);
    FlattenSnoc([a], b);
    FlattenSnoc([a, b], c);
    assert Flatten([a, b, c]) == a + b + c;
  }

  /** Nine runs appended one after another are their flattening. */
  lemma Flatten9<T>(s: seq<T>, a: seq<T>, b: seq<T>, c: seq<T>, d: seq<T>, e: seq<T>,
                    f: seq<T>, g: seq<T>, h: seq<T>, i: seq<T>)
    ensures s + a + b + c + d + e + f + g + h + i == s + Flatten([a, b, c, d, e, f, g, h, i])
  {
    Flatten3(s, a, b, c);
    assert [a, b, c, d] == [a, b, c] + [d] && [a, b, c, d, e] == [a, b, c, d] + [e];
    assert [a, b, c, d, e, f] == [a, b, c, d, e] + [f] && [a, b, c, d, e, f, g] == [a, b, c, d, e, f] + [g];
    assert [a, b, c, d, e, f, g, h] == [a, b, c, d, e, f, g] + [h];
    assert [a, b, c, d, e, f, g, h, i] == [a, b, c, d, e, f, g, h] + [i];
    FlattenSnoc([a, b, c], d);
    FlattenSnoc([a, b, c, d], e);
    FlattenSnoc([a, b, c, d, e], f);
    FlattenSnoc([a, b, c, d, e, f], g);
    FlattenSnoc([a, b, c, d, e, f, g], h);
    FlattenSnoc([a, b, c, d, e, f, g, h], i);
  }

  /** The word reads at consecutive word registers from lsbReg, one per pair of received bytes (high byte first). */
  function WordReads(lsbReg: int, bs: seq<byte>): seq<WordRead>
    requires |bs| % 2 == 0 && 0 <= lsbReg && lsbReg + |bs| < 0x100
  {
    seq(|bs| / 2, i requires 0 <= i < |bs| / 2 => WordRead(lsbReg + 2 * i, bs[2 * i], bs[2 * i + 1]))
  }

  /** The bus events of each word read. */
  function WordLogs(ws: seq<WordRead>): seq<seq<Event>>
  {
    seq(|ws|, i requires 0 <= i < |ws| => WordReadLog(ws[i]))
  }

  /** The bus events of one word read. */
  function WordReadLog(w: WordRead): seq<Event>
  {
    WordLog(w.lsbReg, w.hi, w.lo)
  }

  /**
    The one-byte reads of consecutive calibration words starting at the
    low-byte register lsbReg, receiving bs: for each word the high-byte
    register first, then the low-byte register.
   */
  function CalibReads(lsbReg: int, bs: seq<byte>): seq<Event>
    requires |bs| % 2 == 0 && 0 <= lsbReg && lsbReg + |bs| < 0x100
  {
    Flatten(WordLogs(WordReads(lsbReg, bs)))
  }

  /** The bus events of BMP280_ReadCalibData receiving the 24 bytes bs: registers 0x89, 0x88, 0x8B, 0x8A, ..., 0x9F, 0x9E. */
  function CalibLog(bs: seq<byte>): seq<Event>
    requires |bs| == 2 * CALIB_WORDS
  {
    CalibReads(0x88, bs)
  }

  /** The temperature words' reads followed by the pressure words' reads are the whole calibration read. */
  lemma CalibLogSplit(bs: seq<byte>)
    requires |bs| == 2 * CALIB_WORDS
    ensures CalibLog(bs) == CalibReads(0x88, bs[..6]) + CalibReads(0x8E, bs[6..])
  {
    var ts, ps := WordReads(0x88, bs[..6]), WordReads(0x8E, bs[6..]);
    assert WordReads(0x88, bs) == ts + ps;
    assert WordLogs(ts + ps) == WordLogs(ts) + WordLogs(ps);
    FlattenAppend(WordLogs(ts), WordLogs(ps));
  }

  /** The three temperature-word reads, one after another, are CalibReads(0x88, ts). */
  lemma TemperatureReadsChain(s: seq<Event>, ts: seq<byte>)
    requires |ts| == 6
    ensures s + WordLog(0x88, ts[0], ts[1]) + WordLog(0x8A, ts[2], ts[3]) + WordLog(0x8C, ts[4], ts[5])
            == s + CalibReads(0x88, ts)
  {
    var ws := WordReads(0x88, ts);
    assert ws == [WordRead(0x88, ts[0], ts[1]), WordRead(0x8A, ts[2], ts[3]), WordRead(0x8C, ts[4], ts[5])];
    WordLogsOf3(ws);
    Flatten3(s, WordLog(0x88, ts[0], ts[1]), WordLog(0x8A, ts[2], ts[3]), WordLog(0x8C, ts[4], ts[5]));
  }

  /** The nine pressure-word reads, one after another, are CalibReads(0x8E, ps). */
  lemma PressureReadsChain(s: seq<Event>, ps: seq<byte>)
    requires |ps| == 18
    ensures s + WordLog(0x8E, ps[0], ps[1]) + WordLog(0x90, ps[2], ps[3]) + WordLog(0x92, ps[4], ps[5])
            + WordLog(0x94, ps[6], ps[7]) + WordLog(0x96, ps[8], ps[9]) + WordLog(0x98, ps[10], ps[11])
            + WordLog(0x9A, ps[12], ps[13]) + WordLog(0x9C, ps[14], ps[15]) + WordLog(0x9E, ps[16], ps[17])
            == s + CalibReads(0x8E, ps)
  {
    var ws := WordReads(0x8E, ps);
    assert ws == [WordRead(0x8E, ps[0], ps[1]), WordRead(0x90, ps[2], ps[3]), WordRead(0x92, ps[4], ps[5]),
                  WordRead(0x94, ps[6], ps[7]), WordRead(0x96, ps[8], ps[9]), WordRead(0x98, ps[10], ps[11]),
                  WordRead(0x9A, ps[12], ps[13]), WordRead(0x9C, ps[14], ps[15]), WordRead(0x9E, ps[16], ps[17])];
    WordLogsOf9(ws);
    Flatten9(s, WordLog(0x8E, ps[0], ps[1]), WordLog(0x90, ps[2], ps[3]), WordLog(0x92, ps[4], ps[5]),
             WordLog(0x94, ps[6], ps[7]), WordLog(0x96, ps[8], ps[9]), WordLog(0x98, ps[10], ps[11]),
             WordLog(0x9A, ps[12], ps[13]), WordLog(0x9C, ps[14], ps[15]), WordLog(0x9E, ps[16], ps[17]));
  }

  lemma WordLogsOf3(ws: seq<WordRead>)
    requires |ws| == 3
    ensures WordLogs(ws) == [WordReadLog(ws[0]), WordReadLog(ws[1]), WordReadLog(ws[2])]
  {
  }

  lemma WordLogsOf9(ws: seq<WordRead>)
    requires |ws| == 9
    ensures WordLogs(ws) == [WordReadLog(ws[0]), WordReadLog(ws[1]), WordReadLog(ws[2]),
                             WordReadLog(ws[3]), WordReadLog(ws[4]), WordReadLog(ws[5]),
                             WordReadLog(ws[6]), WordReadLog(ws[7]), WordReadLog(ws[8])]
  {
  }

  /** The three register writes that end a successful BMP280_Init. */
  function InitWrites(): seq<Event>
  {
    WriteLog(BMP280_ADDR, RESET_REG, [RESET_CMD])
    + WriteLog(BMP280_ADDR, CTRL_MEAS_REG, [CTRL_MEAS_VAL])
    + WriteLog(BMP280_ADDR, CONFIG_REG, [CONFIG_VAL])
  }

  /** What BMP280_ReadData delivers: T in 0.01 degC and the pressure in Pa as Q24.8. */
  datatype Reading = Reading(centi: int, pressQ8: int)

  /** The reported temperature in degC, with real division in place of the float one. */
  function Celsius(r: Reading): real
  {
    r.centi as real / 100.0
  }

  /** The reported pressure in hPa, with real division in place of the float one. */
  function Hectopascals(r: Reading): real
  {
    r.pressQ8 as real / 25600.0
  }

  /** The driver's module state (g_calibData, g_t_fine) and the bus it talks on. */
  class Sensor {
    const bus: Bus
    var calib: Calib
    var tFine: int

    constructor (bus: Bus)
      requires bus.id == I2C2
      ensures this.bus == bus && calib == ZeroCalib() && tFine == 0
    {
      this.bus := bus;
      calib := ZeroCalib();
      tFine := 0;
    }

    /** BMP280_Check: one read of the identity register; success iff it reads 0x58. */
    method Check() returns (ok: byte)
      modifies bus
      ensures bus.received == old(bus.received) + 1
      ensures ok == 1 <==> bus.incoming(old(bus.received)) == WHO_AM_I_VAL
      ensures ok == 0 || ok == 1
      ensures bus.log == old(bus.log) + ReadLog(BMP280_ADDR, WHO_AM_I_REG, [bus.incoming(old(bus.received))])
    {
      var whoAmI := bus.ReadByte(BMP280_ADDR, WHO_AM_I_REG);
      if whoAmI == WHO_AM_I_VAL {
        ok := 1;
      } else {
        ok := 0;
      }
    }

    /** `(I2C2_ReadByte(addr, lsbReg + 1) << 8) | I2C2_ReadByte(addr, lsbReg)`, high byte read first. */
    method ReadWord(lsbReg: byte) returns (w: u16)
      requires lsbReg < 0xFF
      modifies bus
      ensures bus.received == old(bus.received) + 2
      ensures w == Word(bus.incoming(old(bus.received)), bus.incoming(old(bus.received) + 1))
      ensures bus.log == old(bus.log) + WordLog(lsbReg, bus.incoming(old(bus.received)), bus.incoming(old(bus.received) + 1))
    {
      var hi := bus.ReadByte(BMP280_ADDR, lsbReg + 1);
      var lo := bus.ReadByte(BMP280_ADDR, lsbReg);
      w := Word(hi, lo);
    }

    /** BMP280_ReadCalibData: twelve words, dig_T1 to dig_P9, in register order. */
    method ReadCalibData()
      modifies bus, this`calib
      ensures bus.received == old(bus.received) + 2 * CALIB_WORDS
      ensures calib == CalibFromBytes(bus.Incoming(old(bus.received), 2 * CALIB_WORDS))
      ensures bus.log == old(bus.log) + CalibLog(bus.Incoming(old(bus.received), 2 * CALIB_WORDS))
    {
      ghost var r0, start := bus.received, bus.log;
      ghost var bs := bus.Incoming(r0, 2 * CALIB_WORDS);
      var t1, t2, t3 := ReadTemperatureCalib(bs[..6]);
      ghost var mid := bus.log;
      var p1, p2, p3, p4, p5, p6, p7, p8, p9 := ReadPressureCalib(bs[6..]);
      calib := Calib(t1, Int16(t2), Int16(t3), p1, Int16(p2), Int16(p3), Int16(p4),
                     Int16(p5), Int16(p6), Int16(p7), Int16(p8), Int16(p9));
      CalibLogSplit(bs);
      AppendAssociates(start, CalibReads(0x88, bs[..6]), CalibReads(0x8E, bs[6..]));
    }

    /** Lines 82-84: dig_T1, dig_T2, dig_T3, receiving the six bytes ts. */
    method ReadTemperatureCalib(ghost ts: seq<byte>) returns (t1: u16, t2: u16, t3: u16)
      requires ts == bus.Incoming(bus.received, 6)
      modifies bus
      ensures bus.received == old(bus.received) + 6
      ensures t1 == Word(ts[0], ts[1]) && t2 == Word(ts[2], ts[3]) && t3 == Word(ts[4], ts[5])
      ensures bus.log == old(bus.log) + CalibReads(0x88, ts)
    {
      t1 := ReadWord(0x88);
      t2 := ReadWord(0x8A);
      t3 := ReadWord(0x8C);
      TemperatureReadsChain(old(bus.log), ts);
    }

    /** Lines 87-95: dig_P1 .. dig_P9, receiving the eighteen bytes ps. */
    method ReadPressureCalib(ghost ps: seq<byte>)
      returns (p1: u16, p2: u16, p3: u16, p4: u16, p5: u16, p6: u16, p7: u16, p8: u16, p9: u16)
      requires ps == bus.Incoming(bus.received, 18)
      modifies bus
      ensures bus.received == old(bus.received) + 18
      ensures p1 == Word(ps[0], ps[1]) && p2 == Word(ps[2], ps[3]) && p3 == Word(ps[4], ps[5])
      ensures p4 == Word(ps[6], ps[7]) && p5 == Word(ps[8], ps[9]) && p6 == Word(ps[10], ps[11])
      ensures p7 == Word(ps[12], ps[13]) && p8 == Word(ps[14], ps[15]) && p9 == Word(ps[16], ps[17])
      ensures bus.log == old(bus.log) + CalibReads(0x8E, ps)
    {
      p1 := ReadWord(0x8E);
      p2 := ReadWord(0x90);
      p3 := ReadWord(0x92);
      p4 := ReadWord(0x94);
      p5 := ReadWord(0x96);
      p6 := ReadWord(0x98);
      p7 := ReadWord(0x9A);
      p8 := ReadWord(0x9C);
      p9 := ReadWord(0x9E);
      PressureReadsChain(old(bus.log), ps);
    }

    /**
      BMP280_Init: nothing but the identity read when the check fails;
      otherwise the calibration read, then soft reset, measurement control
      and configuration, in that order.
     */
    method Init() returns (ok: byte)
      modifies bus, this`calib
      ensures var r0 := old(bus.received);
        bus.incoming(r0) != WHO_AM_I_VAL ==>
          && ok == 0 && calib == old(calib) && bus.received == r0 + 1
          && bus.log == old(bus.log) + ReadLog(BMP280_ADDR, WHO_AM_I_REG, [bus.incoming(r0)])
      ensures var r0 := old(bus.received);
        bus.incoming(r0) == WHO_AM_I_VAL ==>
          && ok == 1 && bus.received == r0 + 1 + 2 * CALIB_WORDS
          && calib == CalibFromBytes(bus.Incoming(r0 + 1, 2 * CALIB_WORDS))
          && bus.log == old(bus.log) + ReadLog(BMP280_ADDR, WHO_AM_I_REG, [bus.incoming(r0)])
                        + CalibLog(bus.Incoming(r0 + 1, 2 * CALIB_WORDS)) + InitWrites()
    {
      var found := Check();
      if found == 0 {
        return 0;
      }
      ghost var checked := bus.log;
      ghost var bs := bus.Incoming(bus.received, 2 * CALIB_WORDS);
      ReadCalibData();
      assert calib == CalibFromBytes(bs) && bus.log == checked + CalibLog(bs);
      ghost var calibrated := bus.log;
      Configure();
      assert bus.log == calibrated + InitWrites();
      ok := 1;
    }

    /** The register writes of BMP280_Init after the calibration read. */
    method Configure()
      modifies bus
      ensures bus.received == old(bus.received)
      ensures bus.log == old(bus.log) + InitWrites()
    {
      bus.WriteByte(BMP280_ADDR, RESET_REG, RESET_CMD);
      bus.WriteByte(BMP280_ADDR, CTRL_MEAS_REG, CTRL_MEAS_VAL);
      bus.WriteByte(BMP280_ADDR, CONFIG_REG, CONFIG_VAL);
    }

    /** BMP280_ReadRawData: one six-byte burst read starting at the pressure MSB register. */
    method ReadRawData() returns (raw: Raw)
      modifies bus
      ensures bus.received == old(bus.received) + 6
      ensures raw == RawFromBytes(bus.Incoming(old(bus.received), 6))
      ensures bus.log == old(bus.log) + ReadLog(BMP280_ADDR, PRESS_MSB_REG, bus.Incoming(old(bus.received), 6))
    {
      var buffer := new byte[6];
      bus.ReadBytes(BMP280_ADDR, PRESS_MSB_REG, buffer, 6);
      assert buffer[..6] == buffer[..];
      raw := RawFromBytes(buffer[..]);
    }

    /** The integer part of BMP280_CalculateTemperature, in its corrected signed form; stores t_fine. */
    method CalculateTemperature(adcT: u32) returns (centi: int)
      modifies this`tFine
      ensures tFine == Temperature(calib, adcT).tFine
      ensures centi == Temperature(calib, adcT).centi
    {
      var t := Temperature(calib, adcT);
      tFine := t.tFine;
      centi := t.centi;
    }

    /** The integer part of BMP280_CalculatePressure, reading the stored t_fine. */
    method CalculatePressure(adcP: u32) returns (pressQ8: int)
      ensures pressQ8 == Pressure(calib, tFine, adcP)
    {
      pressQ8 := Pressure(calib, tFine, adcP);
    }

    /**
      BMP280_ReadData: one raw sample, then temperature, then pressure, so
      the pressure uses the t_fine of the same sample.
     */
    method ReadData() returns (r: Reading)
      modifies bus, this`tFine
      ensures bus.received == old(bus.received) + 6
      ensures var raw := RawFromBytes(bus.Incoming(old(bus.received), 6));
        && tFine == Temperature(calib, raw.temp).tFine
        && r == Reading(Temperature(calib, raw.temp).centi, Pressure(calib, tFine, raw.press))
      ensures bus.log == old(bus.log) + ReadLog(BMP280_ADDR, PRESS_MSB_REG, bus.Incoming(old(bus.received), 6))
    {
      var raw := ReadRawData();
      var centi := CalculateTemperature(raw.temp);
      var pressQ8 := CalculatePressure(raw.press);
      r := Reading(centi, pressQ8);
    }
  }
}
