/**
  The MPU9250 inertial sensor driver of DRIVER/MPU9250.c on the first I2C
  bus: the identity check, the initialisation writes, the decoding of the
  fourteen-byte measurement block, the 100-sample bias calibration and the
  scaled reading.

  The module-wide bias record g_calibData becomes a field of class Imu.
  Float arithmetic is modelled as exact real arithmetic.
 */
module Mpu9250 {
  import opened CTypes
  import opened I2C

  const MPU9250_ADDR: byte := 0xD2
  const WHO_AM_I_REG: byte := 0x75
  const WHO_AM_I_VAL: byte := 0x71
  const SMPLRT_DIV_REG: byte := 0x19
  const CONFIG_REG: byte := 0x1A
  const GYRO_CONFIG_REG: byte := 0x1B
  const ACCEL_CONFIG_REG: byte := 0x1C
  const ACCEL_XOUT_H_REG: byte := 0x3B
  const PWR_MGMT_1_REG: byte := 0x6B

  /** Bytes of one measurement block: accel X/Y/Z, temperature, gyro X/Y/Z, big-endian. */
  const BLOCK_BYTES: nat := 14
  /** Samples averaged by MPU9250_Calibrate. */
  const SAMPLES: nat := 100

  /** LSB per g at +-2 g, LSB per deg/s at +-250 deg/s, LSB per degC and the offset in degC. */
  const ACCEL_SENSITIVITY: real := 16384.0
  const GYRO_SENSITIVITY: real := 131.0
  const TEMP_SENSITIVITY: real := 333.87
  const TEMP_OFFSET: real := 21.0

  // ---------------------------------------------------------------------
  // Raw samples
  // ---------------------------------------------------------------------

  /** MPU9250_RawData_t: seven int16_t readings. */
  datatype RawData = RawData(accelX: int, accelY: int, accelZ: int, gyroX: int, gyroY: int, gyroZ: int, temp: int)
  {
    predicate InRange()
    {
      && -0x8000 <= accelX < 0x8000 && -0x8000 <= accelY < 0x8000 && -0x8000 <= accelZ < 0x8000
      && -0x8000 <= gyroX < 0x8000 && -0x8000 <= gyroY < 0x8000 && -0x8000 <= gyroZ < 0x8000
      && -0x8000 <= temp < 0x8000
    }
  }

  /** The channels in the order their register pairs follow each other from 0x3B. */
  const ACCEL_X: nat := 0
  const ACCEL_Y: nat := 1
  const ACCEL_Z: nat := 2
  const TEMP: nat := 3
  const GYRO_X: nat := 4
  const GYRO_Y: nat := 5
  const GYRO_Z: nat := 6
  const CHANNELS: nat := 7

  /** The reading of channel k (in register order) of a raw sample. */
  function Channel(r: RawData, k: nat): (c: int)
    requires k < CHANNELS
    ensures r.InRange() ==> -0x8000 <= c < 0x8000
  {
    match k
    case 0 => r.accelX
    case 1 => r.accelY
    case 2 => r.accelZ
    case 3 => r.temp
    case 4 => r.gyroX
    case 5 => r.gyroY
    case _ => r.gyroZ
  }

  /**
    The field assignments of MPU9250_ReadRawData: bytes 2k and 2k + 1 form
    channel k as a big-endian two's-complement word. Bytes 6-7 are the
    temperature and bytes 8-13 the gyroscope, whatever the order of the
    struct's fields.
   */
  function DecodeRaw(bs: seq<byte>): (r: RawData)
    requires |bs| == BLOCK_BYTES
    ensures r.InRange()
  {
    RawData(Int16(Word(bs[0], bs[1])), Int16(Word(bs[2], bs[3])), Int16(Word(bs[4], bs[5])),
            Int16(Word(bs[8], bs[9])), Int16(Word(bs[10], bs[11])), Int16(Word(bs[12], bs[13])),
            Int16(Word(bs[6], bs[7])))
  }

  /** Channel k of a decoded block is stored as the big-endian word of bytes 2k and 2k + 1. */
  lemma DecodeRawChannels(bs: seq<byte>)
    requires |bs| == BLOCK_BYTES
    ensures forall k :: 0 <= k < CHANNELS ==> Int16Bits(Channel(DecodeRaw(bs), k)) == Word(bs[2 * k], bs[2 * k + 1])
  {
    forall k | 0 <= k < CHANNELS
      ensures Int16Bits(Channel(DecodeRaw(bs), k)) == Word(bs[2 * k], bs[2 * k + 1])
    {
      Int16BitsRoundTrip(Word(bs[2 * k], bs[2 * k + 1]));
    }
  }

  /** The measurement block a device holding the readings r puts on the bus. */
  function EncodeRaw(r: RawData): (bs: seq<byte>)
    requires r.InRange()
    ensures |bs| == BLOCK_BYTES
  {
    var ax, ay, az := Int16Bits(r.accelX), Int16Bits(r.accelY), Int16Bits(r.accelZ);
    var t := Int16Bits(r.temp);
    var gx, gy, gz := Int16Bits(r.gyroX), Int16Bits(r.gyroY), Int16Bits(r.gyroZ);
    [HighByte(ax), LowByte(ax), HighByte(ay), LowByte(ay), HighByte(az), LowByte(az),
     HighByte(t), LowByte(t),
     HighByte(gx), LowByte(gx), HighByte(gy), LowByte(gy), HighByte(gz), LowByte(gz)]
  }

  /** Decoding recovers the readings a device encoded. */
  lemma DecodeEncode(r: RawData)
    requires r.InRange()
    ensures DecodeRaw(EncodeRaw(r)) == r
  {
    WordRoundTrip(Int16Bits(r.accelX));
    WordRoundTrip(Int16Bits(r.accelY));
    WordRoundTrip(Int16Bits(r.accelZ));
    WordRoundTrip(Int16Bits(r.temp));
    WordRoundTrip(Int16Bits(r.gyroX));
    WordRoundTrip(Int16Bits(r.gyroY));
    WordRoundTrip(Int16Bits(r.gyroZ));
  }

  /** Every block is the encoding of the readings decoded from it: no two blocks decode alike. */
  lemma EncodeDecode(bs: seq<byte>)
    requires |bs| == BLOCK_BYTES
    ensures EncodeRaw(DecodeRaw(bs)) == bs
  {
    Int16BitsRoundTrip(Word(bs[0], bs[1]));
    Int16BitsRoundTrip(Word(bs[2], bs[3]));
    Int16BitsRoundTrip(Word(bs[4], bs[5]));
    Int16BitsRoundTrip(Word(bs[6], bs[7]));
    Int16BitsRoundTrip(Word(bs[8], bs[9]));
    Int16BitsRoundTrip(Word(bs[10], bs[11]));
    Int16BitsRoundTrip(Word(bs[12], bs[13]));
    assert EncodeRaw(DecodeRaw(bs)) == [bs[0], bs[1], bs[2], bs[3], bs[4], bs[5], bs[6],
                                        bs[7], bs[8], bs[9], bs[10], bs[11], bs[12], bs[13]];
  }

  // ---------------------------------------------------------------------
  // Calibration
  // ---------------------------------------------------------------------

  /** MPU9250_CalibData_t: the six offsets subtracted from scaled readings. */
  datatype CalibData = CalibData(accelBiasX: real, accelBiasY: real, accelBiasZ: real,
                                 gyroBiasX: real, gyroBiasY: real, gyroBiasZ: real)

  /** The initial value of g_calibData. */
  const ZERO_BIAS: CalibData := CalibData(0.0, 0.0, 0.0, 0.0, 0.0, 0.0)

  /** The sum of channel k over a run of samples, in sample order. */
  function ChannelSum(samples: seq<RawData>, k: nat): int
    requires k < CHANNELS
  {
    if samples == [] then 0
    else ChannelSum(samples[..|samples| - 1], k) + Channel(samples[|samples| - 1], k)
  }

  /** Channel k of every sample lies in [lo, hi]. */
  predicate ChannelWithin(samples: seq<RawData>, k: nat, lo: int, hi: int)
    requires k < CHANNELS
  {
    forall i :: 0 <= i < |samples| ==> lo <= Channel(samples[i], k) <= hi
  }

  /** A sum of n readings that each lie in [lo, hi] lies in [n * lo, n * hi]. */
  lemma {:induction false} ChannelSumWithin(samples: seq<RawData>, k: nat, lo: int, hi: int)
    requires k < CHANNELS && ChannelWithin(samples, k, lo, hi)
    ensures |samples| * lo <= ChannelSum(samples, k) <= |samples| * hi
    decreases |samples|
  {
    if samples != [] {
      var init := samples[..|samples| - 1];
      assert ChannelWithin(init, k, lo, hi) by {
        forall i | 0 <= i < |init| ensures lo <= Channel(init[i], k) <= hi {
          assert init[i] == samples[i];
        }
      }
      ChannelSumWithin(init, k, lo, hi);
      assert lo <= Channel(samples[|samples| - 1], k) <= hi;
      assert |samples| * lo == |init| * lo + lo && |samples| * hi == |init| * hi + hi;
    }
  }

  /** Samples of int16 readings. */
  predicate AllInRange(samples: seq<RawData>)
  {
    forall i :: 0 <= i < |samples| ==> samples[i].InRange()
  }

  /** The 100 int16 readings of one channel sum to well inside int32_t, so the accumulators cannot overflow. */
  lemma ChannelSumFitsInt32(samples: seq<RawData>, k: nat)
    requires k < CHANNELS && AllInRange(samples) && |samples| <= SAMPLES
    ensures -0x8000 * SAMPLES <= ChannelSum(samples, k) < 0x8000 * SAMPLES
    ensures -0x8000_0000 <= ChannelSum(samples, k) < 0x8000_0000
  {
    assert ChannelWithin(samples, k, -0x8000, 0x7FFF) by {
      forall i | 0 <= i < |samples| ensures -0x8000 <= Channel(samples[i], k) <= 0x7FFF {
        assert samples[i].InRange();
      }
    }
    ChannelSumWithin(samples, k, -0x8000, 0x7FFF);
  }

  /** `bias /= 100`: the C quotient of a channel's sum by the number of samples. */
  function Mean(samples: seq<RawData>, k: nat): (m: int)
    requires k < CHANNELS && |samples| == SAMPLES
    ensures var rem := ChannelSum(samples, k) - m * SAMPLES;
      Abs(rem) < SAMPLES && (rem == 0 || (rem < 0 <==> ChannelSum(samples, k) < 0))
  {
    TruncDivRemainder(ChannelSum(samples, k), SAMPLES);
    TruncDiv(ChannelSum(samples, k), SAMPLES)
  }

  /** The truncated mean lies between the smallest and the largest reading of its channel. */
  lemma MeanWithin(samples: seq<RawData>, k: nat, lo: int, hi: int)
    requires k < CHANNELS && |samples| == SAMPLES && ChannelWithin(samples, k, lo, hi)
    ensures lo <= Mean(samples, k) <= hi
  {
    ChannelSumWithin(samples, k, lo, hi);
    TruncDivBetween(ChannelSum(samples, k), SAMPLES, lo, hi);
  }

  /** A C quotient by a positive n of a value in [n * lo, n * hi] lies in [lo, hi]. */
  lemma TruncDivBetween(a: int, n: int, lo: int, hi: int)
    requires n > 0 && n * lo <= a <= n * hi
    ensures lo <= TruncDiv(a, n) <= hi
  {
    if a >= 0 {
      FloorDivBetween(a, n, lo, hi);
    } else {
      MulSigns(n, hi);
      MulSigns(n, lo);
      FloorDivBetween(-a, n, -hi, -lo);
      assert TruncDiv(a, n) == -((-a) / n);
    }
  }

  /** The same for Euclidean (floor) division by a positive n. */
  lemma FloorDivBetween(a: int, n: int, lo: int, hi: int)
    requires n > 0 && n * lo <= a <= n * hi
    ensures lo <= a / n <= hi
  {
    var q, r := a / n, a % n;
    assert a == q * n + r && 0 <= r < n;
    if q > hi {
      MulMonotone(hi + 1, q, n);
      assert false;
    }
    if q < lo {
      MulMonotone(q, lo - 1, n);
      assert false;
    }
  }

  lemma MulMonotone(x: int, y: int, n: int)
    requires x <= y && n > 0
    ensures x * n <= y * n
  {
  }

  /**
    The offsets MPU9250_Calibrate derives from 100 samples: the mean
    acceleration in g (less the 1 g of gravity on Z, which a level board
    at rest reads) and the mean rotation rate in deg/s.
   */
  function BiasOf(samples: seq<RawData>): (b: CalibData)
    requires |samples| == SAMPLES
    ensures b.accelBiasX * ACCEL_SENSITIVITY == Mean(samples, ACCEL_X) as real
    ensures b.accelBiasY * ACCEL_SENSITIVITY == Mean(samples, ACCEL_Y) as real
    ensures (b.accelBiasZ + 1.0) * ACCEL_SENSITIVITY == Mean(samples, ACCEL_Z) as real
    ensures b.gyroBiasX * GYRO_SENSITIVITY == Mean(samples, GYRO_X) as real
    ensures b.gyroBiasY * GYRO_SENSITIVITY == Mean(samples, GYRO_Y) as real
    ensures b.gyroBiasZ * GYRO_SENSITIVITY == Mean(samples, GYRO_Z) as real
  {
    CalibData(Mean(samples, ACCEL_X) as real / ACCEL_SENSITIVITY,
              Mean(samples, ACCEL_Y) as real / ACCEL_SENSITIVITY,
              Mean(samples, ACCEL_Z) as real / ACCEL_SENSITIVITY - 1.0,
              Mean(samples, GYRO_X) as real / GYRO_SENSITIVITY,
              Mean(samples, GYRO_Y) as real / GYRO_SENSITIVITY,
              Mean(samples, GYRO_Z) as real / GYRO_SENSITIVITY)
  }

  // ---------------------------------------------------------------------
  // Scaled readings
  // ---------------------------------------------------------------------

  /** MPU9250_Data_t: acceleration in g, rotation rate in deg/s, temperature in degC. */
  datatype Data = Data(accelX: real, accelY: real, accelZ: real, gyroX: real, gyroY: real, gyroZ: real, temp: real)

  /**
    The conversions of MPU9250_ReadData: each accelerometer and gyroscope
    reading divided by its sensitivity, less the current offset; the
    temperature scaled and shifted, with no offset.
   */
  function Scale(r: RawData, bias: CalibData): (d: Data)
    ensures (d.accelX + bias.accelBiasX) * ACCEL_SENSITIVITY == r.accelX as real
    ensures (d.accelY + bias.accelBiasY) * ACCEL_SENSITIVITY == r.accelY as real
    ensures (d.accelZ + bias.accelBiasZ) * ACCEL_SENSITIVITY == r.accelZ as real
    ensures (d.gyroX + bias.gyroBiasX) * GYRO_SENSITIVITY == r.gyroX as real
    ensures (d.gyroY + bias.gyroBiasY) * GYRO_SENSITIVITY == r.gyroY as real
    ensures (d.gyroZ + bias.gyroBiasZ) * GYRO_SENSITIVITY == r.gyroZ as real
    ensures (d.temp - TEMP_OFFSET) * TEMP_SENSITIVITY == r.temp as real
  {
    Data(r.accelX as real / ACCEL_SENSITIVITY - bias.accelBiasX,
         r.accelY as real / ACCEL_SENSITIVITY - bias.accelBiasY,
         r.accelZ as real / ACCEL_SENSITIVITY - bias.accelBiasZ,
         r.gyroX as real / GYRO_SENSITIVITY - bias.gyroBiasX,
         r.gyroY as real / GYRO_SENSITIVITY - bias.gyroBiasY,
         r.gyroZ as real / GYRO_SENSITIVITY - bias.gyroBiasZ,
         r.temp as real / TEMP_SENSITIVITY + TEMP_OFFSET)
  }

  /** Channel k of every sample reads v. */
  predicate Steady(samples: seq<RawData>, k: nat, v: int)
    requires k < CHANNELS
  {
    ChannelWithin(samples, k, v, v)
  }

  /**
    Calibrating on 100 identical samples of a level board at rest, then
    reading that same sample, gives 0 g on X and Y, 1 g on Z and no
    rotation.
   */
  lemma CalibratedAtRest(samples: seq<RawData>, r: RawData)
    requires |samples| == SAMPLES
    requires Steady(samples, ACCEL_X, r.accelX) && Steady(samples, ACCEL_Y, r.accelY)
    requires Steady(samples, ACCEL_Z, r.accelZ)
    requires Steady(samples, GYRO_X, r.gyroX) && Steady(samples, GYRO_Y, r.gyroY) && Steady(samples, GYRO_Z, r.gyroZ)
    ensures var d := Scale(r, BiasOf(samples));
      d.accelX == 0.0 && d.accelY == 0.0 && d.accelZ == 1.0 && d.gyroX == 0.0 && d.gyroY == 0.0 && d.gyroZ == 0.0
  {
    MeanWithin(samples, ACCEL_X, r.accelX, r.accelX);
    MeanWithin(samples, ACCEL_Y, r.accelY, r.accelY);
    MeanWithin(samples, ACCEL_Z, r.accelZ, r.accelZ);
    MeanWithin(samples, GYRO_X, r.gyroX, r.gyroX);
    MeanWithin(samples, GYRO_Y, r.gyroY, r.gyroY);
    MeanWithin(samples, GYRO_Z, r.gyroZ, r.gyroZ);
  }

  // ---------------------------------------------------------------------
  // Bus transactions
  // ---------------------------------------------------------------------

  /** The register writes of MPU9250_Init after the identity check. */
  function InitWrites(): seq<Event>
  {
    WriteLog(MPU9250_ADDR, PWR_MGMT_1_REG, [0x00]) + WriteLog(MPU9250_ADDR, SMPLRT_DIV_REG, [0x07])
    + WriteLog(MPU9250_ADDR, CONFIG_REG, [0x06]) + WriteLog(MPU9250_ADDR, GYRO_CONFIG_REG, [0x00])
    + WriteLog(MPU9250_ADDR, ACCEL_CONFIG_REG, [0x00])
  }

  /** The bus events of one block read receiving the bytes from position at on. */
  function BlockLog(bus: Bus, at: nat): seq<Event>
  {
    ReadLog(MPU9250_ADDR, ACCEL_XOUT_H_REG, bus.Incoming(at, BLOCK_BYTES))
  }

  /** The block reads of a bus, by the position of their first byte. */
  function BlockLogs(bus: Bus): nat -> seq<Event>
  {
    (at: nat) => BlockLog(bus, at)
  }

  /** The bus events of n block reads receiving the bytes from position from on. */
  function SampleLog(bus: Bus, from: nat, n: nat): seq<Event>
  {
    Runs(BlockLogs(bus), from, BLOCK_BYTES, n)
  }

  /** The sample decoded from the j-th of consecutive blocks received from position from on. */
  function SampleAt(bus: Bus, from: nat, j: nat): (r: RawData)
    ensures r.InRange()
    decreases j
  {
    if j == 0 then DecodeRaw(bus.Incoming(from, BLOCK_BYTES)) else SampleAt(bus, from + BLOCK_BYTES, j - 1)
  }

  /** The j-th block from from starts BLOCK_BYTES * j bytes on. */
  lemma {:induction false} SampleAtDecodes(bus: Bus, from: nat, j: nat)
    ensures SampleAt(bus, from, j) == DecodeRaw(bus.Incoming(from + BLOCK_BYTES * j, BLOCK_BYTES))
    decreases j
  {
    if j > 0 {
      SampleAtDecodes(bus, from + BLOCK_BYTES, j - 1);
    }
  }

  /** The first n of those samples. */
  function Samples(bus: Bus, from: nat, n: nat): (s: seq<RawData>)
    ensures |s| == n
  {
    if n == 0 then [] else Samples(bus, from, n - 1) + [SampleAt(bus, from, n - 1)]
  }

  /** Channel k summed over the first n of those samples, one block at a time as the calibration loop does. */
  function SumTo(bus: Bus, from: nat, n: nat, k: nat): int
    requires k < CHANNELS
  {
    if n == 0 then 0 else SumTo(bus, from, n - 1, k) + Channel(SampleAt(bus, from, n - 1), k)
  }

  /** The running sum is the channel sum of the samples read so far. */
  lemma {:induction false} SumToIsChannelSum(bus: Bus, from: nat, n: nat, k: nat)
    requires k < CHANNELS
    ensures SumTo(bus, from, n, k) == ChannelSum(Samples(bus, from, n), k)
  {
    if n > 0 {
      SumToIsChannelSum(bus, from, n - 1, k);
      var s := Samples(bus, from, n);
      assert s[..n - 1] == Samples(bus, from, n - 1);
    }
  }

  /** A running sum of n int16 readings lies in [-32768 n, 32767 n]. */
  lemma {:induction false} SumToBound(bus: Bus, from: nat, n: nat, k: nat)
    requires k < CHANNELS
    ensures -0x8000 * n <= SumTo(bus, from, n, k) <= 0x7FFF * n
  {
    if n > 0 {
      var m := n - 1;
      SumToBound(bus, from, m, k);
      var c := Channel(SampleAt(bus, from, m), k);
      assert SumTo(bus, from, n, k) == SumTo(bus, from, m, k) + c;
    }
  }

  /** One more sample adds its readings to the six summed channels, and every running sum still fits an int32_t. */
  lemma SumsStep(bus: Bus, from: nat, n: nat, raw: RawData)
    requires n < SAMPLES && raw == SampleAt(bus, from, n)
    ensures SumTo(bus, from, n + 1, ACCEL_X) == SumTo(bus, from, n, ACCEL_X) + raw.accelX
    ensures SumTo(bus, from, n + 1, ACCEL_Y) == SumTo(bus, from, n, ACCEL_Y) + raw.accelY
    ensures SumTo(bus, from, n + 1, ACCEL_Z) == SumTo(bus, from, n, ACCEL_Z) + raw.accelZ
    ensures SumTo(bus, from, n + 1, GYRO_X) == SumTo(bus, from, n, GYRO_X) + raw.gyroX
    ensures SumTo(bus, from, n + 1, GYRO_Y) == SumTo(bus, from, n, GYRO_Y) + raw.gyroY
    ensures SumTo(bus, from, n + 1, GYRO_Z) == SumTo(bus, from, n, GYRO_Z) + raw.gyroZ
    ensures InInt32(SumTo(bus, from, n + 1, ACCEL_X)) && InInt32(SumTo(bus, from, n + 1, ACCEL_Y))
    ensures InInt32(SumTo(bus, from, n + 1, ACCEL_Z)) && InInt32(SumTo(bus, from, n + 1, GYRO_X))
    ensures InInt32(SumTo(bus, from, n + 1, GYRO_Y)) && InInt32(SumTo(bus, from, n + 1, GYRO_Z))
  {
    SumToBound(bus, from, n + 1, ACCEL_X);
    SumToBound(bus, from, n + 1, ACCEL_Y);
    SumToBound(bus, from, n + 1, ACCEL_Z);
    SumToBound(bus, from, n + 1, GYRO_X);
    SumToBound(bus, from, n + 1, GYRO_Y);
    SumToBound(bus, from, n + 1, GYRO_Z);
  }

  /** The six running sums over all SAMPLES blocks are the channel sums of the samples decoded from them. */
  lemma SumsAreChannelSums(bus: Bus, from: nat)
    ensures var s := Samples(bus, from, SAMPLES);
      && SumTo(bus, from, SAMPLES, ACCEL_X) == ChannelSum(s, ACCEL_X)
      && SumTo(bus, from, SAMPLES, ACCEL_Y) == ChannelSum(s, ACCEL_Y)
      && SumTo(bus, from, SAMPLES, ACCEL_Z) == ChannelSum(s, ACCEL_Z)
      && SumTo(bus, from, SAMPLES, GYRO_X) == ChannelSum(s, GYRO_X)
      && SumTo(bus, from, SAMPLES, GYRO_Y) == ChannelSum(s, GYRO_Y)
      && SumTo(bus, from, SAMPLES, GYRO_Z) == ChannelSum(s, GYRO_Z)
  {
    SumToIsChannelSum(bus, from, SAMPLES, ACCEL_X);
    SumToIsChannelSum(bus, from, SAMPLES, ACCEL_Y);
    SumToIsChannelSum(bus, from, SAMPLES, ACCEL_Z);
    SumToIsChannelSum(bus, from, SAMPLES, GYRO_X);
    SumToIsChannelSum(bus, from, SAMPLES, GYRO_Y);
    SumToIsChannelSum(bus, from, SAMPLES, GYRO_Z);
  }

  /** The block read at position at is the n-th sample from from. */
  lemma SampleAtPosition(bus: Bus, from: nat, n: nat, at: nat, raw: RawData)
    requires at == from + BLOCK_BYTES * n
    requires raw == DecodeRaw(bus.Incoming(at, BLOCK_BYTES))
    ensures raw == SampleAt(bus, from, n)
  {
    SampleAtDecodes(bus, from, n);
  }

  /** The driver's bias record g_calibData and the bus it talks on. */
  class Imu {
    const bus: Bus
    var calib: CalibData

    /** The sensor sits on I2C1; before any calibration every offset is 0. */
    constructor (bus: Bus)
      requires bus.id == I2C1
      ensures this.bus == bus && calib == ZERO_BIAS
    {
      this.bus := bus;
      calib := ZERO_BIAS;
    }

    /** MPU9250_Check: one byte from WHO_AM_I. */
    method Check() returns (ok: byte)
      modifies bus
      ensures bus.received == old(bus.received) + 1
      ensures ok == 1 <==> bus.incoming(old(bus.received)) == WHO_AM_I_VAL
      ensures ok == 0 || ok == 1
      ensures bus.log == old(bus.log) + ReadLog(MPU9250_ADDR, WHO_AM_I_REG, [bus.incoming(old(bus.received))])
    {
      var whoAmI := bus.ReadByte(MPU9250_ADDR, WHO_AM_I_REG);
      if whoAmI == WHO_AM_I_VAL {
        ok := 1;
      } else {
        ok := 0;
      }
    }

    /**
      MPU9250_Init: nothing but the identity read when the check fails;
      otherwise wake-up, 125 Hz sample rate, 5 Hz low-pass filter,
      +-250 deg/s and +-2 g, in that order.
     */
    method Init() returns (ok: byte)
      modifies bus
      ensures bus.received == old(bus.received) + 1
      ensures var who := bus.incoming(old(bus.received));
        && (ok == 1 <==> who == WHO_AM_I_VAL)
        && bus.log == old(bus.log) + ReadLog(MPU9250_ADDR, WHO_AM_I_REG, [who])
                      + (if who == WHO_AM_I_VAL then InitWrites() else [])
    {
      var found := Check();
      if found == 0 {
        return 0;
      }
      Configure();
      ok := 1;
    }

    /** The register writes of MPU9250_Init after the identity check. */
    method Configure()
      modifies bus
      ensures bus.received == old(bus.received)
      ensures bus.log == old(bus.log) + InitWrites()
    {
      ghost var l0 := bus.log;
      ghost var w1, w2 := WriteLog(MPU9250_ADDR, PWR_MGMT_1_REG, [0x00]), WriteLog(MPU9250_ADDR, SMPLRT_DIV_REG, [0x07]);
      ghost var w3, w4 := WriteLog(MPU9250_ADDR, CONFIG_REG, [0x06]), WriteLog(MPU9250_ADDR, GYRO_CONFIG_REG, [0x00]);
      ghost var w5 := WriteLog(MPU9250_ADDR, ACCEL_CONFIG_REG, [0x00]);
      bus.WriteByte(MPU9250_ADDR, PWR_MGMT_1_REG, 0x00);
      bus.WriteByte(MPU9250_ADDR, SMPLRT_DIV_REG, 0x07);
      AppendAssociates(l0, w1, w2);
      bus.WriteByte(MPU9250_ADDR, CONFIG_REG, 0x06);
      AppendAssociates(l0, w1 + w2, w3);
      bus.WriteByte(MPU9250_ADDR, GYRO_CONFIG_REG, 0x00);
      AppendAssociates(l0, w1 + w2 + w3, w4);
      bus.WriteByte(MPU9250_ADDR, ACCEL_CONFIG_REG, 0x00);
      AppendAssociates(l0, w1 + w2 + w3 + w4, w5);
    }

    /** MPU9250_ReadRawData: one fourteen-byte burst read from ACCEL_XOUT_H. */
    method ReadRawData() returns (raw: RawData)
      modifies bus
      ensures bus.received == old(bus.received) + BLOCK_BYTES
      ensures raw == DecodeRaw(bus.Incoming(old(bus.received), BLOCK_BYTES))
      ensures bus.log == old(bus.log) + ReadLog(MPU9250_ADDR, ACCEL_XOUT_H_REG, bus.Incoming(old(bus.received), BLOCK_BYTES))
    {
      var buffer := new byte[BLOCK_BYTES];
      bus.ReadBytes(MPU9250_ADDR, ACCEL_XOUT_H_REG, buffer, BLOCK_BYTES as u16);
      assert buffer[..BLOCK_BYTES] == buffer[..];
      raw := DecodeRaw(buffer[..]);
    }

    /** MPU9250_ReadData: one raw sample, scaled against the current offsets. */
    method ReadData() returns (d: Data)
      modifies bus
      ensures bus.received == old(bus.received) + BLOCK_BYTES
      ensures d == Scale(DecodeRaw(bus.Incoming(old(bus.received), BLOCK_BYTES)), calib)
      ensures bus.log == old(bus.log) + ReadLog(MPU9250_ADDR, ACCEL_XOUT_H_REG, bus.Incoming(old(bus.received), BLOCK_BYTES))
    {
      var raw := ReadRawData();
      d := Scale(raw, calib);
    }

    // AddSample and Accumulate split one pass of the sampling loop into
    // the block read and the six additions, so that each proof stays small.

    /** One pass of the sampling loop: the n-th block read, added to the running sums of the first n. */
    method AddSample(ghost s: seq<Event>, ghost from: nat, ghost n: nat, ax: i32, ay: i32, az: i32, gx: i32, gy: i32, gz: i32)
      returns (ax': i32, ay': i32, az': i32, gx': i32, gy': i32, gz': i32)
      requires n < SAMPLES && bus.received == from + BLOCK_BYTES * n && bus.log == s + SampleLog(bus, from, n)
      requires ax == SumTo(bus, from, n, ACCEL_X) && ay == SumTo(bus, from, n, ACCEL_Y)
      requires az == SumTo(bus, from, n, ACCEL_Z) && gx == SumTo(bus, from, n, GYRO_X)
      requires gy == SumTo(bus, from, n, GYRO_Y) && gz == SumTo(bus, from, n, GYRO_Z)
      modifies bus
      ensures bus.received == old(bus.received) + BLOCK_BYTES
      ensures ax' == SumTo(bus, from, n + 1, ACCEL_X) && ay' == SumTo(bus, from, n + 1, ACCEL_Y)
      ensures az' == SumTo(bus, from, n + 1, ACCEL_Z) && gx' == SumTo(bus, from, n + 1, GYRO_X)
      ensures gy' == SumTo(bus, from, n + 1, GYRO_Y) && gz' == SumTo(bus, from, n + 1, GYRO_Z)
      ensures bus.log == s + SampleLog(bus, from, n + 1)
    {
      ghost var before, at := bus.log, bus.received;
      var raw := ReadRawData();
      RunsStep(s, BlockLogs(bus), from, BLOCK_BYTES, n, at, before, bus.log);
      SampleAtPosition(bus, from, n, at, raw);
      ax', ay', az', gx', gy', gz' := Accumulate(from, n, raw, ax, ay, az, gx, gy, gz);
    }

    /** The six `+=` of the sampling loop: the n-th sample added to the running sums of the first n. */
    method Accumulate(ghost from: nat, ghost n: nat, raw: RawData, ax: i32, ay: i32, az: i32, gx: i32, gy: i32, gz: i32)
      returns (ax': i32, ay': i32, az': i32, gx': i32, gy': i32, gz': i32)
      requires n < SAMPLES && raw == SampleAt(bus, from, n)
      requires ax == SumTo(bus, from, n, ACCEL_X) && ay == SumTo(bus, from, n, ACCEL_Y)
      requires az == SumTo(bus, from, n, ACCEL_Z) && gx == SumTo(bus, from, n, GYRO_X)
      requires gy == SumTo(bus, from, n, GYRO_Y) && gz == SumTo(bus, from, n, GYRO_Z)
      ensures ax' == SumTo(bus, from, n + 1, ACCEL_X) && ay' == SumTo(bus, from, n + 1, ACCEL_Y)
      ensures az' == SumTo(bus, from, n + 1, ACCEL_Z) && gx' == SumTo(bus, from, n + 1, GYRO_X)
      ensures gy' == SumTo(bus, from, n + 1, GYRO_Y) && gz' == SumTo(bus, from, n + 1, GYRO_Z)
    {
      SumsStep(bus, from, n, raw);
      ax' := ax + raw.accelX;
      ay' := ay + raw.accelY;
      az' := az + raw.accelZ;
      gx' := gx + raw.gyroX;
      gy' := gy + raw.gyroY;
      gz' := gz + raw.gyroZ;
    }

    /**
      The sampling loop of MPU9250_Calibrate: 100 block reads, each adding
      its six motion channels to int32_t running sums (temperature is not
      summed).
     */
    method SumSamples() returns (ax: i32, ay: i32, az: i32, gx: i32, gy: i32, gz: i32)
      modifies bus
      ensures bus.received == old(bus.received) + BLOCK_BYTES * SAMPLES
      ensures ax == SumTo(bus, old(bus.received), SAMPLES, ACCEL_X) && ay == SumTo(bus, old(bus.received), SAMPLES, ACCEL_Y)
      ensures az == SumTo(bus, old(bus.received), SAMPLES, ACCEL_Z) && gx == SumTo(bus, old(bus.received), SAMPLES, GYRO_X)
      ensures gy == SumTo(bus, old(bus.received), SAMPLES, GYRO_Y) && gz == SumTo(bus, old(bus.received), SAMPLES, GYRO_Z)
      ensures bus.log == old(bus.log) + SampleLog(bus, old(bus.received), SAMPLES)
    {
      ghost var r0 := bus.received;
      ax, ay, az, gx, gy, gz := 0, 0, 0, 0, 0, 0;
      var i: u16 := 0;
      while i < SAMPLES as u16
        invariant i as nat <= SAMPLES && bus.received == r0 + BLOCK_BYTES * i as nat
        invariant ax == SumTo(bus, r0, i as nat, ACCEL_X) && ay == SumTo(bus, r0, i as nat, ACCEL_Y)
        invariant az == SumTo(bus, r0, i as nat, ACCEL_Z) && gx == SumTo(bus, r0, i as nat, GYRO_X)
        invariant gy == SumTo(bus, r0, i as nat, GYRO_Y) && gz == SumTo(bus, r0, i as nat, GYRO_Z)
        invariant bus.log == old(bus.log) + SampleLog(bus, r0, i as nat)
      {
        ax, ay, az, gx, gy, gz := AddSample(old(bus.log), r0, i as nat, ax, ay, az, gx, gy, gz);
        i := i + 1;
      }
      assert i as nat == SAMPLES;
    }

    /**
      MPU9250_Calibrate: the sampling loop, then the bias record set from
      its six sums.
     */
    method Calibrate() returns (c: CalibData)
      modifies bus, this`calib
      ensures bus.received == old(bus.received) + BLOCK_BYTES * SAMPLES
      ensures c == BiasOf(Samples(bus, old(bus.received), SAMPLES)) && calib == c
      ensures bus.log == old(bus.log) + SampleLog(bus, old(bus.received), SAMPLES)
    {
      ghost var r0 := bus.received;
      var ax, ay, az, gx, gy, gz := SumSamples();
      SumsAreChannelSums(bus, r0);
      c := SetBias(Samples(bus, r0, SAMPLES), ax, ay, az, gx, gy, gz);
    }

    /**
      The tail of MPU9250_Calibrate: each int32_t sum divided by 100 in C,
      then converted to offsets that replace the whole bias record.
     */
    method SetBias(ghost samples: seq<RawData>, ax: i32, ay: i32, az: i32, gx: i32, gy: i32, gz: i32) returns (c: CalibData)
      requires |samples| == SAMPLES
      requires ax == ChannelSum(samples, ACCEL_X) && ay == ChannelSum(samples, ACCEL_Y)
      requires az == ChannelSum(samples, ACCEL_Z) && gx == ChannelSum(samples, GYRO_X)
      requires gy == ChannelSum(samples, GYRO_Y) && gz == ChannelSum(samples, GYRO_Z)
      modifies this`calib
      ensures c == BiasOf(samples) && calib == c
    {
      var mx, my, mz := TruncDiv(ax, SAMPLES), TruncDiv(ay, SAMPLES), TruncDiv(az, SAMPLES);
      var rx, ry, rz := TruncDiv(gx, SAMPLES), TruncDiv(gy, SAMPLES), TruncDiv(gz, SAMPLES);
      c := CalibData(mx as real / ACCEL_SENSITIVITY, my as real / ACCEL_SENSITIVITY, mz as real / ACCEL_SENSITIVITY - 1.0,
                     rx as real / GYRO_SENSITIVITY, ry as real / GYRO_SENSITIVITY, rz as real / GYRO_SENSITIVITY);
      calib := c;
    }
  }
}
