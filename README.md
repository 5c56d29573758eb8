# Flight-controller drivers: I2C, BMP280, MPU9250, UART2 packet link, PWM motors

A Dafny model of the hardware-facing drivers of a small STM32F411 flight
controller (the `DRIVER/` directory of the repository):

- `i2c.dfy` (module `I2C`) models the polling I2C master of `DRIVER/I2C.c`.
  The bus is a class whose `log` records every peripheral-library step in
  order: wait for idle, START, address, send, receive, ACK off/on, STOP.
  The bytes the addressed device drives onto the wire are an input stream,
  `incoming`, consumed one byte per received event. `I2C1_*` and `I2C2_*`
  are the same code on two peripheral instances, so one class with a
  `BusId` models both.
- `bmp280.dfy` (module `Bmp280`) models the barometer driver
  `DRIVER/BMP280.c`. It covers the identity check, the initialisation writes,
  the calibration and raw-sample reads, and the integer compensation
  formulas. Those formulas are the ones of section 3.11.3 of the Bosch
  BMP280 datasheet, and they are modelled both as the datasheet intends
  and as the C code evaluates them.
- `mpu9250.dfy` (module `Mpu9250`) models the inertial-sensor driver
  `DRIVER/MPU9250.c`. It covers the identity check, the initialisation writes,
  the decoding of the 14-byte measurement block, the 100-sample bias
  calibration and the scaled reading.
- `uart2.dfy` (module `Uart2`) models the packet link of `DRIVER/UART2.c`.
  It covers the XOR checksum, the packet sender, the receive interrupt that
  reassembles frames byte by byte, and the call that drains a received frame
  into the caller's `Packet_t`. The receiver is a pure state machine
  (`Step`, `Feed`, `Drain`) about which the link's properties are proved.
  The class `Port` changes the driver's buffer, index and flag in place and
  is proved to follow that state machine.
- `pwm.dfy` (module `Pwm`) models the motor outputs of `DRIVER/PWM.c`. It
  covers the TIM2/TIM4 time base, the duty clamp, the motor-to-compare-register
  table, and starting and stopping the timers.
- `ctypes.dfy` (module `CTypes`) holds the C integer types and the C
  operators the drivers use, written out over unbounded integers:
  - `uint32_t` wrap-around;
  - arithmetic right shift (a floor division);
  - C's truncating `/`;
  - `int16_t` reinterpretation of a 16-bit word;
  - big-endian byte pairs;
  - bytewise XOR.

The module-wide globals of each driver become fields of its class:

| global | field |
|---|---|
| BMP280 `g_calibData`, `g_t_fine` | `Sensor.calib`, `Sensor.tFine` |
| MPU9250 `g_calibData` | `Imu.calib` |
| UART2 `g_rxBuffer`, `g_rxIndex`, `g_rxFlag` | `Port.rxBuffer`, `Port.rxIndex`, `Port.rxFlag` |

Float arithmetic is modelled as exact real arithmetic.

Where the code departs from the packet format and the bus protocol it
implements, the model follows the code in these places:

- I2C writes never touch the ACK configuration (`WriteLogLeavesAck`). Only
  reads disable ACK for the last byte and re-enable it after STOP.
- The receive interrupt keeps storing bytes while a completed frame waits to
  be drained. It never lowers the flag. Any start byte rewinds the index.
- A corrupted length byte can make a corrupted frame pass the checksum
  (`LengthCorruptionAccepted`). The checksum then covers the wrong span.

In three places the code is evidently wrong (see "## Findings"). There the
model keeps the code as written in a member of its own, proves the
discrepancy about it, and uses the corrected behaviour everywhere else:

- `UART2_SendPacket` sends `length + 4` bytes of the struct. These are the
  first `length + 3` bytes of the struct, then `data[length]` rather than the
  checksum byte (`WireAsWritten`). `Port.SendFramedPacket` sends the
  checksum last.
- `UART2_ReceivePacket` copies a frame whose length byte exceeds 64 past the
  end of `data[]` (`CopyAsWritten`). `Drain` and `Port.ReceivePacket` reject
  such a length before copying anything.
- `BMP280_CalculateTemperature` evaluates its terms in `uint32_t`
  (`TemperatureAsWritten`). `Sensor.CalculateTemperature` and
  `Sensor.ReadData` use the signed formula of the datasheet (`Temperature`).
  On the datasheet's example the code stores t_fine 390566 (76.28 degC);
  the model stores 128422 (25.08 degC).

## Model

| member | source | states |
|---|---|---|
| CTypes.U32 | DRIVER/PWM.c:98 | the uint32_t result is congruent to the mathematical value modulo 2^32 and equals it when it is in range |
| CTypes.Asr | DRIVER/BMP280.c:127-130 | `>>` on a signed value is the floor of x / 2^k: r * 2^k <= x < (r + 1) * 2^k |
| CTypes.TruncDiv | DRIVER/MPU9250.c:158-163 | C's `/` agrees with floor division on non-negative operands, has the sign of a / b, and is no larger in magnitude than the dividend |
| CTypes.TruncDivRemainder | DRIVER/MPU9250.c:158-163 | the remainder left by C's `/` is smaller in magnitude than the divisor and has the dividend's sign |
| CTypes.Int16 | DRIVER/MPU9250.c:95-101 | storing a 16-bit word into an int16_t gives the value in [-32768, 32768) congruent to it modulo 2^16 |
| CTypes.Int16BitsRoundTrip | DRIVER/MPU9250.c:95-101 | reinterpreting a word as int16_t loses nothing: the word is recovered from the signed value |
| CTypes.Word | DRIVER/BMP280.c:82 | `(msb << 8) \| lsb` has msb as its high byte and lsb as its low byte |
| CTypes.WordRoundTrip | DRIVER/BMP280.c:82-95 | every 16-bit word splits into a high and a low byte that reassemble to it |
| CTypes.XorCancel | DRIVER/UART2.c:156 | XOR with the same byte is injective, so equal checksums after the same last byte mean equal prefixes |
| I2C.Bus.WaitForIdle | DRIVER/I2C.c:151-154 | appends one wait-for-idle step to the log |
| I2C.Bus.StartTransfer | DRIVER/I2C.c:163-185 | appends START and the address phase in the given direction and returns 1 |
| I2C.Bus.StopTransfer | DRIVER/I2C.c:192-199 | appends STOP |
| I2C.Bus.OpenRead | DRIVER/I2C.c:256-269 | the register-read preamble: idle wait, START, address for write, register, repeated START, address for read |
| I2C.Bus.OpenWrite | DRIVER/I2C.c:332-339 | the register-write preamble: idle wait, START, address for write, register |
| I2C.Bus.ReadByte | DRIVER/I2C.c:207-241 | returns the next incoming byte and consumes exactly one; the log is the read preamble, ACK off, the byte, STOP, ACK on |
| I2C.Bus.ReceiveInto | DRIVER/I2C.c:272-283 | the first `length` buffer cells become the next `length` incoming bytes, the other cells are unchanged, and ACK is disabled just before the last byte |
| I2C.Bus.ReadBytes | DRIVER/I2C.c:251-290 | the buffer prefix is the next `length` incoming bytes, the rest of the buffer is unchanged, and the log is the full read transaction ending in STOP then ACK on |
| I2C.Bus.WriteByte | DRIVER/I2C.c:299-317 | the log is the write preamble, the data byte and STOP; nothing is received |
| I2C.Bus.WriteBytes | DRIVER/I2C.c:327-350 | the log is the write preamble, each of the `length` data bytes in order, and STOP |
| I2C.ReadLog | DRIVER/I2C.c:251-290 | a register read that receives n bytes is 8 + n bus steps (one more when n > 0), opening with the six-step read preamble and ending with STOP and ACK re-enabled |
| I2C.WriteLog | DRIVER/I2C.c:327-350 | a register write of n bytes is 5 + n bus steps, opening with idle wait, START, address for writing and the register, and ending with STOP |
| I2C.ReadLogLayout | DRIVER/I2C.c:251-290 | a read of n bytes is 8 + n steps (one more when n > 0): the preamble, n - 1 acknowledged receives, ACK off before the last byte, STOP, ACK on |
| I2C.ReadLogAcks | DRIVER/I2C.c:272-289 | a read disables ACK exactly once when it reads any byte, never when it reads none, and re-enables ACK and stops exactly once |
| I2C.WriteLogLayout | DRIVER/I2C.c:327-350 | a write of n bytes is 5 + n steps: the preamble, one send per data byte in order, then STOP |
| I2C.WriteLogLeavesAck | DRIVER/I2C.c:299-350 | a write neither disables nor re-enables ACK and receives nothing |
| Uart2.XorAll | DRIVER/UART2.c:148-160 | the XOR checksum of no bytes is the initial 0 and of a single byte is that byte |
| Uart2.XorAllAppend | DRIVER/UART2.c:148-160 | the checksum of a concatenation is the XOR of the parts' checksums |
| Uart2.XorAllSingleChange | DRIVER/UART2.c:148-160 | changing any single byte of the covered span changes the checksum |
| Uart2.CalculateChecksum | DRIVER/UART2.c:148-160 | the loop returns the XOR of the `length` bytes from the given offset |
| Uart2.WithChecksum | DRIVER/UART2.c:170 | the packet keeps its first 67 bytes and its checksum field becomes the XOR of type, length and the first `length` payload bytes |
| Uart2.WireAsWritten | DRIVER/UART2.c:173 | the send as written puts `length + 4` bytes on the wire: the struct's first `length + 3`, then `data[length]` for a length below 64 and the checksum only for length 64 |
| Uart2.FramedWire | DRIVER/UART2.c:167-174 | the corrected send puts `length + 4` bytes on the wire: the struct's first `length + 3`, then a byte that XORs with the checksum of type, length and payload to 0 |
| Uart2.FramedWireIsFrame | DRIVER/UART2.c:167-174 | the corrected sender emits exactly start, type, length, payload and the checksum of type through payload |
| Uart2.WireAsWrittenLastByte | DRIVER/UART2.c:173 | the bytes sent as written agree with the frame except the last, which is data[length] unless length is 64 |
| Uart2.WireAsWrittenFramedIff | DRIVER/UART2.c:167-174 | the as-written bytes are a correct frame if and only if length is 64 or data[length] happens to equal the checksum |
| Uart2.WireAsWrittenMissesChecksum | DRIVER/UART2.c:173 | a packet of type 1, length 2 and payload 04 08 goes out as AA 01 02 04 08 00, ending in data[2] instead of its checksum 0F |
| Uart2.Step | DRIVER/UART2.c:267-298 | one receive interrupt keeps the index within the 256-byte buffer |
| Uart2.Feed | DRIVER/UART2.c:267-298 | any run of receive interrupts keeps the index within the 256-byte buffer |
| Uart2.FeedKeepsFlag | DRIVER/UART2.c:290-293 | once raised, the flag stays raised whatever bytes arrive, and each byte advances the index by at most one |
| Uart2.StepEffect | DRIVER/UART2.c:278-293 | a start byte rewinds to buf[0] and index 1, another byte lands at the index while there is room, no other cell changes, and the flag is never lowered and is raised exactly when the index reaches buf[2] + 4 (at least 4) |
| Uart2.FeedBurst | DRIVER/UART2.c:267-298 | a start byte followed by non-start bytes fills the buffer from 0, sets the index to the burst's length, and raises the flag once the length byte plus four bytes have arrived |
| Uart2.FrameRaisesFlag | DRIVER/UART2.c:290-293 | a whole frame raises the flag, with the frame at the start of the buffer |
| Uart2.FrameFlagNotBefore | DRIVER/UART2.c:290-293 | no proper prefix of a frame changes the flag |
| Uart2.FrameReceived | DRIVER/UART2.c:267-298 | a frame whose bytes after the first are not 0xAA, fed from any receiver state, leaves type, length, payload and checksum in the buffer with the flag raised |
| Uart2.Copied | DRIVER/UART2.c:226-236 | the 68-byte struct after a copy with a length of at most 64: header and payload from the buffer, data[length..63] as they were, and buf[3+length] at the checksum offset 67 |
| Uart2.Drain | DRIVER/UART2.c:214-250 | with no frame ready (or an oversize one, corrected) the struct is untouched and the call fails; otherwise header, payload and checksum are copied, the rest of the struct is kept, success means the checksum matches, and the flag is cleared either way |
| Uart2.DrainAcceptsIff | DRIVER/UART2.c:239-244 | a ready frame is accepted if and only if the byte after its payload is the XOR of type, length and payload |
| Uart2.DrainedFields | DRIVER/UART2.c:226-236 | the drained struct's start, type, length, payload and checksum fields are the buffer's |
| Uart2.FrameDelivered | DRIVER/UART2.c:214-250 | a frame from the corrected sender is drained successfully into any struct with its type, length, payload and checksum |
| Uart2.CorruptedFrameMismatch | DRIVER/UART2.c:239-244 | changing one byte of a frame other than its start and length bytes makes checksum and span disagree |
| Uart2.SingleCorruptionRejected | DRIVER/UART2.c:239-244 | such a corrupted frame, received and drained, is rejected |
| Uart2.LengthCorruptionAccepted | DRIVER/UART2.c:228-244 | the frame AA 01 02 00 00 03 with its length byte turned into 01 is still accepted, as a 1-byte packet |
| Uart2.CopyRoundsAsWritten | DRIVER/UART2.c:226-234 | after k rounds of the unbounded copy loop, offsets 0 to k+2 of the struct and the memory after it hold the receive buffer's bytes, and every later offset is unchanged |
| Uart2.CopyAsWritten | DRIVER/UART2.c:226-235 | the copy as written puts buf[3+length] at offset 67 and buf[j] at every other offset j below length+3, including offsets past the 68-byte struct; the rest of memory is unchanged |
| Uart2.CopyAgreesInRange | DRIVER/UART2.c:226-235 | for a length of at most 64 the copy as written is exactly the corrected copy |
| Uart2.OversizeFrameOverflows | DRIVER/UART2.c:226-235 | an oversize frame raises the flag; with length 65 the copy loop puts payload byte 65 into the checksum field, and with length 66 or more it writes the frame's byte 68 over the first byte after the struct, changing it whenever it differed |
| Uart2.OversizeFrameExists | DRIVER/UART2.c:290-293 | a frame with length byte 65 and no inner start byte exists and completes reception |
| Uart2.DrainStaysInStruct | DRIVER/UART2.c:214-250 | the corrected drain accepts only lengths up to 64 and leaves the struct untouched for longer ones |
| Uart2.Port.constructor | DRIVER/UART2.c:13-17 | the receive buffer starts zeroed, the index at 0, the flag lowered, and nothing has been sent |
| Uart2.Port.IrqHandler | DRIVER/UART2.c:267-298 | the in-place update of buffer, index and flag is one step of the receiver state machine |
| Uart2.Port.SendByte | DRIVER/UART2.c:116-123 | appends one byte to the transmit line |
| Uart2.Port.SendData | DRIVER/UART2.c:131-140 | appends the first `length` bytes of the array to the transmit line, in order |
| Uart2.Port.SendPacket | DRIVER/UART2.c:167-174 | as written: stores the checksum into the packet, then sends the first length + 4 bytes of the struct |
| Uart2.Port.SendFramedPacket | DRIVER/UART2.c:167-174 | corrected: stores the checksum, then sends start, type, length, payload and that checksum |
| Uart2.Port.CopyFrame | DRIVER/UART2.c:226-236 | the struct gets the buffer's header, payload and checksum and keeps its other bytes |
| Uart2.Port.ReceivePacket | DRIVER/UART2.c:214-250 | the in-place drain returns, leaves the struct and leaves the receiver exactly as the corrected `Drain` does |
| Bmp280.CalibFromBytes | DRIVER/BMP280.c:79-96 | dig_T1 and dig_P1 come out unsigned 16-bit, the other ten signed 16-bit |
| Bmp280.CalibFromBytesWords | DRIVER/BMP280.c:79-96 | each calibration word's bit pattern is the big-endian pair of bytes read for it |
| Bmp280.CalibRoundTrip | DRIVER/BMP280.c:79-96 | decoding the bytes of any in-range calibration record gives that record back |
| Bmp280.CalibWordInjective | DRIVER/BMP280.c:79-96 | two in-range records with the same twelve register words are equal |
| Bmp280.Adc20 | DRIVER/BMP280.c:111 | a 20-bit sample whose top 8 bits are msb, next 8 lsb and low 4 the top nibble of xlsb |
| Bmp280.RawFromBytes | DRIVER/BMP280.c:103-115 | pressure from bytes 0-2 and temperature from bytes 3-5 of the burst read, both below 2^20 |
| Bmp280.RawRoundTrip | DRIVER/BMP280.c:103-115 | every pair of 20-bit samples is recovered from the six bytes that encode it |
| Bmp280.Adc20Inverse | DRIVER/BMP280.c:111 | the 20-bit sample is recovered from its three register bytes |
| Bmp280.RawIgnoresLowNibbles | DRIVER/BMP280.c:111-114 | the low nibbles of the two xlsb bytes do not affect the samples |
| Bmp280.Centi | DRIVER/BMP280.c:130 | (t_fine * 5 + 128) >> 8 is t_fine / 51.2 rounded to the nearest integer |
| Bmp280.TempLinear | DRIVER/BMP280.c:127 | the first temperature term has the sign of (adc_T / 8 - 2 dig_T1) * dig_T2 and is the floor of the datasheet's real-valued (adc_T / 16384 - dig_T1 / 1024) * dig_T2 once the three low bits of adc_T are dropped |
| Bmp280.TempQuadratic | DRIVER/BMP280.c:128 | the second temperature term has the sign of dig_T3, and is strictly negative when dig_T3 < 0 and the squared offset is at least 2^12 |
| Bmp280.Temperature | DRIVER/BMP280.c:127-130 | t_fine minus the second term is the floor of the datasheet's real-valued first term (low three bits of adc_T dropped); the temperature is t_fine / 51.2 rounded to the nearest hundredth of a degree; t_fine and the temperature are non-negative when both terms are and negative when both are |
| Bmp280.TempLinearAsWritten | DRIVER/BMP280.c:127 | evaluated in uint32_t as the code does, the first term is never negative and stays below 2^21 |
| Bmp280.TempQuadraticAsWritten | DRIVER/BMP280.c:128 | evaluated in uint32_t, the second term is never negative and stays below 2^18 |
| Bmp280.TemperatureAsWritten | DRIVER/BMP280.c:127-130 | as written, t_fine and the temperature can never be negative |
| Bmp280.LinearAgrees | DRIVER/BMP280.c:127 | the as-written first term equals the intended one when adc_T / 8 >= 2 dig_T1 and dig_T2 >= 0 |
| Bmp280.TemperatureAgrees | DRIVER/BMP280.c:127-130 | the as-written temperature equals the intended one when no term is negative and nothing wraps |
| Bmp280.NegativeT3ChangesTFine | DRIVER/BMP280.c:128 | with dig_T3 < 0 and a squared offset of at least 2^12, the as-written t_fine differs from the intended one |
| Bmp280.ExampleTemperature | DRIVER/BMP280.c:127-130 | on the datasheet's example the intended t_fine is 128422 (25.08 degC) and the as-written one 390566 (76.28 degC) |
| Bmp280.ExampleTempTerms | DRIVER/BMP280.c:127-128 | the intended terms of the example are 128793 and -371 |
| Bmp280.ExampleTempTermsAsWritten | DRIVER/BMP280.c:127-128 | the as-written terms of the example are 128793 and 261773 |
| Bmp280.NegativeLinearShiftsVar1 | DRIVER/BMP280.c:127 | when adc_T / 8 is below 2 dig_T1 and dig_T2 > 0, the unsigned var1 exceeds the signed one by exactly 2^21 |
| Bmp280.PressureComplement | DRIVER/BMP280.c:157 | 1048576 - adc_P is positive for every 20-bit sample |
| Bmp280.PressureDivisor | DRIVER/BMP280.c:145-150 | the divisor var1 is 0 whenever dig_P1 is 0, and is dig_P1 * 2^14 at t_fine 128000 |
| Bmp280.PressureOffset | DRIVER/BMP280.c:145-148 | the offset var2 is dig_P4 * 2^35 at t_fine 128000, and 0 when dig_P4, dig_P5 and dig_P6 are 0 |
| Bmp280.PressureFrom | DRIVER/BMP280.c:152-161 | the steps after the divisor return the 0 sentinel when the divisor is 0 |
| Bmp280.Pressure | DRIVER/BMP280.c:140-164 | the compensation returns 0 whenever its divisor is 0 |
| Bmp280.UncalibratedPressure | DRIVER/BMP280.c:150-155 | with all-zero calibration (before ReadCalibData) the pressure is 0 |
| Bmp280.ExamplePressure | DRIVER/BMP280.c:145-161 | on the datasheet's example the pressure is 25767233 / 256 Pa from the intended t_fine and 27802141 / 256 Pa from the as-written one |
| Bmp280.ExampleDivisor | DRIVER/BMP280.c:145-150 | the example's pressure divisors for the two t_fine values |
| Bmp280.ExampleOffset | DRIVER/BMP280.c:145-148 | the example's pressure offsets for the two t_fine values |
| Bmp280.ExampleQuotients | DRIVER/BMP280.c:157-161 | for the two example t_fine values: the truncated quotient of line 158, the P9 and P8 terms and the final shift |
| Bmp280.CalibLogSplit | DRIVER/BMP280.c:82-95 | the calibration reads are the three temperature words from 0x88 followed by the nine pressure words from 0x8E |
| Bmp280.Sensor.constructor | DRIVER/BMP280.c:13-14 | the sensor is on the second I2C bus and starts with zero calibration and t_fine 0 |
| Bmp280.Sensor.Check | DRIVER/BMP280.c:56-72 | one register read of 0xD0; returns 1 exactly when it reads 0x58, else 0 |
| Bmp280.Sensor.ReadWord | DRIVER/BMP280.c:82 | two single-byte reads, MSB register then LSB register, assembled big-endian |
| Bmp280.Sensor.ReadTemperatureCalib | DRIVER/BMP280.c:82-84 | dig_T1..dig_T3 are the words of the six bytes read from 0x88-0x8D |
| Bmp280.Sensor.ReadPressureCalib | DRIVER/BMP280.c:87-95 | dig_P1..dig_P9 are the words of the eighteen bytes read from 0x8E-0x9F |
| Bmp280.Sensor.ReadCalibData | DRIVER/BMP280.c:79-96 | the calibration record is decoded from the next 24 incoming bytes with the corresponding reads on the bus |
| Bmp280.Sensor.Configure | DRIVER/BMP280.c:37-46 | soft reset (0xB6 to 0xE0), then 0x73 to 0xF4, then 0xA0 to 0xF5, and nothing received |
| Bmp280.Sensor.Init | DRIVER/BMP280.c:25-49 | on a wrong identity returns 0 after the single read with calibration unchanged; otherwise reads the calibration, writes the configuration and returns 1 |
| Bmp280.Sensor.ReadRawData | DRIVER/BMP280.c:103-115 | one 6-byte burst read from 0xF7 decoded into pressure and temperature samples |
| Bmp280.Sensor.CalculateTemperature | DRIVER/BMP280.c:122-133 | stores t_fine and returns hundredths of a degree as the intended compensation gives them |
| Bmp280.Sensor.CalculatePressure | DRIVER/BMP280.c:140-164 | returns the compensated pressure (Pa in Q24.8) from the stored t_fine |
| Bmp280.Sensor.ReadData | DRIVER/BMP280.c:186-200 | one burst read; temperature first, and the pressure uses the t_fine that this temperature step produced |
| Mpu9250.DecodeRaw | DRIVER/MPU9250.c:95-101 | every decoded channel is an int16_t value |
| Mpu9250.DecodeRawChannels | DRIVER/MPU9250.c:95-101 | channel k's bit pattern is the big-endian pair of bytes 2k and 2k+1 of the block |
| Mpu9250.DecodeEncode | DRIVER/MPU9250.c:95-101 | every in-range sample is recovered from its 14-byte encoding |
| Mpu9250.EncodeDecode | DRIVER/MPU9250.c:95-101 | every 14-byte block is recovered from its decoding: no information is lost |
| Mpu9250.ChannelSumWithin | DRIVER/MPU9250.c:143-155 | when every sample of a channel lies in [lo, hi], the sum of n samples lies in [n lo, n hi] |
| Mpu9250.ChannelSumFitsInt32 | DRIVER/MPU9250.c:134-155 | the sum of at most 100 int16_t readings fits the int32_t accumulators |
| Mpu9250.Mean | DRIVER/MPU9250.c:158-163 | the mean is the channel sum divided by 100 in C: the remainder is below 100 in magnitude and has the sign of the sum |
| Mpu9250.MeanWithin | DRIVER/MPU9250.c:158-163 | the truncated mean of 100 readings in [lo, hi] lies in [lo, hi] |
| Mpu9250.TruncDivBetween | DRIVER/MPU9250.c:158-163 | C division by n of a value in [n lo, n hi] lies in [lo, hi] |
| Mpu9250.BiasOf | DRIVER/MPU9250.c:158-171 | each offset times its sensitivity is the channel's mean count, except that the Z acceleration offset is 1 g below it |
| Mpu9250.Scale | DRIVER/MPU9250.c:117-123 | each scaled reading plus its offset, times its sensitivity, gives the raw reading; temperature is raw / 333.87 + 21 |
| Mpu9250.CalibratedAtRest | DRIVER/MPU9250.c:131-175 | after calibrating on 100 identical samples, that sample reads 0 g on X and Y, 1 g on Z and no rotation |
| Mpu9250.SumToIsChannelSum | DRIVER/MPU9250.c:143-155 | the running sum over the bus samples is the channel sum of the decoded samples |
| Mpu9250.SumToBound | DRIVER/MPU9250.c:143-155 | after n samples the running sum lies in [-32768 n, 32767 n] |
| Mpu9250.SumsStep | DRIVER/MPU9250.c:145-151 | adding one sample advances each of the six running sums by that sample's channel, and the new sums fit int32_t |
| Mpu9250.SumsAreChannelSums | DRIVER/MPU9250.c:134-155 | the six running sums left by the loop are the channel sums of the 100 samples it decoded |
| Mpu9250.Imu.constructor | DRIVER/MPU9250.c:13-20 | the sensor is on the first I2C bus and starts with zero offsets |
| Mpu9250.Imu.Check | DRIVER/MPU9250.c:64-80 | one register read of 0x75; returns 1 exactly when it reads 0x71, else 0 |
| Mpu9250.Imu.Configure | DRIVER/MPU9250.c:42-54 | writes 0x00 to 0x6B, 0x07 to 0x19, 0x06 to 0x1A, 0x00 to 0x1B and 0x00 to 0x1C, in that order |
| Mpu9250.Imu.Init | DRIVER/MPU9250.c:33-57 | returns 1 exactly on the right identity, and only then performs the configuration writes |
| Mpu9250.Imu.ReadRawData | DRIVER/MPU9250.c:87-101 | one 14-byte burst read from 0x3B, decoded |
| Mpu9250.Imu.ReadData | DRIVER/MPU9250.c:109-124 | one burst read, scaled with the current offsets |
| Mpu9250.Imu.AddSample | DRIVER/MPU9250.c:145-151 | one loop iteration reads the next block and advances each accumulator by that sample |
| Mpu9250.Imu.Accumulate | DRIVER/MPU9250.c:147-152 | the six `+=` advance each int32_t accumulator from the sum of the first n samples to that of the first n + 1, without overflow |
| Mpu9250.Imu.SumSamples | DRIVER/MPU9250.c:134-155 | the loop reads 100 consecutive blocks and leaves each accumulator at its channel's sum |
| Mpu9250.Imu.SetBias | DRIVER/MPU9250.c:158-171 | dividing the six channel sums by 100 in C and scaling stores and returns the bias record of those samples |
| Mpu9250.Imu.Calibrate | DRIVER/MPU9250.c:131-175 | reads 100 blocks, and returns and stores the offsets: the truncated means, scaled, less 1 g on Z |
| Pwm.Clamp | DRIVER/PWM.c:175-182 | the written duty always lies in [50, 950], and equals the requested duty exactly when that lies in [50, 950] |
| Pwm.ClampIsMaxMin | DRIVER/PWM.c:175-182 | the written duty is max(50, min(950, duty)) and always lies in [50, 950] |
| Pwm.ClampKeepsInRange | DRIVER/PWM.c:175-182 | a duty is written unchanged if and only if it lies in [50, 950] |
| Pwm.ClampIdempotent | DRIVER/PWM.c:175-182 | clamping twice is clamping once |
| Pwm.ClampMonotone | DRIVER/PWM.c:175-182 | a larger requested duty never gives a smaller written duty |
| Pwm.MotorTarget | DRIVER/PWM.c:185-201 | motors 0-3 have a compare register on channel 1-4; any other motor number has none |
| Pwm.MotorTargetInjective | DRIVER/PWM.c:185-201 | no two motors share a compare register |
| Pwm.MotorTargetsUsed | DRIVER/PWM.c:185-201 | a register is driven by some motor if and only if it is TIM4 CH1/CH2 or TIM2 CH1/CH3 |
| Pwm.Prescaler | DRIVER/PWM.c:98 | for a core clock of at least 10 MHz the prescaler brackets clock / 2 / 5 MHz - 1; below that the subtraction wraps to 2^32 - 1 |
| Pwm.PrescalerGivesFrequency | DRIVER/PWM.c:98-101 | when clock / 2 is a multiple of 5 MHz, prescaler and period give exactly 5 kHz |
| Pwm.PrescalerAt100MHz | DRIVER/PWM.c:98-101 | at the F411's 100 MHz the prescaler is 9 and the output is 5 kHz |
| Pwm.Timer.TimeBaseInit | DRIVER/PWM.c:101-105 | sets period and prescaler and nothing else |
| Pwm.Timer.SetCompare | DRIVER/PWM.c:188 | sets one compare register and nothing else |
| Pwm.Timer.Cmd | DRIVER/PWM.c:212 | enables or disables the counter and nothing else |
| Pwm.Motors.ConfigureTimer | DRIVER/PWM.c:89-123 | period 999, the computed prescaler, and the timer's two used channels zeroed |
| Pwm.Motors.Init | DRIVER/PWM.c:22-33 | both timers get period 999 and the computed prescaler, every motor's duty is 0, and both timers run |
| Pwm.Motors.SetDuty | DRIVER/PWM.c:172-202 | exactly the motor's compare register receives the clamped duty; every other register and all time-base settings are unchanged, and an unknown motor changes nothing |
| Pwm.Motors.SetMotor | DRIVER/PWM.c:172-202 | the motor's duty becomes the clamped value and the other three motors keep theirs |
| Pwm.Motors.Start | DRIVER/PWM.c:209-214 | both timers run, with their registers unchanged |
| Pwm.Motors.Stop | DRIVER/PWM.c:221-226 | both timers stop, with their registers unchanged |

## Left out

- Floating point is modelled as exact real arithmetic: `float` rounding in the BMP280 and MPU9250 conversions is not captured.
- `BMP280_CalculateAltitude` (`DRIVER/BMP280.c:171-179`) is left out, because it calls `pow` on floats.
- Bmp280.Pressure: states only the divide-by-zero guard and the worked datasheet example, not a closed form. The int64_t intermediates are unbounded integers, and their overflow is not modelled.
- Bmp280.Sensor.ReadWord: C does not sequence the two `I2C2_ReadByte` calls in one expression. The model reads the MSB register first.
- Hardware busy-waits have no timeout in the source. Each is folded into the bus or transmit event it waits for, and it is assumed to end. The spin delays (`DRIVER/BMP280.c:40`, `DRIVER/MPU9250.c:154`) are left out.
- Interrupts and `volatile`: the receive interrupt is modelled as a step that runs between calls. Its preemption of `UART2_ReceivePacket` in the middle of a drain is not modelled.
- `UART2_ReceiveByte`, `UART2_ReceiveData` and `UART2_IsDataAvailable` (`DRIVER/UART2.c:181-260`) are left out. They poll the RXNE flag directly, which is hardware input the model has no state for.
- Bmp280.Sensor.CalculateTemperature: uses the signed formula of the datasheet (`Temperature`), not the `uint32_t` evaluation of `DRIVER/BMP280.c:127-128`, which `TemperatureAsWritten` models apart. On the datasheet example the code stores t_fine 390566 and reports 76.28 degC; the model stores 128422 and 25.08 degC.
- Bmp280.Sensor.ReadData: its temperature step is the corrected one above, so the pressure it returns uses the signed t_fine. On the datasheet example the code computes 27802141 / 256 Pa from its t_fine 390566; the model computes 25767233 / 256 Pa.
- Uart2.Port.SendPacket: requires the length byte to be at most 64. For a larger length the source reads past the end of the struct, whose bytes the model does not have.
- The following configuration code is left out: GPIO, RCC clocks, NVIC, the USART/I2C peripheral setup, and the PWM output-compare mode, polarity and preload bits (`DRIVER/PWM.c:40-82`, `DRIVER/I2C.c:23-144`, `DRIVER/UART2.c:30-109`). They write hardware configuration with no observable behaviour in this model.
- `SystemCoreClock` is a parameter of `Pwm.Prescaler`. The standard peripheral library's `TIM_TimeBaseInitTypeDef` is not part of this model, so the width of its `TIM_Prescaler` field is not modelled. The prescaler stays a 32-bit value.
- The FreeRTOS configuration and the `TASK/` files are not part of this model.

## Findings

| source | as written | input that shows it | evidently intended | confidence | as-written member | corrected member |
|---|---|---|---|---|---|---|
| DRIVER/UART2.c:173 | sends the first `length + 4` bytes of `Packet_t`; the fixed 64-byte `data[]` puts `data[length]`, not `checksum`, in the last position | a packet of type 1, length 2, data 04 08 00...: the wire carries AA 01 02 04 08 00 instead of AA 01 02 04 08 0F | start, type, length, payload, then the checksum byte | not executed | Uart2.WireAsWrittenMissesChecksum | Uart2.Port.SendFramedPacket |
| DRIVER/UART2.c:231-235 | copies `length` payload bytes for any length byte, past the 64-byte `data[]` | the frame AA 01 41, 65 zero bytes, 40 raises the flag, and the copy loop then writes payload byte 65 into the checksum field at offset 67; any frame with length 66 or more also overwrites the first byte after the struct | reject a length above 64 before copying | not executed | Uart2.OversizeFrameOverflows | Uart2.DrainStaysInStruct |
| DRIVER/BMP280.c:127-128 | `adc_temp` is uint32_t, so both temperature terms are computed in unsigned arithmetic and a negative intermediate or a negative dig_T3 wraps | the datasheet example dig_T1 = 27504, dig_T2 = 26435, dig_T3 = -1000, adc_T = 519888 gives t_fine 390566 (76.28 degC) instead of 128422 (25.08 degC) | the signed int32 formula of the datasheet | not executed | Bmp280.NegativeT3ChangesTFine | Bmp280.Temperature |
