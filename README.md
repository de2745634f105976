# Shakey table: a Dafny model of its control core and sensor drivers

The shakey table keeps a cup holder upright on a moving table. An MPU-6050
inertial sensor on the holder gives accelerations and angular rates. From
them an orientation estimator computes the holder's angle from upright. The
angle is the process variable of an outer (position) PID controller.

- In the dual-loop wiring (`src/main.cpp`), each outer output becomes the
  setpoint of an inner (torque) PID controller. The inner controller's
  process variable is the motor current measured by an INA260. Each inner
  output is sent to the motor driver as a negated duty-cycle change.
- In the single-loop wiring (`src/main_no_INA.cpp`), the outer output goes
  to the motor driver directly, not negated.

The project models the following:

- **PID controller** (`Pid`): the class with its integral and previous
  error. The pure `Step`, `Settle` and `Outputs` functions specify it, and lemmas cover
  anti-windup (there is none), clamping, linearity in the setpoint and the
  unit test's expected outputs.
- **Orientation estimator** (`Orientation`):
  - the centripetal correction of Y and the tangential correction of X;
  - the arc cosine and its sign rule;
  - the sample-period formula.

  `sqrt` and `acos` are a pair of functions. The predicate `Sound` states
  the facts about them that the proofs use.
- **Wiring** (`DualLoop`, `SingleLoop`): the sensor callbacks and the
  controller sinks as classes. Each step states the new controller state,
  the new `gzPrev`, and what reaches the next stage.
- **Actuators** (`MotorDriver`, `Cytron`): clamping, the direction rule and
  the pin writes.
- **Register drivers** (`Smbus`, `Mpu6050`, `Ina260`, `Bytes`):
  - The SMBus transport is a class over a store of register bytes. It has a
    set of registers that do not answer and a ghost log of bus transfers.
  - The MPU-6050 and INA260 drivers are classes over that transport. They
    cover full-scale and DLPF fields, signed 16-bit register pairs, the
    14-byte burst read, the INA260 configuration fields, two's-complement
    decoding and both initialisation sequences.

`double` and `float` are modelled as `real`.

## Model

| member | source | states |
|---|---|---|
| Bytes.ToInt16 | lib/ina260/ina260.cpp:94-97 | the signed value of a big-endian byte pair is congruent to `hi*256+lo` modulo 2^16 and is negative exactly when the high byte's top bit is set |
| Bytes.SplitThenAssemble | lib/mpu6050/mpu6050.cpp:388-414 | every `int16_t` split into `v >> 8` and `v & 0xFF` and reassembled gives `v` back, negative values included |
| Bytes.AssembleThenSplit | lib/mpu6050/mpu6050.cpp:403-414 | assembling two register bytes and splitting the value again gives the same two bytes |
| Smbus.SwapBytes | lib/i2c_interface/smbus_i2c_if.cpp:140-145 | the swapped word's low byte is the original's high byte and vice versa |
| Smbus.SwapBytesInvolution | lib/i2c_interface/smbus_i2c_if.cpp:140-145 | swapping twice is the identity |
| Smbus.WordBytes | lib/i2c_interface/smbus_i2c_if.cpp:113-129 | a word and its two bus bytes determine each other |
| Smbus.SwapExchangesBytes | lib/i2c_interface/smbus_i2c_if.cpp:140-145 | swapping a word read from the bus is the same as exchanging its two bus bytes |
| Smbus.Fetch | lib/i2c_interface/smbus_i2c_if.cpp:221-243 | a block read returns exactly `n` bytes, byte `i` from register cell `base + i` |
| Smbus.Poke | lib/i2c_interface/smbus_i2c_if.cpp:254-276 | a block write puts byte `i` in cell `base + i` and leaves every cell outside the block unchanged |
| Smbus.FetchAfterPoke | lib/i2c_interface/smbus_i2c_if.cpp:221-276 | a block written and read back from the same register gives the block |
| Smbus.WriteWord | lib/i2c_interface/smbus_i2c_if.cpp:181-195 | a little-endian word write puts the low byte first and the high byte second, and changes no other cell |
| Smbus.BigEndianRoundTrip | lib/i2c_interface/smbus_i2c_if.cpp:140-210 | a big-endian word write then a big-endian word read of the same register gives back the word written |
| Smbus.SetBits | lib/i2c_interface/i2c_interface.h:177 | the bits of the mask become `bitVal` and every other bit is kept |
| Smbus.SmbusI2c.constructor | lib/i2c_interface/smbus_i2c_if.cpp:53-75 | an opened bus with the given register store, no transfers yet |
| Smbus.SmbusI2c.ReadRegister | lib/i2c_interface/smbus_i2c_if.cpp:85-102 | on failure the value is 0 and the status Error; on success the value is the register's byte and the status Success |
| Smbus.SmbusI2c.WriteRegister | lib/i2c_interface/smbus_i2c_if.cpp:155-170 | on success exactly the register's cell changes to the value; on failure nothing changes and the status is Error |
| Smbus.SmbusI2c.ReadRegisterWordLittleEndian | lib/i2c_interface/smbus_i2c_if.cpp:113-129 | the first bus byte is the word's low byte; 0 and Error on failure |
| Smbus.SmbusI2c.ReadRegisterWordBigEndian | lib/i2c_interface/smbus_i2c_if.cpp:140-145 | the little-endian word swapped, so the first bus byte is the high byte; same status |
| Smbus.SmbusI2c.WriteRegisterWordLittleEndian | lib/i2c_interface/smbus_i2c_if.cpp:181-195 | on success the register's cells hold the word low byte first; nothing changes on failure |
| Smbus.SmbusI2c.WriteRegisterWordBigEndian | lib/i2c_interface/smbus_i2c_if.cpp:206-210 | the swapped word is written little-endian, so the register's first byte is the high byte |
| Smbus.SmbusI2c.ReadRegisterBlock | lib/i2c_interface/smbus_i2c_if.cpp:221-243 | a length over 32 fails without a bus transfer or a buffer change; otherwise on success the first `length` bytes of the buffer are the registers' bytes and the rest is untouched, and on failure the buffer is unchanged |
| Smbus.SmbusI2c.WriteRegisterBlock | lib/i2c_interface/smbus_i2c_if.cpp:254-276 | a length over 32 fails without a bus transfer; otherwise on success the registers from `reg` on hold the first `length` bytes, and on failure nothing changes |
| Smbus.SmbusI2c.ReadRegisterBit | lib/i2c_interface/i2c_interface.h:167 | true exactly when the read succeeded and a bit of the mask is set |
| Smbus.SmbusI2c.WriteRegisterBit | lib/i2c_interface/i2c_interface.h:177 | read, set or clear the mask's bits, write back; a failed read writes nothing |
| Mpu6050.GyroScaleOf | lib/mpu6050/mpu6050.cpp:210-214 | the enumerator whose code is the two-bit value |
| Mpu6050.AccelScaleOf | lib/mpu6050/mpu6050.cpp:294-298 | the enumerator whose code is the two-bit value |
| Mpu6050.DlpfOf | lib/mpu6050/mpu6050.cpp:1007-1012 | the enumerator whose code is the three-bit value |
| Mpu6050.CodesRoundTrip | lib/mpu6050/mpu6050.cpp:1007-1012 | the enumerator codes fit their fields and decode back to the same enumerator |
| Mpu6050.ScaleRegister | lib/mpu6050/mpu6050.cpp:198-201 | the written byte has the code in bits 3-4 and every other bit zero |
| Mpu6050.ScaleField | lib/mpu6050/mpu6050.cpp:210-214 | the field read back is a two-bit code |
| Mpu6050.FullScaleRoundTrip | lib/mpu6050/mpu6050.cpp:198-214 | reading back a written full-scale register gives the code written |
| Mpu6050.WithDlpf | lib/mpu6050/mpu6050.cpp:986-999 | bits 0-2 become the DLPF code and bits 3-7 keep their value |
| Mpu6050.SampleRateHz | lib/mpu6050/mpu6050.cpp:1021-1038 | the rate is positive, and the rate times (1 + divider) is 8000 with the DLPF off (code 0 or 7) and 1000 otherwise |
| Mpu6050.Assemble | lib/mpu6050/mpu6050.cpp:144-163 | half as many values as bytes |
| Mpu6050.AssembleAt | lib/mpu6050/mpu6050.cpp:149-161 | value `i` is the signed word of bytes 2i (high) and 2i+1 (low) |
| Mpu6050.Split | lib/mpu6050/mpu6050.cpp:144-163 | two bytes per value |
| Mpu6050.SplitAssemble | lib/mpu6050/mpu6050.cpp:144-163 | the burst's bytes can be recovered from the assembled values |
| Mpu6050.AssembleSplit | lib/mpu6050/mpu6050.cpp:144-163 | the values can be recovered from the bytes |
| Mpu6050.StepsCompleted | lib/mpu6050/mpu6050.cpp:85-108 | the number of initialisation steps before the first register that does not answer: all earlier ones answer, that one does not |
| Mpu6050.StopsAt | lib/mpu6050/mpu6050.cpp:85-108 | if the steps before `j` answer and step `j` does not, exactly `j` steps complete |
| Mpu6050.ConfigureDone | lib/mpu6050/mpu6050.cpp:85-108 | after `j` steps, the registers of those steps hold their configured values |
| Mpu6050.ConfigurePending | lib/mpu6050/mpu6050.cpp:85-108 | after `j` steps, the registers of the later steps are unchanged |
| Mpu6050.ConfigureElsewhere | lib/mpu6050/mpu6050.cpp:85-108 | the initialisation steps write no register other than the seven |
| Mpu6050.OffsetRoundTrip | lib/mpu6050/mpu6050.cpp:388-414 | an offset written as high and low byte reads back as the same `int16_t` |
| Mpu6050.Mpu6050.constructor | lib/mpu6050/mpu6050.cpp:45-53 | a driver on an 8-bit-register transport with a seven-value raw data buffer |
| Mpu6050.Mpu6050.ReadPair | lib/mpu6050/mpu6050.cpp:223-234 | high byte first; if it fails, 0 and the low byte is not read; otherwise the signed word, with a low byte of 0 and Error if only the low read fails |
| Mpu6050.Mpu6050.WritePair | lib/mpu6050/mpu6050.cpp:388-396 | high byte `v >> 8` first; the low byte `v & 0xFF` is written only if that succeeded, and the first failure is returned |
| Mpu6050.Mpu6050.GetGyroRaw | lib/mpu6050/mpu6050.cpp:223-274 | the gyroscope axis's signed raw value, or 0 on a failed high-byte read |
| Mpu6050.Mpu6050.GetAccelRaw | lib/mpu6050/mpu6050.cpp:308-361 | the accelerometer axis's signed raw value, or 0 on a failed high-byte read |
| Mpu6050.Mpu6050.GetGyroOffset | lib/mpu6050/mpu6050.cpp:403-482 | the gyroscope offset pair as a signed value, or 0 on a failed high-byte read |
| Mpu6050.Mpu6050.GetAccelOffset | lib/mpu6050/mpu6050.cpp:598-680 | the accelerometer offset pair as a signed value, or 0 on a failed high-byte read |
| Mpu6050.Mpu6050.SetGyroOffset | lib/mpu6050/mpu6050.cpp:388-464 | `offset >> 8` is written to the high register and, only if that succeeded, `offset & 0xFF` to the low one; each register changes only when its write succeeds and no other register changes; on success the pair reads back as the offset |
| Mpu6050.Mpu6050.SetAccelOffset | lib/mpu6050/mpu6050.cpp:583-661 | `offset >> 8` is written to the high register and, only if that succeeded, `offset & 0xFF` to the low one; each register changes only when its write succeeds and no other register changes; on success the pair reads back as the offset |
| Mpu6050.Mpu6050.ReadAllRawData | lib/mpu6050/mpu6050.cpp:144-163 | one 14-byte block read; on success `rawData[i]` is the signed word of bytes 2i and 2i+1, and on failure `rawData` is unchanged |
| Mpu6050.Mpu6050.WakeUpSensor | lib/mpu6050/mpu6050.cpp:172-175 | PWR_MGMT_1 is read, then written back with the SLEEP bit cleared and the other bits kept; nothing is written after a failed read |
| Mpu6050.Mpu6050.SetGyroFullScale | lib/mpu6050/mpu6050.cpp:198-201 | GYRO_CONFIG becomes the code in bits 3-4 |
| Mpu6050.Mpu6050.GetGyroFullScale | lib/mpu6050/mpu6050.cpp:210-214 | bits 3-4 of GYRO_CONFIG, or the scale of code 0 when the read fails |
| Mpu6050.Mpu6050.SetAccelFullScale | lib/mpu6050/mpu6050.cpp:282-285 | ACCEL_CONFIG becomes the code in bits 3-4 |
| Mpu6050.Mpu6050.GetAccelFullScale | lib/mpu6050/mpu6050.cpp:294-298 | bits 3-4 of ACCEL_CONFIG, or the scale of code 0 when the read fails |
| Mpu6050.Mpu6050.SetSensorDlpfConfig | lib/mpu6050/mpu6050.cpp:986-999 | read CONFIG, replace bits 0-2 with the code, write it back; nothing is written if the read fails |
| Mpu6050.Mpu6050.GetSensorDlpfConfig | lib/mpu6050/mpu6050.cpp:1007-1012 | bits 0-2 of CONFIG, or code 0 when the read fails |
| Mpu6050.Mpu6050.SetGyroSampleRateDivider | lib/mpu6050/mpu6050.cpp:959-962 | SMPRT_DIV becomes the divider |
| Mpu6050.Mpu6050.GetGyroSampleRateDivider | lib/mpu6050/mpu6050.cpp:973-975 | SMPRT_DIV, or 0 when the read fails |
| Mpu6050.Mpu6050.GetSensorCurrentSampleRateHz | lib/mpu6050/mpu6050.cpp:1021-1038 | the divider is read first and the DLPF code only if that succeeded; the result is the sample rate they select, or 0 after a failed read |
| Mpu6050.Mpu6050.SetSensorInterruptEnable | lib/mpu6050/mpu6050.cpp:1075-1078 | INT_ENABLE becomes the value |
| Mpu6050.Mpu6050.SetSensorInterruptPinConfig | lib/mpu6050/mpu6050.cpp:1164-1167 | INT_PIN_CFG becomes the value |
| Mpu6050.Mpu6050.InitializeSensor | lib/mpu6050/mpu6050.cpp:78-124 | both scale ranges are recorded; the seven steps run in order and stop at the first failure; the registers are those of exactly the completed steps, configured |
| Mpu6050.Mpu6050.InitStep | lib/mpu6050/mpu6050.cpp:85-108 | one step either configures its register or fails leaving every register unchanged |
| Ina260.AlertCodesAreBits | lib/ina260/ina260.h:30-37 | each alert code is one bit among bits 2-7, and two codes differ exactly when their bits are disjoint |
| Ina260.ConvTimeOrder | lib/ina260/ina260.h:50-59 | a larger conversion-time code is a longer conversion, from 140 to 8224 microseconds |
| Ina260.PokeRegister | lib/ina260/ina260.cpp:115-121 | a two-byte block write to a 16-bit register stores byte 0 as its most significant byte |
| Ina260.FieldsDetermineRegister | lib/ina260/ina260.cpp:123-170 | the averaging, voltage time, current time and mode fields plus the control bits make up the whole configuration register |
| Ina260.WithCurrentTime | lib/ina260/ina260.cpp:123-132 | the current-time field (bits 3-5 of byte 1) becomes the code and every other field is unchanged |
| Ina260.WithOperatingMode | lib/ina260/ina260.cpp:150-159 | the mode field (bits 0-2 of byte 1) becomes the code and every other field is unchanged |
| Ina260.WithAveraging | lib/ina260/ina260.cpp:161-170 | the averaging field (bits 1-3 of byte 0) becomes the code and every other field is unchanged |
| Ina260.WithVoltageTime | lib/ina260/ina260.cpp:134-148 | corrected update: the voltage-time field (bit 0 of byte 0, bits 6-7 of byte 1) becomes the code and every other field is unchanged |
| Ina260.VoltageTimeAsWrittenCorrupts | lib/ina260/ina260.cpp:134-148 | as written, the voltage-time field ends as the code mod 4, the low two bits are ORed into the averaging field and the high bit into reserved bit 12 |
| Ina260.VoltageTimeAsWrittenCounterexample | lib/ina260/ina260.cpp:134-148 | on configuration 0x6127, TU1100 as written selects TU140 and sets bit 12, TU204 turns AV1 into AV16, and the corrected update changes nothing |
| Ina260.WithVoltageTimeAsWritten | lib/ina260/ina260.cpp:134-148 | the update as written: bits 6-7 of byte 1 and bit 0 of byte 0 cleared, the code mod 4 into bits 6-7 of byte 1 and the code shifted left by 2 ORed into byte 0; its effect on every field is `VoltageTimeAsWrittenCorrupts` |
| Ina260.ConfiguredAsWritten | lib/ina260/ina260.cpp:15-34 | the configuration register after the four configuration steps of `InitializeSensor` as written: current time, voltage time (as written), averaging, mode |
| Ina260.ConfiguredAsWrittenFields | lib/ina260/ina260.cpp:15-34 | as written, the four steps leave the current time, averaging and mode asked for, but only the code mod 4 as voltage time, and OR the code's high bit into reserved bit 12 |
| Ina260.Configured | lib/ina260/ina260.cpp:15-34 | corrected half: the register the same four steps leave with the corrected voltage-time update |
| Ina260.ConfiguredFields | lib/ina260/ina260.cpp:15-34 | corrected half: after the four steps every requested code is in its field and the reset and reserved bits are kept |
| Ina260.AsWrittenAgreesBelowFour | lib/ina260/ina260.cpp:15-34 | the written and the corrected sequences give the same register exactly when the voltage time is TU140 to TU588 (both directions); from TU1100 up the written one selects the time 4 codes lower and sets bit 12 |
| Ina260.ReadingBounds | lib/ina260/ina260.cpp:87-99 | a reading lies between -32768 and 32767 LSB weights and is negative exactly when its count is |
| Ina260.ReadingRanges | lib/ina260/ina260.h:24-28 | current and voltage lie in [-40.96, 40.95875], power in [-327.68, 327.67] |
| Ina260.Ina260.constructor | lib/ina260/ina260.cpp:8-13 | a driver on a transport of 16-bit registers |
| Ina260.Ina260.ReadMeasurement | lib/ina260/ina260.cpp:87-99 | the measurement register is block-read, then MASK/ENABLE; the bytes are the register's bytes when it answers |
| Ina260.Ina260.ReadVoltage | lib/ina260/ina260.cpp:73-85 | 0.00125 times the two's-complement value of the voltage register |
| Ina260.Ina260.ReadCurrent | lib/ina260/ina260.cpp:87-99 | 0.00125 times the two's-complement value of the current register |
| Ina260.Ina260.ReadPower | lib/ina260/ina260.cpp:101-113 | 0.01 times the two's-complement value of the power register |
| Ina260.Ina260.ReadSample | lib/ina260/ina260.cpp:63-67 | the transfers are current register, MASK/ENABLE, voltage register, MASK/ENABLE, in that order, and each value is decoded as its reader states |
| Ina260.Ina260.AlertSet | lib/ina260/ina260.cpp:115-121 | MASK/ENABLE is written as high byte 0x00 and low byte the alert's bit |
| Ina260.Ina260.ReadConf | lib/ina260/ina260.cpp:125-126 | a fresh two-byte buffer holding the configuration register when the read succeeds |
| Ina260.Ina260.WriteConf | lib/ina260/ina260.cpp:130-131 | the buffer is block-written to the configuration register |
| Ina260.Ina260.CurrentConvTime | lib/ina260/ina260.cpp:123-132 | the configuration register is read, updated as `WithCurrentTime` states, and written back |
| Ina260.Ina260.VoltageConvTime | lib/ina260/ina260.cpp:134-148 | the configuration register is read, updated as `WithVoltageTimeAsWritten` states (the code shifted left by 2 into byte 0, as line 143 does), and written back |
| Ina260.Ina260.OperatingMode | lib/ina260/ina260.cpp:150-159 | the configuration register is read, updated as `WithOperatingMode` states, and written back |
| Ina260.Ina260.AveragingMode | lib/ina260/ina260.cpp:161-170 | the configuration register is read, updated as `WithAveraging` states, and written back |
| Ina260.Ina260.InitializeSensor | lib/ina260/ina260.cpp:15-34 | alert, current time, voltage time, averaging, then mode, stopping at the first failure; the status and the final registers follow from which register fails to answer, and on success the configuration register is `ConfiguredAsWritten` |
| Pid.Clamp | lib/pid/pid.cpp:71-74 | the output lies in [min, max] when min <= max, an output already inside is unchanged, and the result is the output, min or max |
| Pid.StepMeaning | lib/pid/pid.cpp:50-81 | the previous error becomes the unclamped error; the integral grows by error times dt whatever the clamp does; the output is within the limits, and equals the raw sum when that is |
| Pid.SetpointShift | lib/pid/pid.cpp:57-68 | moving the setpoint by d moves the raw output by d times kp + ki*dt + kd/dt |
| Pid.UnboundedLimits | src/main_no_INA.cpp:196 | with the lowest and highest `double` as limits, the clamp leaves every finite output unchanged |
| Pid.Outputs | lib/pid/pid.cpp:50-81 | a run delivers exactly one output per process-variable value |
| Pid.RawOutput | lib/pid/pid.cpp:54-68 | Kp * error + Ki * (integral + error * dt) + Kd * (error - previous error) / dt, before the clamp; `SetpointShift` and `StepMeaning` state its behaviour |
| Pid.Step | lib/pid/pid.cpp:50-81 | one `calculate`: the new memory and the delivered output; `StepMeaning` states both |
| Pid.Output | lib/pid/pid.cpp:71-77 | a delivered output lies within the limits whenever min <= max |
| Pid.RunIntegral | lib/pid/pid.cpp:59-60 | after a run the integral is the starting integral plus every error times dt (`Accumulated`), whatever the clamp did |
| Pid.ConstantAccumulated | lib/pid/pid.cpp:57-60 | n calls with the same error accumulate n times error times dt |
| Pid.ConstantErrorIntegral | lib/pid/pid.cpp:59-60 | after n calls with the same error the integral has grown by n*error*dt: no anti-windup |
| Pid.RunBounded | lib/pid/pid.cpp:71-77 | every output of a run lies in the limits when min <= max |
| Pid.RunRemembersLast | lib/pid/pid.cpp:54-79 | after a run the previous error is the error of the last call |
| Pid.TestScenario | test/pid/pidUnitTest.cpp:62-76 | the unit test's first output is 1.025, and a second call with 45 delivers 0.55 |
| Pid.Pid.constructor | lib/pid/pid.cpp:36-48 | configuration stored as given, integral and previous error 0 |
| Pid.Pid.SetSetpoint | lib/pid/pid.h:81 | the setpoint becomes the value exactly and nothing else changes, so repeating the call changes nothing |
| Pid.Pid.Calculate | lib/pid/pid.cpp:50-81 | the new memory and the output are one `Step` on the current setpoint; exactly one output is delivered; the setpoint, limits and gains are not touched |
| Orientation.AyGrav | src/main.cpp:165-167 | the Y acceleration in m/s^2 plus the centripetal term gz^2 * radius, gz in rad/s; `CentripetalRaises` bounds it |
| Orientation.AxGrav | src/main.cpp:172-173 | the X acceleration in m/s^2 plus the tangential term (gz - gzPrev) / period * radius; `TangentialTerm` gives its two limit cases |
| Orientation.GravMag | src/main.cpp:177 | with a sound square root, a non-negative magnitude whose square is the sum of the squares of the two corrected components |
| Orientation.Angle | src/main.cpp:177-184 | the arc cosine of the corrected Y over the magnitude, negated when the corrected X is positive; `AngleRange` and `UprightIsZero` state its range, sign and zero |
| Orientation.CentripetalRaises | src/main.cpp:165-167 | with a non-negative radius the corrected Y acceleration is at least 9.80665*ay |
| Orientation.TangentialTerm | src/main.cpp:172-173 | with gz unchanged the corrected X acceleration is 9.80665*ax; with gzPrev 0 the whole rate over the period counts |
| Orientation.CosineInDomain | src/main.cpp:177-180 | the arc cosine's argument lies in [-1, 1] |
| Orientation.AngleRange | src/main.cpp:177-187 | the angle lies in [-pi, pi], is <= 0 when the corrected X acceleration is positive and >= 0 otherwise |
| Orientation.RootOfSquare | src/main.cpp:177 | the square root of a positive number's square is that number |
| Orientation.UprightIsZero | src/main.cpp:165-184 | an upright sample at rest with no previous rate gives angle 0 |
| Orientation.SamplePeriod | src/main_no_INA.cpp:161-165 | (1 + divider) / 8000 s for BW_260Hz and the reserved code, (1 + divider) / 1000 s otherwise; `PeriodIsReciprocalRate` ties it to the sensor's rate |
| Orientation.PeriodIsReciprocalRate | src/main_no_INA.cpp:161-165 | the wiring's sample period is the reciprocal of the sensor's sample rate, and BW_94Hz with divider 9 gives 0.01 s |
| MotorDriver.ClampDuty | lib/MotorDriver/MotorDriver.cpp:61-70 | above 1 gives 1, below -1 gives -1, and a duty cycle in [-1, 1] is unchanged |
| MotorDriver.DirectionLevel | lib/MotorDriver/MotorDriver.cpp:73-84 | the direction line level, 0 for a non-negative duty cycle and 1 for a negative one; `ClampKeepsDirection` shows the clamp never changes it |
| MotorDriver.ClampKeepsDirection | lib/MotorDriver/MotorDriver.cpp:61-84 | clamping never changes the direction and is idempotent |
| MotorDriver.TestVector | test/motordriver/Motordriver_DutyCycle_ut.cpp:26-31 | 1.5 is driven as 1 forward, -1.2 as -1 backward, 0 forward |
| MotorDriver.MotorDriver.constructor | lib/MotorDriver/MotorDriver.cpp:35-57 | both lines start low |
| MotorDriver.MotorDriver.SetDutyCycle | lib/MotorDriver/MotorDriver.cpp:59-95 | the direction line is 0 for a non-negative clamped duty cycle and 1 for a negative one |
| MotorDriver.MotorDriver.SetDutyCycleDelta | src/main.cpp:42 | each requested change is recorded once, in order |
| Cytron.ClampSpeed | CytronMotorDriver.cpp:27-32 | above 255 gives 255, below -255 gives -255, and a speed in range is unchanged |
| Cytron.SpeedWrites | CytronMotorDriver.cpp:34-43 | the three pin writes of one `setSpeed` in order; `SpeedWritesMeaning` states their levels, range and signed speed |
| Cytron.SpeedWritesMeaning | CytronMotorDriver.cpp:34-43 | the direction pins end at opposite levels, the PWM value lies in [0, 255], pin 1 goes high exactly for a non-negative speed, and direction with magnitude gives back the clamped speed |
| Cytron.CytronMd.constructor | CytronMotorDriver.cpp:4-21 | both direction pins are low |
| Cytron.CytronMd.SetSpeed | CytronMotorDriver.cpp:23-45 | the pin writes are those of the clamped speed, and the pins are HIGH/LOW forward or LOW/HIGH reverse |
| DualLoop.PidMotorDriver.constructor | src/main.cpp:35 | the sink holds the motor driver |
| DualLoop.PidMotorDriver.HasOutput | src/main.cpp:41-44 | the motor receives the change -output |
| DualLoop.PidPosition.constructor | src/main.cpp:71 | the sink holds the inner controller |
| DualLoop.PidPosition.HasOutput | src/main.cpp:77-80 | the inner setpoint becomes the outer output exactly |
| DualLoop.Ina260Feedback.constructor | src/main.cpp:106 | the callback holds the inner controller |
| DualLoop.Ina260Feedback.HasSample | src/main.cpp:112-116 | one inner step on the measured current, its output delivered once and sent negated to the motor |
| DualLoop.Mpu6050Feedback.constructor | src/main.cpp:146-147 | gzPrev starts at 0 |
| DualLoop.Mpu6050Feedback.HasSample | src/main.cpp:154-190 | gzPrev becomes the sample's rate in rad/s; one outer step on the estimated angle; its output becomes the inner setpoint |
| DualLoop.InaSamplePeriod | src/main.cpp:245-271 | the inner controller's period for each current conversion-time code; `InaSamplePeriodIsConversionTime` ties it to the code's microseconds |
| DualLoop.InaSamplePeriodIsConversionTime | src/main.cpp:245-271 | the inner controller's period is the configured current conversion time in seconds, never 0 |
| SingleLoop.PidPosition.constructor | src/main_no_INA.cpp:38 | the sink holds the motor driver |
| SingleLoop.PidPosition.HasOutput | src/main_no_INA.cpp:44-47 | the motor receives the change +output, not negated |
| SingleLoop.Mpu6050Feedback.constructor | src/main_no_INA.cpp:77-78 | gzPrev starts at 0 |
| SingleLoop.Mpu6050Feedback.HasSample | src/main_no_INA.cpp:84-120 | the same estimator as the dual loop; one step on the angle; its output goes to the motor once |
| SingleLoop.OutputReachesMotorUnclamped | src/main_no_INA.cpp:193-196 | with unbounded limits the motor's change is the raw sum of the three terms on the angle |

## Left out

- Acquisition threads, GPIO edge waits and the `begin`/`end`/`dataAquisition` loops of both sensors are not modelled. The wiring is modelled as sequential calls of the callbacks in any order. The unsynchronised setpoint shared between the two threads is not modelled.
- Kernel and foreign calls are not modelled: `open`, `ioctl` and `exit` in `Init_I2C`, the `i2c_smbus_*` calls, `gpiod_*` and wiringPi. The register store, the set of registers that do not answer and the transfer log stand in for them.
- A register either always answers or never answers. A transient fault, where one transfer fails and the next on the same register succeeds, is not modelled.
- Floating point is not modelled: `float` and `double` are `real`, so rounding is absent.
- `std::sqrt` and `std::acos` are parameters. The facts the proofs rely on are stated as `Orientation.Sound`. Where the magnitude of gravity is 0 the source divides by zero, and the model requires a positive magnitude.
- `MPU6050::Calibrate_Gyro_Registers` and `Calibrate_Accel_Registers` are not modelled, because they are disabled in `InitializeSensor`. The calibration arguments of `InitializeSensor` are dropped for the same reason.
- The MPU-6050 temperature, FIFO, reset and interrupt-status accessors are outside the modelled core.
- The MPU-6050 header is not part of this model. Register addresses and enumeration codes follow the MPU-6000/6050 register map.
- `setDutyCycleDelta` has no body or declaration in the repository. `MotorDriver.MotorDriver.SetDutyCycleDelta` only records each request.
- MotorDriver.MotorDriver.SetDutyCycle: the file under `/sys/class/pwm` that the source opens is not modelled. No PWM value is written, because the source writes none.
- MotorDriver.MotorDriver.constructor: the direction line is modelled as a field. The source uses a line local to the constructor.
- `main()` bodies are not modelled (device paths, pin numbers, log files, sleeps), except the two sample-period computations.
- Log-file output in the callbacks is not modelled.
- Ina260.Ina260.ReadVoltage: says nothing about the value when the register read fails, because the source then decodes an uninitialised buffer.
- Ina260.Ina260.ReadCurrent: says nothing about the value when the register read fails, for the same reason.
- Ina260.Ina260.ReadPower: says nothing about the value when the register read fails, for the same reason.
- Ina260.Ina260.ReadSample: says nothing about a value whose register read fails, for the same reason.
- Ina260.Ina260.ReadMeasurement: says nothing about the bytes when the register read fails, for the same reason.
- Ina260.Ina260.CurrentConvTime: ignores the read status, as the source does. Since a register that fails a read also fails the write, the write of an unread buffer is not modelled. The same holds for `VoltageConvTime`, `OperatingMode` and `AveragingMode`.
- The MPU-6050 enumerations are datatypes with a `Code()`. The INA260 enumerations are their codes with named constants, so the bit operations on them stay within bit-vectors.
- `setDutyCycle` sets only the direction line, because the code writes no PWM value.
- A controller's period only has to be non-zero, because the code divides by it and checks nothing else.
- The delta actuator call is only recorded, because the repository has no body for it.

## Findings

| source | as written | input that shows it | evidently intended | confidence | as-written member | corrected member |
|---|---|---|---|---|---|---|
| lib/ina260/ina260.cpp:134-148 | `VoltageConvTime` clears bit 0 of byte 0, then ORs the code shifted left by 2 into byte 0 (`Ina260.WithVoltageTimeAsWritten`). The high bit of the code is lost, the low bits land in the averaging field and the high bit in reserved bit 12. | configuration 0x6127 with TU1100 gives voltage time TU140 and sets bit 12; TU204 turns AV1 into AV16 | the code shifted right by 2 into bit 0 of byte 0, the only bit the mask clears | high (not executed) | Ina260.VoltageTimeAsWrittenCounterexample | Ina260.WithVoltageTime |

The driver class follows the code as written: `Ina260.Ina260.VoltageConvTime` and `Ina260.Ina260.InitializeSensor` are stated with `WithVoltageTimeAsWritten` and `ConfiguredAsWritten`. The corrected update, `WithVoltageTime`, and `Configured` state what the sequence was meant to leave. `Ina260.AsWrittenAgreesBelowFour` shows the two agree for TU140, the voltage time the dual-loop wiring configures.
