/** The MPU-6050 inertial sensor driver: register encoders and decoders
    (full-scale fields, the DLPF field, signed 16-bit high/low register
    pairs), the 14-byte burst read of all measurements, and the
    initialisation sequence.  The sensor sits on an SMBus transport of 8-bit
    registers with address auto-increment.

    Register addresses and enumeration codes are those of the MPU-6000/6050
    register map, revision 4.2, which the driver's header follows. */
module Mpu6050 {
  import opened Smbus
  import opened Bytes

  // Register addresses.
  const XA_OFFS_USR_H: RegAddr := 0x06
  const YA_OFFS_USR_H: RegAddr := 0x08
  const ZA_OFFS_USR_H: RegAddr := 0x0A
  const XG_OFFS_USR_H: RegAddr := 0x13
  const YG_OFFS_USR_H: RegAddr := 0x15
  const ZG_OFFS_USR_H: RegAddr := 0x17
  const SMPRT_DIV: RegAddr := 0x19
  const CONFIG: RegAddr := 0x1A
  const GYRO_CONFIG: RegAddr := 0x1B
  const ACCEL_CONFIG: RegAddr := 0x1C
  const INT_PIN_CFG: RegAddr := 0x37
  const INT_ENABLE: RegAddr := 0x38
  const ACCEL_XOUT_H: RegAddr := 0x3B
  const ACCEL_YOUT_H: RegAddr := 0x3D
  const ACCEL_ZOUT_H: RegAddr := 0x3F
  const GYRO_XOUT_H: RegAddr := 0x43
  const GYRO_YOUT_H: RegAddr := 0x45
  const GYRO_ZOUT_H: RegAddr := 0x47
  const PWR_MGMT_1: RegAddr := 0x6B

  /** The SLEEP bit of PWR_MGMT_1. */
  const BIT_SLEEP: bv8 := 0x40

  /** `sizeof(rawData)`: seven `int16_t` values, accelerometer X, Y, Z,
      temperature, gyroscope X, Y, Z. */
  const RawDataBytes: nat := 14

  datatype Axis = X | Y | Z

  /** The high byte register of each measurement and offset pair; the low
      byte register is always the next address. */
  function AccelRawHigh(a: Axis): RegAddr {
    match a
    case X => ACCEL_XOUT_H
    case Y => ACCEL_YOUT_H
    case Z => ACCEL_ZOUT_H
  }

  function GyroRawHigh(a: Axis): RegAddr {
    match a
    case X => GYRO_XOUT_H
    case Y => GYRO_YOUT_H
    case Z => GYRO_ZOUT_H
  }

  function GyroOffsetHigh(a: Axis): RegAddr {
    match a
    case X => XG_OFFS_USR_H
    case Y => YG_OFFS_USR_H
    case Z => ZG_OFFS_USR_H
  }

  function AccelOffsetHigh(a: Axis): RegAddr {
    match a
    case X => XA_OFFS_USR_H
    case Y => YA_OFFS_USR_H
    case Z => ZA_OFFS_USR_H
  }

  /** `Gyro_FS_t`: the FS_SEL codes 0..3. */
  datatype GyroScale = FS_250_DPS | FS_500_DPS | FS_1000_DPS | FS_2000_DPS {
    function Code(): bv8 {
      match this
      case FS_250_DPS => 0
      case FS_500_DPS => 1
      case FS_1000_DPS => 2
      case FS_2000_DPS => 3
    }
  }

  /** The cast `(Gyro_FS_t)code` of a two-bit code. */
  function GyroScaleOf(code: bv8): (s: GyroScale)
    requires code < 4
    ensures s.Code() == code
  {
    if code == 0 then FS_250_DPS
    else if code == 1 then FS_500_DPS
    else if code == 2 then FS_1000_DPS
    else FS_2000_DPS
  }

  /** `Accel_FS_t`: the AFS_SEL codes 0..3. */
  datatype AccelScale = FS_2G | FS_4G | FS_8G | FS_16G {
    function Code(): bv8 {
      match this
      case FS_2G => 0
      case FS_4G => 1
      case FS_8G => 2
      case FS_16G => 3
    }
  }

  function AccelScaleOf(code: bv8): (s: AccelScale)
    requires code < 4
    ensures s.Code() == code
  {
    if code == 0 then FS_2G
    else if code == 1 then FS_4G
    else if code == 2 then FS_8G
    else FS_16G
  }

  /** `DLPF_t`: the DLPF_CFG codes 0..7. */
  datatype Dlpf = BW_260Hz | BW_184Hz | BW_94Hz | BW_44Hz | BW_21Hz | BW_10Hz | BW_5Hz | RESERVED {
    function Code(): bv8 {
      match this
      case BW_260Hz => 0
      case BW_184Hz => 1
      case BW_94Hz => 2
      case BW_44Hz => 3
      case BW_21Hz => 4
      case BW_10Hz => 5
      case BW_5Hz => 6
      case RESERVED => 7
    }
  }

  function DlpfOf(code: bv8): (d: Dlpf)
    requires code < 8
    ensures d.Code() == code
  {
    if code == 0 then BW_260Hz
    else if code == 1 then BW_184Hz
    else if code == 2 then BW_94Hz
    else if code == 3 then BW_44Hz
    else if code == 4 then BW_21Hz
    else if code == 5 then BW_10Hz
    else if code == 6 then BW_5Hz
    else RESERVED
  }

  /** Every enumerator has its own code, and decoding the code gives the
      enumerator back. */
  lemma CodesRoundTrip(g: GyroScale, a: AccelScale, d: Dlpf)
    ensures g.Code() < 4 && GyroScaleOf(g.Code()) == g
    ensures a.Code() < 4 && AccelScaleOf(a.Code()) == a
    ensures d.Code() < 8 && DlpfOf(d.Code()) == d
  {
  }

  /** The byte a full-scale setter writes: the code in bits 3-4, every other
      bit zero. */
  function ScaleRegister(code: bv8): (r: bv8)
    requires code < 4
    ensures r & 0x18 == r
  {
    code << 3
  }

  /** The code a full-scale getter takes from its register: bits 3-4. */
  function ScaleField(reg: bv8): (code: bv8)
    ensures code < 4
  {
    (reg >> 3) & 0x03
  }

  /** Reading back a written full-scale register gives the code written. */
  lemma FullScaleRoundTrip(code: bv8)
    requires code < 4
    ensures ScaleField(ScaleRegister(code)) == code
  {
  }

  /** The CONFIG byte after the DLPF field is set to `code`: bits 0-2 are the
      code, bits 3-7 (EXT_SYNC_SET and the unused bits) are as they were. */
  function WithDlpf(reg: bv8, code: bv8): (r: bv8)
    requires code < 8
    ensures r & 0x07 == code
    ensures r & 0xF8 == reg & 0xF8
  {
    code | (reg & !0x07)
  }

  /** The gyroscope output rate: 8 kHz with the DLPF off (code 0 or 7),
      1 kHz otherwise. */
  function GyroOutputRateHz(dlpfCode: bv8): real {
    if dlpfCode == 0 || dlpfCode == 7 then 8000.0 else 1000.0
  }

  /** The sample rate the sensor runs at for a DLPF code and a sample rate
      divider: the output rate divided by one more than the divider. */
  function SampleRateHz(dlpfCode: bv8, divider: nat): (hz: real)
    ensures hz > 0.0
    ensures hz * (1 + divider) as real == GyroOutputRateHz(dlpfCode)
  {
    Quotient(GyroOutputRateHz(dlpfCode), (1 + divider) as real);
    GyroOutputRateHz(dlpfCode) / (1 + divider) as real
  }

  lemma Quotient(rate: real, n: real)
    requires rate > 0.0 && n >= 1.0
    ensures rate / n > 0.0 && (rate / n) * n == rate
  {
  }

  /** The `int16_t` values of a big-endian byte stream, two bytes each, as
      `ReadAllRawData` assembles them. */
  function Assemble(bytes: seq<bv8>): (vals: seq<Int16>)
    ensures |vals| == |bytes| / 2
    decreases |bytes|
  {
    if |bytes| < 2 then [] else [ToInt16(bytes[0], bytes[1])] + Assemble(bytes[2..])
  }

  /** Value `i` of the assembled stream is made of bytes 2i (high) and
      2i+1 (low). */
  lemma {:induction false} AssembleAt(bytes: seq<bv8>, i: nat)
    requires 2 * i + 1 < |bytes|
    ensures i < |Assemble(bytes)| && Assemble(bytes)[i] == ToInt16(bytes[2 * i], bytes[2 * i + 1])
    decreases i
  {
    if i > 0 {
      AssembleAt(bytes[2..], i - 1);
    }
  }

  /** The big-endian byte stream of a sequence of `int16_t` values. */
  function Split(vals: seq<Int16>): (bytes: seq<bv8>)
    ensures |bytes| == 2 * |vals|
  {
    if vals == [] then [] else [HighByte(vals[0]), LowByte(vals[0])] + Split(vals[1..])
  }

  /** Assembling loses nothing: the byte stream can be recovered from the
      values. */
  lemma {:induction false} SplitAssemble(bytes: seq<bv8>)
    requires |bytes| % 2 == 0
    ensures Split(Assemble(bytes)) == bytes
    decreases |bytes|
  {
    if bytes != [] {
      SplitAssemble(bytes[2..]);
      AssembleThenSplit(bytes[0], bytes[1]);
      assert bytes == [bytes[0], bytes[1]] + bytes[2..];
    }
  }

  /** And the values can be recovered from the byte stream. */
  lemma {:induction false} AssembleSplit(vals: seq<Int16>)
    ensures Assemble(Split(vals)) == vals
    decreases |vals|
  {
    if vals != [] {
      var bytes := Split(vals);
      assert bytes[2..] == Split(vals[1..]);
      AssembleSplit(vals[1..]);
      SplitThenAssemble(vals[0]);
    }
  }

  /** The registers `InitializeSensor` writes, in order: wake up, gyroscope
      full scale, accelerometer full scale, DLPF, interrupt pin
      configuration, sample rate divider, interrupt enable. */
  const InitRegisters: seq<RegAddr> :=
    [PWR_MGMT_1, GYRO_CONFIG, ACCEL_CONFIG, CONFIG, INT_PIN_CFG, SMPRT_DIV, INT_ENABLE]

  /** How many initialisation steps succeed before the first one whose
      register does not answer. */
  function StepsCompleted(nak: set<RegAddr>): (k: nat)
    ensures k <= |InitRegisters|
    ensures forall i :: 0 <= i < k ==> InitRegisters[i] !in nak
    ensures k < |InitRegisters| ==> InitRegisters[k] in nak
  {
    StepsCompletedFrom(nak, 0)
  }

  function StepsCompletedFrom(nak: set<RegAddr>, i: nat): (k: nat)
    requires i <= |InitRegisters|
    requires forall j :: 0 <= j < i ==> InitRegisters[j] !in nak
    ensures i <= k <= |InitRegisters|
    ensures forall j :: 0 <= j < k ==> InitRegisters[j] !in nak
    ensures k < |InitRegisters| ==> InitRegisters[k] in nak
    decreases |InitRegisters| - i
  {
    if i == |InitRegisters| || InitRegisters[i] in nak then i else StepsCompletedFrom(nak, i + 1)
  }

  /** The MPU-6050 driver object. */
  class Mpu6050 {
    const i2c: SmbusI2c
    /** The last burst of measurements, as `int16_t`. */
    const rawData: array<Int16>
    var gyroFSRange: GyroScale
    var accelFSRange: AccelScale

    ghost predicate Valid() {
      !i2c.wide && rawData.Length == 7
    }

    /** The current content of register `reg`. */
    function Reg(reg: RegAddr): bv8
      reads i2c
    {
      i2c.ByteAt(reg, 0)
    }

    constructor (i2c: SmbusI2c)
      requires !i2c.wide
      ensures this.i2c == i2c && Valid() && fresh(rawData)
    {
      this.i2c := i2c;
      rawData := new Int16[7];
    }

    /** A signed register pair read as `Get..._Raw` and `Get..._Offset` do:
        the high byte first; if it fails, 0 and the low byte is not read; if
        only the low byte fails, the high byte shifted with the error. */
    method ReadPair(hi: RegAddr) returns (value: Int16, status: Status)
      requires Valid() && hi < 0xFF
      modifies i2c`log
      ensures hi in i2c.nak ==>
        value == 0 && status == Error && i2c.log == old(i2c.log) + [ByteRead(hi)]
      ensures hi !in i2c.nak ==>
        i2c.log == old(i2c.log) + [ByteRead(hi), ByteRead(hi + 1)] &&
        status == (if hi + 1 in i2c.nak then Error else Success) &&
        value == ToInt16(Reg(hi), if hi + 1 in i2c.nak then 0 else Reg(hi + 1))
    {
      var h;
      h, status := i2c.ReadRegister(hi);
      if status != Success {
        return 0, status;
      }
      var l;
      l, status := i2c.ReadRegister(hi + 1);
      value := ToInt16(h, l);
    }

    /** A signed register pair written as `Set..._Offset` does: `v >> 8` to
        the high register, and only if that succeeded `v & 0xFF` to the low
        one. */
    method WritePair(hi: RegAddr, v: Int16) returns (status: Status)
      requires Valid() && hi < 0xFF
      modifies i2c`cells, i2c`log
      ensures status == (if hi in i2c.nak || hi + 1 in i2c.nak then Error else Success)
      ensures hi in i2c.nak ==>
        i2c.cells == old(i2c.cells) && i2c.log == old(i2c.log) + [ByteWrite(hi, HighByte(v))]
      ensures hi !in i2c.nak ==>
        i2c.log == old(i2c.log) + [ByteWrite(hi, HighByte(v)), ByteWrite(hi + 1, LowByte(v))] &&
        i2c.cells == (var high := old(i2c.cells)[i2c.Cell(hi, 0) := HighByte(v)];
                      if hi + 1 in i2c.nak then high else high[i2c.Cell(hi + 1, 0) := LowByte(v)])
    {
      status := i2c.WriteRegister(hi, HighByte(v));
      if status == Success {
        status := i2c.WriteRegister(hi + 1, LowByte(v));
      }
    }

    /** `GetGyro_{X,Y,Z}_Raw`. */
    method GetGyroRaw(axis: Axis) returns (value: Int16, status: Status)
      requires Valid()
      modifies i2c`log
      ensures var hi := GyroRawHigh(axis);
        if hi in i2c.nak then value == 0 && status == Error && i2c.log == old(i2c.log) + [ByteRead(hi)]
        else i2c.log == old(i2c.log) + [ByteRead(hi), ByteRead(hi + 1)] &&
             status == (if hi + 1 in i2c.nak then Error else Success) &&
             value == ToInt16(Reg(hi), if hi + 1 in i2c.nak then 0 else Reg(hi + 1))
    {
      value, status := ReadPair(GyroRawHigh(axis));
    }

    /** `GetAccel_{X,Y,Z}_Raw`. */
    method GetAccelRaw(axis: Axis) returns (value: Int16, status: Status)
      requires Valid()
      modifies i2c`log
      ensures var hi := AccelRawHigh(axis);
        if hi in i2c.nak then value == 0 && status == Error && i2c.log == old(i2c.log) + [ByteRead(hi)]
        else i2c.log == old(i2c.log) + [ByteRead(hi), ByteRead(hi + 1)] &&
             status == (if hi + 1 in i2c.nak then Error else Success) &&
             value == ToInt16(Reg(hi), if hi + 1 in i2c.nak then 0 else Reg(hi + 1))
    {
      value, status := ReadPair(AccelRawHigh(axis));
    }

    /** `GetGyro_{X,Y,Z}_Offset`. */
    method GetGyroOffset(axis: Axis) returns (value: Int16, status: Status)
      requires Valid()
      modifies i2c`log
      ensures var hi := GyroOffsetHigh(axis);
        if hi in i2c.nak then value == 0 && status == Error && i2c.log == old(i2c.log) + [ByteRead(hi)]
        else i2c.log == old(i2c.log) + [ByteRead(hi), ByteRead(hi + 1)] &&
             status == (if hi + 1 in i2c.nak then Error else Success) &&
             value == ToInt16(Reg(hi), if hi + 1 in i2c.nak then 0 else Reg(hi + 1))
    {
      value, status := ReadPair(GyroOffsetHigh(axis));
    }

    /** `GetAccel_{X,Y,Z}_Offset`. */
    method GetAccelOffset(axis: Axis) returns (value: Int16, status: Status)
      requires Valid()
      modifies i2c`log
      ensures var hi := AccelOffsetHigh(axis);
        if hi in i2c.nak then value == 0 && status == Error && i2c.log == old(i2c.log) + [ByteRead(hi)]
        else i2c.log == old(i2c.log) + [ByteRead(hi), ByteRead(hi + 1)] &&
             status == (if hi + 1 in i2c.nak then Error else Success) &&
             value == ToInt16(Reg(hi), if hi + 1 in i2c.nak then 0 else Reg(hi + 1))
    {
      value, status := ReadPair(AccelOffsetHigh(axis));
    }

    /** `SetGyro_{X,Y,Z}_Offset`: on success the register pair holds the
        two bytes of `offset`, which `GetGyroOffset` assembles back into
        `offset` (`Bytes.SplitThenAssemble`). */
    method SetGyroOffset(axis: Axis, offset: Int16) returns (status: Status)
      requires Valid()
      modifies i2c`cells, i2c`log
      ensures var hi := GyroOffsetHigh(axis);
        status == (if hi in i2c.nak || hi + 1 in i2c.nak then Error else Success) &&
        (hi in i2c.nak ==> i2c.cells == old(i2c.cells) && i2c.log == old(i2c.log) + [ByteWrite(hi, HighByte(offset))]) &&
        (hi !in i2c.nak ==>
          i2c.log == old(i2c.log) + [ByteWrite(hi, HighByte(offset)), ByteWrite(hi + 1, LowByte(offset))] &&
          i2c.cells == (var high := old(i2c.cells)[i2c.Cell(hi, 0) := HighByte(offset)];
                        if hi + 1 in i2c.nak then high else high[i2c.Cell(hi + 1, 0) := LowByte(offset)])) &&
        (status == Success ==> Reg(hi) == HighByte(offset) && Reg(hi + 1) == LowByte(offset) &&
                               ToInt16(Reg(hi), Reg(hi + 1)) == offset)
    {
      var hi := GyroOffsetHigh(axis);
      status := WritePair(hi, offset);
      if status == Success {
        OffsetRoundTrip(old(i2c.cells), hi, offset);
      }
    }

    /** `SetAccel_{X,Y,Z}_Offset`. */
    method SetAccelOffset(axis: Axis, offset: Int16) returns (status: Status)
      requires Valid()
      modifies i2c`cells, i2c`log
      ensures var hi := AccelOffsetHigh(axis);
        status == (if hi in i2c.nak || hi + 1 in i2c.nak then Error else Success) &&
        (hi in i2c.nak ==> i2c.cells == old(i2c.cells) && i2c.log == old(i2c.log) + [ByteWrite(hi, HighByte(offset))]) &&
        (hi !in i2c.nak ==>
          i2c.log == old(i2c.log) + [ByteWrite(hi, HighByte(offset)), ByteWrite(hi + 1, LowByte(offset))] &&
          i2c.cells == (var high := old(i2c.cells)[i2c.Cell(hi, 0) := HighByte(offset)];
                        if hi + 1 in i2c.nak then high else high[i2c.Cell(hi + 1, 0) := LowByte(offset)])) &&
        (status == Success ==> Reg(hi) == HighByte(offset) && Reg(hi + 1) == LowByte(offset) &&
                               ToInt16(Reg(hi), Reg(hi + 1)) == offset)
    {
      var hi := AccelOffsetHigh(axis);
      status := WritePair(hi, offset);
      if status == Success {
        OffsetRoundTrip(old(i2c.cells), hi, offset);
      }
    }

    /** `ReadAllRawData`: one 14-byte block read from ACCEL_XOUT_H; on
        success `rawData[i]` is the `int16_t` of bytes 2i (high) and 2i+1
        (low); on failure `rawData` is left as it was. */
    method ReadAllRawData() returns (status: Status)
      requires Valid()
      modifies i2c`log, rawData
      ensures i2c.log == old(i2c.log) + [BlockRead(ACCEL_XOUT_H, RawDataBytes)]
      ensures status == (if ACCEL_XOUT_H in i2c.nak then Error else Success)
      ensures status == Success ==> rawData[..] == Assemble(Fetch(i2c.cells, i2c.Cell(ACCEL_XOUT_H, 0), RawDataBytes))
      ensures status != Success ==> rawData[..] == old(rawData[..])
    {
      var tmp := new bv8[RawDataBytes];
      status := i2c.ReadRegisterBlock(ACCEL_XOUT_H, RawDataBytes, tmp);
      if status != Success {
        return;
      }
      ghost var bytes := tmp[..];
      assert bytes == Fetch(i2c.cells, i2c.Cell(ACCEL_XOUT_H, 0), RawDataBytes);
      forall i | 0 <= i < 7 {
        rawData[i] := ToInt16(tmp[2 * i], tmp[2 * i + 1]);
      }
      forall i | 0 <= i < 7
        ensures rawData[i] == Assemble(bytes)[i]
      {
        AssembleAt(bytes, i);
      }
      assert |Assemble(bytes)| == rawData.Length;
      assert rawData[..] == Assemble(bytes);
    }

    /** `WakeUpSensor`: clear the SLEEP bit of PWR_MGMT_1, keeping the
        others. */
    method WakeUpSensor() returns (status: Status)
      requires Valid()
      modifies i2c`cells, i2c`log
      ensures status == (if PWR_MGMT_1 in i2c.nak then Error else Success)
      ensures i2c.cells == if status == Success
        then old(i2c.cells)[i2c.Cell(PWR_MGMT_1, 0) := old(Reg(PWR_MGMT_1)) & !BIT_SLEEP]
        else old(i2c.cells)
      ensures status == Success ==> Reg(PWR_MGMT_1) & BIT_SLEEP == 0
      ensures i2c.log == old(i2c.log) + if status == Success
        then [ByteRead(PWR_MGMT_1), ByteWrite(PWR_MGMT_1, old(Reg(PWR_MGMT_1)) & !BIT_SLEEP)]
        else [ByteRead(PWR_MGMT_1)]
    {
      status := i2c.WriteRegisterBit(PWR_MGMT_1, BIT_SLEEP, false);
    }

    /** `SetGyroFullScale`: the code in bits 3-4 of GYRO_CONFIG. */
    method SetGyroFullScale(scale: GyroScale) returns (status: Status)
      requires Valid()
      modifies i2c`cells, i2c`log
      ensures status == (if GYRO_CONFIG in i2c.nak then Error else Success)
      ensures i2c.log == old(i2c.log) + [ByteWrite(GYRO_CONFIG, ScaleRegister(scale.Code()))]
      ensures i2c.cells == if status == Success
        then old(i2c.cells)[i2c.Cell(GYRO_CONFIG, 0) := ScaleRegister(scale.Code())]
        else old(i2c.cells)
    {
      status := i2c.WriteRegister(GYRO_CONFIG, ScaleRegister(scale.Code()));
    }

    /** `GetGyroFullScale`: bits 3-4 of GYRO_CONFIG, of 0 when the read
        fails; a register written by `SetGyroFullScale(s)` gives back `s`. */
    method GetGyroFullScale() returns (scale: GyroScale, status: Status)
      requires Valid()
      modifies i2c`log
      ensures i2c.log == old(i2c.log) + [ByteRead(GYRO_CONFIG)]
      ensures status == (if GYRO_CONFIG in i2c.nak then Error else Success)
      ensures scale == GyroScaleOf(ScaleField(if status == Success then Reg(GYRO_CONFIG) else 0))
    {
      var v;
      v, status := i2c.ReadRegister(GYRO_CONFIG);
      scale := GyroScaleOf(ScaleField(v));
    }

    /** `SetAccelFullScale`: the code in bits 3-4 of ACCEL_CONFIG. */
    method SetAccelFullScale(scale: AccelScale) returns (status: Status)
      requires Valid()
      modifies i2c`cells, i2c`log
      ensures status == (if ACCEL_CONFIG in i2c.nak then Error else Success)
      ensures i2c.log == old(i2c.log) + [ByteWrite(ACCEL_CONFIG, ScaleRegister(scale.Code()))]
      ensures i2c.cells == if status == Success
        then old(i2c.cells)[i2c.Cell(ACCEL_CONFIG, 0) := ScaleRegister(scale.Code())]
        else old(i2c.cells)
    {
      status := i2c.WriteRegister(ACCEL_CONFIG, ScaleRegister(scale.Code()));
    }

    /** `GetAccelFullScale`: bits 3-4 of ACCEL_CONFIG, or of 0 when the read
        fails. */
    method GetAccelFullScale() returns (scale: AccelScale, status: Status)
      requires Valid()
      modifies i2c`log
      ensures i2c.log == old(i2c.log) + [ByteRead(ACCEL_CONFIG)]
      ensures status == (if ACCEL_CONFIG in i2c.nak then Error else Success)
      ensures scale == AccelScaleOf(ScaleField(if status == Success then Reg(ACCEL_CONFIG) else 0))
    {
      var v;
      v, status := i2c.ReadRegister(ACCEL_CONFIG);
      scale := AccelScaleOf(ScaleField(v));
    }

    /** `SetSensor_DLPF_Config`: read CONFIG, replace bits 0-2 by the code
        and write it back; if the read fails nothing is written. */
    method SetSensorDlpfConfig(dlpf: Dlpf) returns (status: Status)
      requires Valid()
      modifies i2c`cells, i2c`log
      ensures status == (if CONFIG in i2c.nak then Error else Success)
      ensures CONFIG in i2c.nak ==> i2c.cells == old(i2c.cells) && i2c.log == old(i2c.log) + [ByteRead(CONFIG)]
      ensures CONFIG !in i2c.nak ==>
        i2c.cells == old(i2c.cells)[i2c.Cell(CONFIG, 0) := WithDlpf(old(Reg(CONFIG)), dlpf.Code())] &&
        i2c.log == old(i2c.log) + [ByteRead(CONFIG), ByteWrite(CONFIG, WithDlpf(old(Reg(CONFIG)), dlpf.Code()))]
    {
      var current;
      current, status := i2c.ReadRegister(CONFIG);
      if status == Success {
        CodesRoundTrip(FS_250_DPS, FS_2G, dlpf);
        status := i2c.WriteRegister(CONFIG, WithDlpf(current, dlpf.Code()));
      }
    }

    /** `GetSensor_DLPF_Config`: bits 0-2 of CONFIG, or of 0 when the read
        fails. */
    method GetSensorDlpfConfig() returns (dlpf: Dlpf, status: Status)
      requires Valid()
      modifies i2c`log
      ensures i2c.log == old(i2c.log) + [ByteRead(CONFIG)]
      ensures status == (if CONFIG in i2c.nak then Error else Success)
      ensures dlpf.Code() == (if status == Success then Reg(CONFIG) & 0x07 else 0)
    {
      var v;
      v, status := i2c.ReadRegister(CONFIG);
      dlpf := DlpfOf(v & 0x07);
    }

    /** `SetGyro_SampleRateDivider`. */
    method SetGyroSampleRateDivider(divider: bv8) returns (status: Status)
      requires Valid()
      modifies i2c`cells, i2c`log
      ensures status == (if SMPRT_DIV in i2c.nak then Error else Success)
      ensures i2c.log == old(i2c.log) + [ByteWrite(SMPRT_DIV, divider)]
      ensures i2c.cells == if status == Success
        then old(i2c.cells)[i2c.Cell(SMPRT_DIV, 0) := divider]
        else old(i2c.cells)
    {
      status := i2c.WriteRegister(SMPRT_DIV, divider);
    }

    /** `GetGyro_SampleRateDivider`. */
    method GetGyroSampleRateDivider() returns (divider: bv8, status: Status)
      requires Valid()
      modifies i2c`log
      ensures i2c.log == old(i2c.log) + [ByteRead(SMPRT_DIV)]
      ensures status == (if SMPRT_DIV in i2c.nak then Error else Success)
      ensures divider == if status == Success then Reg(SMPRT_DIV) else 0
    {
      divider, status := i2c.ReadRegister(SMPRT_DIV);
    }

    /** `GetSensor_CurrentSampleRate_Hz`: the divider, then the DLPF code
        (not read if the divider read failed), then the sample rate they
        select; 0 after any failed read. */
    method GetSensorCurrentSampleRateHz() returns (hz: real, status: Status)
      requires Valid()
      modifies i2c`log
      ensures SMPRT_DIV in i2c.nak ==> hz == 0.0 && status == Error && i2c.log == old(i2c.log) + [ByteRead(SMPRT_DIV)]
      ensures SMPRT_DIV !in i2c.nak ==> i2c.log == old(i2c.log) + [ByteRead(SMPRT_DIV), ByteRead(CONFIG)]
      ensures SMPRT_DIV !in i2c.nak && CONFIG in i2c.nak ==> hz == 0.0 && status == Error
      ensures SMPRT_DIV !in i2c.nak && CONFIG !in i2c.nak ==>
        status == Success && hz == SampleRateHz(Reg(CONFIG) & 0x07, Reg(SMPRT_DIV) as int)
    {
      var divider;
      divider, status := GetGyroSampleRateDivider();
      if status != Success {
        return 0.0, status;
      }
      var dlpf;
      dlpf, status := GetSensorDlpfConfig();
      if status != Success {
        return 0.0, status;
      }
      hz := SampleRateHz(dlpf.Code(), divider as int);
    }

    /** `SetSensor_InterruptEnable`. */
    method SetSensorInterruptEnable(enabled: bv8) returns (status: Status)
      requires Valid()
      modifies i2c`cells, i2c`log
      ensures status == (if INT_ENABLE in i2c.nak then Error else Success)
      ensures i2c.log == old(i2c.log) + [ByteWrite(INT_ENABLE, enabled)]
      ensures i2c.cells == if status == Success
        then old(i2c.cells)[i2c.Cell(INT_ENABLE, 0) := enabled]
        else old(i2c.cells)
    {
      status := i2c.WriteRegister(INT_ENABLE, enabled);
    }

    /** `SetSensor_InterruptPinConfig`. */
    method SetSensorInterruptPinConfig(config: bv8) returns (status: Status)
      requires Valid()
      modifies i2c`cells, i2c`log
      ensures status == (if INT_PIN_CFG in i2c.nak then Error else Success)
      ensures i2c.log == old(i2c.log) + [ByteWrite(INT_PIN_CFG, config)]
      ensures i2c.cells == if status == Success
        then old(i2c.cells)[i2c.Cell(INT_PIN_CFG, 0) := config]
        else old(i2c.cells)
    {
      status := i2c.WriteRegister(INT_PIN_CFG, config);
    }

    /** `InitializeSensor`: records both full-scale ranges, then runs the
        seven configuration steps of `InitRegisters` in order and stops at
        the first one that fails: every step before it has left its register
        configured, and no register from it on has been written. */
    method InitializeSensor(cfg: InitConfig) returns (status: Status)
      requires Valid()
      modifies this, i2c`cells, i2c`log
      ensures gyroFSRange == cfg.gyroScale && accelFSRange == cfg.accelScale
      ensures status == (if StepsCompleted(i2c.nak) == |InitRegisters| then Success else Error)
      ensures i2c.cells == Configure(old(i2c.cells), StepsCompleted(i2c.nak), cfg)
    {
      accelFSRange := cfg.accelScale;
      gyroFSRange := cfg.gyroScale;
      ghost var start := i2c.cells;
      ghost var done := 0;
      status := InitStep(0, cfg, start);
      if status == Success {
        done := 1;
        status := InitStep(1, cfg, start);
      }
      if status == Success {
        done := 2;
        status := InitStep(2, cfg, start);
      }
      if status == Success {
        done := 3;
        status := InitStep(3, cfg, start);
      }
      if status == Success {
        done := 4;
        status := InitStep(4, cfg, start);
      }
      if status == Success {
        done := 5;
        status := InitStep(5, cfg, start);
      }
      if status == Success {
        done := 6;
        status := InitStep(6, cfg, start);
      }
      if status == Success {
        done := 7;
      }
      StopsAt(done, i2c.nak);
    }

    /** Initialisation step `j`: wake up, gyroscope full scale, accelerometer
        full scale, DLPF, interrupt pin configuration, sample rate divider
        or interrupt enable. */
    method InitStep(j: nat, cfg: InitConfig, ghost start: map<nat, bv8>) returns (status: Status)
      requires Valid() && j < |InitRegisters| && i2c.cells == Configure(start, j, cfg)
      requires forall i :: 0 <= i < j ==> InitRegisters[i] !in i2c.nak
      modifies i2c`cells, i2c`log
      ensures status == Success ==> i2c.cells == Configure(start, j + 1, cfg)
      ensures status == Success ==> forall i :: 0 <= i < j + 1 ==> InitRegisters[i] !in i2c.nak
      ensures status != Success ==> status == Error && InitRegisters[j] in i2c.nak && i2c.cells == old(i2c.cells)
    {
      ghost var before := i2c.cells;
      if j == 0 {
        status := WakeUpSensor();
        if status == Success {
          Advance(0, start, before, i2c.cells, cfg);
        }
      } else if j == 1 {
        status := SetGyroFullScale(cfg.gyroScale);
        if status == Success {
          Advance(1, start, before, i2c.cells, cfg);
        }
      } else if j == 2 {
        status := SetAccelFullScale(cfg.accelScale);
        if status == Success {
          Advance(2, start, before, i2c.cells, cfg);
        }
      } else if j == 3 {
        status := SetSensorDlpfConfig(cfg.dlpf);
        if status == Success {
          Advance(3, start, before, i2c.cells, cfg);
        }
      } else if j == 4 {
        status := SetSensorInterruptPinConfig(cfg.intConfig);
        if status == Success {
          Advance(4, start, before, i2c.cells, cfg);
        }
      } else if j == 5 {
        status := SetGyroSampleRateDivider(cfg.divider);
        if status == Success {
          Advance(5, start, before, i2c.cells, cfg);
        }
      } else {
        status := SetSensorInterruptEnable(cfg.intEnable);
        if status == Success {
          Advance(6, start, before, i2c.cells, cfg);
        }
      }
    }

    /** Step `j` wrote its configured value into its register. */
    lemma Advance(j: nat, start: map<nat, bv8>, before: map<nat, bv8>, after: map<nat, bv8>, cfg: InitConfig)
      requires Valid() && j < |InitRegisters| && before == Configure(start, j, cfg)
      requires after == before[i2c.Cell(InitRegisters[j], 0) := StepValue(j, Peek(before, InitRegisters[j]), cfg)]
      ensures after == Configure(start, j + 1, cfg)
    {
      ConfigurePending(start, j, cfg);
    }
  }

  /** The arguments of `InitializeSensor` that reach the registers. */
  datatype InitConfig = InitConfig(gyroScale: GyroScale, accelScale: AccelScale, dlpf: Dlpf,
                                   divider: bv8, intConfig: bv8, intEnable: bv8)

  /** The byte initialisation step `i` writes into its register, whose
      content was `current`. */
  function StepValue(i: nat, current: bv8, cfg: InitConfig): bv8
    requires i < |InitRegisters|
  {
    if i == 0 then current & !BIT_SLEEP
    else if i == 1 then ScaleRegister(cfg.gyroScale.Code())
    else if i == 2 then ScaleRegister(cfg.accelScale.Code())
    else if i == 3 then WithDlpf(current, cfg.dlpf.Code())
    else if i == 4 then cfg.intConfig
    else if i == 5 then cfg.divider
    else cfg.intEnable
  }

  /** The byte initialisation step `i` leaves in its register, given the
      registers as they were before the sequence started. */
  function InitValue(i: nat, start: map<nat, bv8>, cfg: InitConfig): bv8
    requires i < |InitRegisters|
  {
    StepValue(i, Peek(start, InitRegisters[i]), cfg)
  }

  /** If every step before `j` answers and step `j` does not (or there is no
      step `j`), exactly `j` steps complete. */
  lemma StopsAt(j: nat, nak: set<RegAddr>)
    requires j <= |InitRegisters|
    requires forall i :: 0 <= i < j ==> InitRegisters[i] !in nak
    requires j < |InitRegisters| ==> InitRegisters[j] in nak
    ensures StepsCompleted(nak) == j
  {
  }

  /** The registers after the first `j` initialisation steps have written
      their values over `start`. */
  function Configure(start: map<nat, bv8>, j: nat, cfg: InitConfig): map<nat, bv8>
    requires j <= |InitRegisters|
  {
    if j == 0 then start
    else Configure(start, j - 1, cfg)[InitRegisters[j - 1] := InitValue(j - 1, start, cfg)]
  }

  /** The cells of the seven initialisation registers. */
  function InitCells(): set<nat> {
    set i | 0 <= i < |InitRegisters| :: InitRegisters[i] as nat
  }

  /** After `j` steps the registers of those steps hold their configured
      values. */
  lemma {:induction false} ConfigureDone(start: map<nat, bv8>, j: nat, cfg: InitConfig)
    requires j <= |InitRegisters|
    ensures forall i :: 0 <= i < j ==> Peek(Configure(start, j, cfg), InitRegisters[i]) == InitValue(i, start, cfg)
  {
    if j > 0 {
      ConfigureDone(start, j - 1, cfg);
      InitRegistersDistinct();
    }
  }

  /** After `j` steps the registers of the later steps are as they were. */
  lemma {:induction false} ConfigurePending(start: map<nat, bv8>, j: nat, cfg: InitConfig)
    requires j <= |InitRegisters|
    ensures forall i :: j <= i < |InitRegisters| ==>
      Peek(Configure(start, j, cfg), InitRegisters[i]) == Peek(start, InitRegisters[i])
  {
    if j > 0 {
      ConfigurePending(start, j - 1, cfg);
      InitRegistersDistinct();
    }
  }

  /** The steps write no register outside the seven. */
  lemma {:induction false} ConfigureElsewhere(start: map<nat, bv8>, j: nat, cfg: InitConfig)
    requires j <= |InitRegisters|
    ensures forall c: nat :: c !in InitCells() ==> Peek(Configure(start, j, cfg), c) == Peek(start, c)
  {
    if j > 0 {
      ConfigureElsewhere(start, j - 1, cfg);
      assert InitRegisters[j - 1] as nat in InitCells();
    }
  }

  /** The seven initialisation registers are seven different registers. */
  lemma InitRegistersDistinct()
    ensures forall i, j :: 0 <= i < j < |InitRegisters| ==> InitRegisters[i] != InitRegisters[j]
  {
  }

  /** Writing the two bytes of an offset to a register pair and assembling
      the pair again gives the offset back. */
  lemma {:induction false} OffsetRoundTrip(cells: map<nat, bv8>, hi: RegAddr, v: Int16)
    requires hi < 0xFF
    ensures var after := cells[hi := HighByte(v)][hi + 1 := LowByte(v)];
      Peek(after, hi) == HighByte(v) && Peek(after, hi + 1) == LowByte(v) &&
      ToInt16(Peek(after, hi), Peek(after, hi + 1)) == v
  {
    SplitThenAssemble(v);
  }
}
