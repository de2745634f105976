/** The INA260 current, voltage and power monitor: its register map, the
    encodings of its configuration fields, the two's-complement decoding of
    its measurement registers scaled by their LSB weights, and the driver
    that configures it through read-modify-write of the configuration
    register.

    The INA260's registers are 16 bits wide and travel most significant byte
    first, so the transport is opened with 16-bit registers: byte 0 of a
    register (`conf_reg[0]` in the driver) is its most significant byte, byte
    1 its least significant. */
module Ina260 {
  import opened Smbus
  import opened Bytes

  const CONF_REG: RegAddr := 0x00
  const CURRENT_REG: RegAddr := 0x01
  const VOLTAGE_REG: RegAddr := 0x02
  const POWER_REG: RegAddr := 0x03
  const MASKEN_REG: RegAddr := 0x06
  const ALERT_LIM: RegAddr := 0x07
  const MAN_ID: RegAddr := 0xFE
  const DIE_ID: RegAddr := 0xFF

  /** `ReadingBases`: amperes, volts and watts per count. */
  const CurrentLsb: real := 0.00125
  const VoltageLsb: real := 0.00125
  const PowerLsb: real := 0.01

  /** `Alert_Conf`: the alert function enabled in the mask/enable register,
      by its code. */
  type AlertConf = a: bv8 | a == 0x80 || a == 0x40 || a == 0x20 || a == 0x10 || a == 0x08 || a == 0x04
    witness 0x04

  const OCL: AlertConf := 0x80
  const UCL: AlertConf := 0x40
  const BOL: AlertConf := 0x20
  const BUL: AlertConf := 0x10
  const POL: AlertConf := 0x08
  const CNVR: AlertConf := 0x04

  /** Each alert function is a single bit among bits 2 to 7, and different
      functions have disjoint bits. */
  lemma AlertCodesAreBits(a: AlertConf, b: AlertConf)
    ensures a != 0 && a & (a - 1) == 0 && a & 0x03 == 0
    ensures a != b <==> a & b == 0
  {
  }

  /** `Ave_Mode`: the number of samples averaged, by its 3-bit code. */
  type AveMode = a: bv8 | a < 8

  const AV1: AveMode := 0
  const AV4: AveMode := 1
  const AV16: AveMode := 2
  const AV64: AveMode := 3
  const AV128: AveMode := 4
  const AV256: AveMode := 5
  const AV512: AveMode := 6
  const AV1024: AveMode := 7

  /** `Conv_Time`: the conversion time of one measurement, by its 3-bit
      code. */
  type ConvTime = t: bv8 | t < 8

  const TU140: ConvTime := 0
  const TU204: ConvTime := 1
  const TU332: ConvTime := 2
  const TU588: ConvTime := 3
  const TU1100: ConvTime := 4
  const TU2116: ConvTime := 5
  const TU4156: ConvTime := 6
  const TU8224: ConvTime := 7

  /** The conversion time in microseconds that each code names. */
  function ConvMicros(t: ConvTime): nat {
    if t == TU140 then 140 else if t == TU204 then 204 else if t == TU332 then 332
    else if t == TU588 then 588 else if t == TU1100 then 1100 else if t == TU2116 then 2116
    else if t == TU4156 then 4156 else 8224
  }

  /** A larger code is a slower conversion, so the code order is the time
      order. */
  lemma ConvTimeOrder(t: ConvTime, u: ConvTime)
    ensures t < u <==> ConvMicros(t) < ConvMicros(u)
    ensures ConvMicros(TU140) <= ConvMicros(t) <= ConvMicros(TU8224)
  {
  }

  /** `Op_Mode`: triggered or continuous, and which quantities convert, by
      its 3-bit code. */
  type OpMode = m: bv8 | m < 8

  const PDTRIG: OpMode := 0
  const CURTRIT: OpMode := 1
  const VOLTRIG: OpMode := 2
  const CURVOLTRIG: OpMode := 3
  const PDCONT: OpMode := 4
  const CURCONT: OpMode := 5
  const VOLCONT: OpMode := 6
  const CURVOLCONT: OpMode := 7

  /** `INA260Sample`. */
  datatype Sample = Sample(current: real, voltage: real)

  /** A sample as it is before the first reading. */
  const DefaultSample := Sample(0.0, 0.0)

  /** The contents of one 16-bit register, in bus order. */
  datatype Reg16 = Reg16(msb: bv8, lsb: bv8)

  /** The register `reg` of a store of 16-bit registers. */
  function Load(cells: map<nat, bv8>, reg: RegAddr): Reg16 {
    Reg16(Peek(cells, 2 * reg), Peek(cells, 2 * reg + 1))
  }

  /** The store after `v` is written to register `reg`. */
  function Store(cells: map<nat, bv8>, reg: RegAddr, v: Reg16): map<nat, bv8> {
    cells[2 * reg := v.msb][2 * reg + 1 := v.lsb]
  }

  /** A register written reads back as written, and every other register is
      as it was. */
  lemma StoreThenLoad(cells: map<nat, bv8>, reg: RegAddr, v: Reg16, other: RegAddr)
    ensures Load(Store(cells, reg, v), reg) == v
    ensures other != reg ==> Load(Store(cells, reg, v), other) == Load(cells, other)
  {
  }

  /** A register written twice holds the second value only. */
  lemma StoreTwice(cells: map<nat, bv8>, reg: RegAddr, v: Reg16, w: Reg16)
    ensures Store(Store(cells, reg, v), reg, w) == Store(cells, reg, w)
  {
  }

  /** A two-byte block write is the register store. */
  lemma {:induction false} PokeRegister(cells: map<nat, bv8>, reg: RegAddr, bytes: seq<bv8>)
    requires |bytes| == 2
    ensures Poke(cells, 2 * reg, bytes) == Store(cells, reg, Reg16(bytes[0], bytes[1]))
  {
    var b := 2 * reg;
    var once := cells[b := bytes[0]];
    assert Poke(cells, b, bytes) == Poke(once, b + 1, bytes[1..]);
    assert Poke(once, b + 1, bytes[1..]) == Poke(once[b + 1 := bytes[1]], b + 2, bytes[1..][1..]);
    assert bytes[1..][1..] == [];
  }

  // The fields of the configuration register (reset bit and reserved bits
  // in bits 15 to 12, averaging in 11 to 9, bus-voltage conversion time in
  // 8 to 6, current conversion time in 5 to 3, operating mode in 2 to 0).

  function AveragingField(c: Reg16): bv8 {
    (c.msb >> 1) & 7
  }

  function VoltageTimeField(c: Reg16): bv8 {
    ((c.msb & 1) << 2) | (c.lsb >> 6)
  }

  function CurrentTimeField(c: Reg16): bv8 {
    (c.lsb >> 3) & 7
  }

  function ModeField(c: Reg16): bv8 {
    c.lsb & 7
  }

  /** The reset bit and the reserved bits. */
  function ControlBits(c: Reg16): bv8 {
    c.msb & 0xF0
  }

  /** The five fields make up the whole register: two values that agree on
      all of them are the same value. */
  lemma FieldsDetermineRegister(c: Reg16, d: Reg16)
    requires AveragingField(c) == AveragingField(d) && VoltageTimeField(c) == VoltageTimeField(d)
    requires CurrentTimeField(c) == CurrentTimeField(d) && ModeField(c) == ModeField(d)
    requires ControlBits(c) == ControlBits(d)
    ensures c == d
  {
  }

  /** Whether `c` and `d` agree on everything except the fields named. */
  predicate SameExcept(c: Reg16, d: Reg16, averaging: bool, voltageTime: bool, currentTime: bool, mode: bool) {
    ControlBits(c) == ControlBits(d) &&
    (averaging || AveragingField(c) == AveragingField(d)) &&
    (voltageTime || VoltageTimeField(c) == VoltageTimeField(d)) &&
    (currentTime || CurrentTimeField(c) == CurrentTimeField(d)) &&
    (mode || ModeField(c) == ModeField(d))
  }

  /** `CurrentConvTime`: bits 3 to 5 of byte 1 cleared, then the code ORed in. */
  function WithCurrentTime(c: Reg16, t: bv8): (r: Reg16)
    requires t < 8
    ensures CurrentTimeField(r) == t && SameExcept(r, c, false, false, true, false)
  {
    Reg16(c.msb, (c.lsb & !0x38) | (t << 3))
  }

  /** `OperatingMode`: bits 0 to 2 of byte 1 cleared, then the code ORed in. */
  function WithOperatingMode(c: Reg16, m: bv8): (r: Reg16)
    requires m < 8
    ensures ModeField(r) == m && SameExcept(r, c, false, false, false, true)
  {
    Reg16(c.msb, (c.lsb & !0x07) | m)
  }

  /** `AveragingMode`: bits 1 to 3 of byte 0 cleared, then the code shifted
      left by one ORed in. */
  function WithAveraging(c: Reg16, a: bv8): (r: Reg16)
    requires a < 8
    ensures AveragingField(r) == a && SameExcept(r, c, true, false, false, false)
  {
    Reg16((c.msb & !0x0E) | (a << 1), c.lsb)
  }

  /** `VoltageConvTime` as its masks evidently intend: the two low bits of
      the code in bits 6 and 7 of byte 1, the high bit in bit 0 of byte 0. */
  function WithVoltageTime(c: Reg16, t: bv8): (r: Reg16)
    requires t < 8
    ensures VoltageTimeField(r) == t && SameExcept(r, c, false, true, false, false)
  {
    Reg16((c.msb & !0x01) | (t >> 2), (c.lsb & !0xC0) | ((t % 4) << 6))
  }

  /** `VoltageConvTime` as written: the masks clear bits 6 and 7 of byte 1
      and bit 0 of byte 0, but the code shifted LEFT by two is ORed into
      byte 0. */
  function WithVoltageTimeAsWritten(c: Reg16, t: bv8): Reg16
    requires t < 8
  {
    Reg16((c.msb & !0x01) | (t << 2), (c.lsb & !0xC0) | ((t % 4) << 6))
  }

  /** As written, the high bit of the conversion time is lost (bit 8 always
      ends cleared), the two low bits are also ORed into the averaging
      field, and the high bit lands in reserved bit 12; the current time and
      the mode are kept. */
  lemma VoltageTimeAsWrittenCorrupts(c: Reg16, t: bv8)
    requires t < 8
    ensures VoltageTimeField(WithVoltageTimeAsWritten(c, t)) == t % 4
    ensures AveragingField(WithVoltageTimeAsWritten(c, t)) == AveragingField(c) | ((t & 3) << 1)
    ensures ControlBits(WithVoltageTimeAsWritten(c, t)) == ControlBits(c) | ((t & 4) << 2)
    ensures CurrentTimeField(WithVoltageTimeAsWritten(c, t)) == CurrentTimeField(c)
    ensures ModeField(WithVoltageTimeAsWritten(c, t)) == ModeField(c)
  {
  }

  /** On the power-on configuration 0x6127, the written `VoltageConvTime`
      with TU1100 (code 4) selects TU140 and sets reserved bit 12, and with
      TU204 (code 1) changes the averaging from AV1 to AV16; the intended
      update selects the time asked for and nothing else. */
  lemma VoltageTimeAsWrittenCounterexample()
    ensures VoltageTimeField(WithVoltageTimeAsWritten(Reg16(0x61, 0x27), TU1100)) == TU140
    ensures ControlBits(WithVoltageTimeAsWritten(Reg16(0x61, 0x27), TU1100)) == 0x70
    ensures AveragingField(Reg16(0x61, 0x27)) == AV1
    ensures AveragingField(WithVoltageTimeAsWritten(Reg16(0x61, 0x27), TU204)) == AV16
    ensures WithVoltageTime(Reg16(0x61, 0x27), TU1100) == Reg16(0x61, 0x27)
  {
  }

  /** The configuration that `InitializeSensor` leaves when every step
      succeeds: current time, voltage time as written, averaging, then
      mode. */
  function ConfiguredAsWritten(c: Reg16, voltTime: ConvTime, currTime: ConvTime, averaging: AveMode, mode: OpMode): Reg16 {
    WithOperatingMode(WithAveraging(WithVoltageTimeAsWritten(WithCurrentTime(c, currTime), voltTime), averaging), mode)
  }

  /** The configuration the same sequence of updates was meant to leave, with
      the corrected voltage-time update. */
  function Configured(c: Reg16, voltTime: ConvTime, currTime: ConvTime, averaging: AveMode, mode: OpMode): Reg16 {
    WithOperatingMode(WithAveraging(WithVoltageTime(WithCurrentTime(c, currTime), voltTime), averaging), mode)
  }

  /** The four updates touch disjoint fields, so the configured register
      holds every requested code and keeps the reset and reserved bits. */
  lemma {:induction false} ConfiguredFields(c: Reg16, voltTime: ConvTime, currTime: ConvTime, averaging: AveMode, mode: OpMode)
    ensures var r := Configured(c, voltTime, currTime, averaging, mode);
      CurrentTimeField(r) == currTime && VoltageTimeField(r) == voltTime &&
      AveragingField(r) == averaging && ModeField(r) == mode &&
      ControlBits(r) == ControlBits(c)
  {
    var c1 := WithCurrentTime(c, currTime);
    var c2 := WithVoltageTime(c1, voltTime);
    var c3 := WithAveraging(c2, averaging);
    var c4 := WithOperatingMode(c3, mode);
    assert c4 == Configured(c, voltTime, currTime, averaging, mode);
  }

  /** The written sequence sets every field it is asked to except the voltage
      time, which keeps only the code's two low bits, and it ORs the code's
      high bit into reserved bit 12. */
  lemma {:induction false} ConfiguredAsWrittenFields(c: Reg16, voltTime: ConvTime, currTime: ConvTime, averaging: AveMode, mode: OpMode)
    ensures var r := ConfiguredAsWritten(c, voltTime, currTime, averaging, mode);
      VoltageTimeField(r) == voltTime % 4 && ControlBits(r) == ControlBits(c) | ((voltTime & 4) << 2) &&
      CurrentTimeField(r) == currTime && AveragingField(r) == averaging && ModeField(r) == mode
  {
    var c1 := WithCurrentTime(c, currTime);
    var c2 := WithVoltageTimeAsWritten(c1, voltTime);
    VoltageTimeAsWrittenCorrupts(c1, voltTime);
    var c3 := WithAveraging(c2, averaging);
    var c4 := WithOperatingMode(c3, mode);
    assert c4 == ConfiguredAsWritten(c, voltTime, currTime, averaging, mode);
  }

  /** The written and the intended sequences leave the same register exactly
      when the voltage time is below 4 (TU140 to TU588): the averaging update
      then clears the bits the left shift spilled.  From TU1100 up, the
      written sequence selects the time 4 below the one asked for and sets
      reserved bit 12. */
  lemma {:induction false} AsWrittenAgreesBelowFour(c: Reg16, voltTime: ConvTime, currTime: ConvTime, averaging: AveMode, mode: OpMode)
    ensures ConfiguredAsWritten(c, voltTime, currTime, averaging, mode) == Configured(c, voltTime, currTime, averaging, mode) <==> voltTime < 4
    ensures voltTime >= 4 ==>
      var r := ConfiguredAsWritten(c, voltTime, currTime, averaging, mode);
      VoltageTimeField(r) == voltTime - 4 && ControlBits(r) == ControlBits(c) | 0x10
  {
    var r := ConfiguredAsWritten(c, voltTime, currTime, averaging, mode);
    var d := Configured(c, voltTime, currTime, averaging, mode);
    ConfiguredAsWrittenFields(c, voltTime, currTime, averaging, mode);
    ConfiguredFields(c, voltTime, currTime, averaging, mode);
    if voltTime < 4 {
      assert voltTime % 4 == voltTime && (voltTime & 4) << 2 == 0;
      FieldsDetermineRegister(r, d);
    } else {
      assert voltTime % 4 == voltTime - 4 && (voltTime & 4) << 2 == 0x10;
      assert VoltageTimeField(r) != VoltageTimeField(d);
    }
  }

  /** A measurement: the signed count of a measurement register times the
      register's LSB weight. */
  function Reading(weight: real, count: Int16): real {
    weight * count as real
  }

  /** A reading lies within 32768 weights below zero and 32767 above, and has
      the sign of its count. */
  lemma {:induction false} ReadingBounds(weight: real, count: Int16)
    requires weight > 0.0
    ensures -32768.0 * weight <= Reading(weight, count) <= 32767.0 * weight
    ensures Reading(weight, count) < 0.0 <==> count < 0
  {
    var n := count as real;
    ScaleBounds(weight, n);
    assert Reading(weight, count) == weight * n;
  }

  lemma ScaleBounds(weight: real, n: real)
    requires weight > 0.0 && -32768.0 <= n <= 32767.0
    ensures -32768.0 * weight <= weight * n <= 32767.0 * weight
    ensures weight * n < 0.0 <==> n < 0.0
  {
    assert weight * (n + 32768.0) >= 0.0;
    assert weight * (32767.0 - n) >= 0.0;
    if n < 0.0 {
      assert weight * (0.0 - n) > 0.0;
    } else {
      assert weight * n >= 0.0;
    }
  }

  /** The full-scale range of each measurement: at most 40.96 A, 40.96 V
      and 327.68 W in magnitude. */
  lemma {:induction false} ReadingRanges(count: Int16)
    ensures -40.96 <= Reading(CurrentLsb, count) <= 40.95875
    ensures -40.96 <= Reading(VoltageLsb, count) <= 40.95875
    ensures -327.68 <= Reading(PowerLsb, count) <= 327.67
  {
    ReadingBounds(CurrentLsb, count);
    ReadingBounds(PowerLsb, count);
  }

  /** The driver of one INA260. */
  class Ina260 {
    const i2c: SmbusI2c

    ghost predicate Valid()
      reads this
    {
      i2c.wide
    }

    /** The configuration register as the device holds it. */
    function Conf(): Reg16
      reads this, i2c
    {
      Load(i2c.cells, CONF_REG)
    }

    constructor (i2c: SmbusI2c)
      requires i2c.wide
      ensures this.i2c == i2c && Valid()
    {
      this.i2c := i2c;
    }

    /** Reads register `reg` into a fresh buffer, then reads the mask/enable
        register, which clears the alert; the statuses are ignored. */
    method ReadMeasurement(reg: RegAddr) returns (hi: bv8, lo: bv8)
      requires Valid()
      modifies i2c`log
      ensures i2c.log == old(i2c.log) + [BlockRead(reg, 2), BlockRead(MASKEN_REG, 2)]
      ensures reg !in i2c.nak ==> Reg16(hi, lo) == Load(i2c.cells, reg)
    {
      var data := new bv8[2];
      var maskenUnData := new bv8[2];
      var dataStatus := i2c.ReadRegisterBlock(reg, 2, data);
      var maskenStatus := i2c.ReadRegisterBlock(MASKEN_REG, 2, maskenUnData);
      hi, lo := data[0], data[1];
    }

    /** `ReadVoltage`. */
    method ReadVoltage() returns (voltage: real)
      requires Valid()
      modifies i2c`log
      ensures i2c.log == old(i2c.log) + [BlockRead(VOLTAGE_REG, 2), BlockRead(MASKEN_REG, 2)]
      ensures VOLTAGE_REG !in i2c.nak ==>
        voltage == VoltageLsb * ToInt16(i2c.ByteAt(VOLTAGE_REG, 0), i2c.ByteAt(VOLTAGE_REG, 1)) as real
    {
      var hi, lo := ReadMeasurement(VOLTAGE_REG);
      voltage := Reading(VoltageLsb, ToInt16(hi, lo));
    }

    /** `ReadCurrent`. */
    method ReadCurrent() returns (current: real)
      requires Valid()
      modifies i2c`log
      ensures i2c.log == old(i2c.log) + [BlockRead(CURRENT_REG, 2), BlockRead(MASKEN_REG, 2)]
      ensures CURRENT_REG !in i2c.nak ==>
        current == CurrentLsb * ToInt16(i2c.ByteAt(CURRENT_REG, 0), i2c.ByteAt(CURRENT_REG, 1)) as real
    {
      var hi, lo := ReadMeasurement(CURRENT_REG);
      current := Reading(CurrentLsb, ToInt16(hi, lo));
    }

    /** `ReadPower`. */
    method ReadPower() returns (power: real)
      requires Valid()
      modifies i2c`log
      ensures i2c.log == old(i2c.log) + [BlockRead(POWER_REG, 2), BlockRead(MASKEN_REG, 2)]
      ensures POWER_REG !in i2c.nak ==>
        power == PowerLsb * ToInt16(i2c.ByteAt(POWER_REG, 0), i2c.ByteAt(POWER_REG, 1)) as real
    {
      var hi, lo := ReadMeasurement(POWER_REG);
      power := Reading(PowerLsb, ToInt16(hi, lo));
    }

    /** One pass of the acquisition loop: current, then voltage. */
    method ReadSample() returns (sample: Sample)
      requires Valid()
      modifies i2c`log
      ensures i2c.log == old(i2c.log) + [BlockRead(CURRENT_REG, 2), BlockRead(MASKEN_REG, 2),
                                         BlockRead(VOLTAGE_REG, 2), BlockRead(MASKEN_REG, 2)]
      ensures CURRENT_REG !in i2c.nak ==> sample.current == Reading(CurrentLsb, ToInt16(i2c.ByteAt(CURRENT_REG, 0), i2c.ByteAt(CURRENT_REG, 1)))
      ensures VOLTAGE_REG !in i2c.nak ==> sample.voltage == Reading(VoltageLsb, ToInt16(i2c.ByteAt(VOLTAGE_REG, 0), i2c.ByteAt(VOLTAGE_REG, 1)))
    {
      sample := DefaultSample;
      var current := ReadCurrent();
      var voltage := ReadVoltage();
      sample := sample.(current := current, voltage := voltage);
    }

    /** `AlertSet`: the mask/enable register becomes 0x00, then the alert's
        bit. */
    method AlertSet(alertMode: AlertConf := CNVR) returns (status: Status)
      requires Valid()
      modifies i2c`cells, i2c`log
      ensures i2c.log == old(i2c.log) + [BlockWrite(MASKEN_REG, [0x00, alertMode as bv8])]
      ensures status == (if MASKEN_REG in i2c.nak then Error else Success)
      ensures i2c.cells == if status == Success then Store(old(i2c.cells), MASKEN_REG, Reg16(0x00, alertMode)) else old(i2c.cells)
    {
      var alertData := new bv8[2];
      alertData[1] := alertMode;
      alertData[0] := 0x00;
      assert alertData[..2] == [0x00, alertMode as bv8];
      status := i2c.WriteRegisterBlock(MASKEN_REG, 2, alertData);
      PokeRegister(old(i2c.cells), MASKEN_REG, alertData[..2]);
    }

    /** The configuration register was read, then written whatever the read
        returned: on success with `next`, else not at all. */
    twostate predicate RewroteConf(status: Status, next: Reg16)
      reads this, i2c
    {
      status == (if CONF_REG in i2c.nak then Error else Success) &&
      i2c.cells == (if status == Success then Store(old(i2c.cells), CONF_REG, next) else old(i2c.cells)) &&
      |i2c.log| == |old(i2c.log)| + 2 && i2c.log[..|old(i2c.log)|] == old(i2c.log) &&
      i2c.log[|old(i2c.log)|] == BlockRead(CONF_REG, 2) &&
      i2c.log[|old(i2c.log)| + 1].BlockWrite? && i2c.log[|old(i2c.log)| + 1].reg == CONF_REG
    }

    /** The two-byte block read of the configuration register into a fresh
        buffer that every setter starts with. */
    method ReadConf() returns (confReg: array<bv8>, readStatus: Status)
      requires Valid()
      modifies i2c`log
      ensures fresh(confReg) && confReg.Length == 2
      ensures i2c.log == old(i2c.log) + [BlockRead(CONF_REG, 2)]
      ensures readStatus == (if CONF_REG in i2c.nak then Error else Success)
      ensures readStatus == Success ==> Reg16(confReg[0], confReg[1]) == Conf()
    {
      confReg := new bv8[2];
      readStatus := i2c.ReadRegisterBlock(CONF_REG, 2, confReg);
    }

    /** The two-byte block write of the updated buffer back to the
        configuration register that every setter ends with. */
    method WriteConf(confReg: array<bv8>, ghost next: Reg16) returns (status: Status)
      requires Valid() && confReg.Length == 2
      requires CONF_REG !in i2c.nak ==> Reg16(confReg[0], confReg[1]) == next
      modifies i2c`cells, i2c`log
      ensures status == (if CONF_REG in i2c.nak then Error else Success)
      ensures i2c.cells == if status == Success then Store(old(i2c.cells), CONF_REG, next) else old(i2c.cells)
      ensures i2c.log == old(i2c.log) + [BlockWrite(CONF_REG, confReg[..])]
    {
      status := i2c.WriteRegisterBlock(CONF_REG, 2, confReg);
      assert confReg[..2] == confReg[..];
      PokeRegister(old(i2c.cells), CONF_REG, confReg[..]);
    }

    /** `CurrentConvTime`. */
    method CurrentConvTime(convertTime: ConvTime := TU140) returns (status: Status)
      requires Valid()
      modifies i2c`cells, i2c`log
      ensures RewroteConf(status, WithCurrentTime(old(Conf()), convertTime))
    {
      var confReg, readStatus := ReadConf();
      confReg[1] := confReg[1] & !0x38;
      confReg[1] := confReg[1] | (convertTime << 3);
      status := WriteConf(confReg, WithCurrentTime(old(Conf()), convertTime));
    }

    /** `VoltageConvTime` as written: the code shifted left by two is ORed
        into byte 0, so codes above 3 lose their high bit and every code
        spills into the averaging field or reserved bit 12
        (`VoltageTimeAsWrittenCorrupts`). */
    method VoltageConvTime(convertTime: ConvTime := TU140) returns (status: Status)
      requires Valid()
      modifies i2c`cells, i2c`log
      ensures RewroteConf(status, WithVoltageTimeAsWritten(old(Conf()), convertTime))
    {
      var confReg, readStatus := ReadConf();
      confReg[1] := confReg[1] & !0xC0;
      confReg[0] := confReg[0] & !0x01;
      var lsbTime := convertTime % 4;
      var msbTime := convertTime << 2;
      confReg[1] := confReg[1] | (lsbTime << 6);
      confReg[0] := confReg[0] | msbTime;
      status := WriteConf(confReg, WithVoltageTimeAsWritten(old(Conf()), convertTime));
    }

    /** `OperatingMode`. */
    method OperatingMode(operateMode: OpMode := PDTRIG) returns (status: Status)
      requires Valid()
      modifies i2c`cells, i2c`log
      ensures RewroteConf(status, WithOperatingMode(old(Conf()), operateMode))
    {
      var confReg, readStatus := ReadConf();
      confReg[1] := confReg[1] & !0x07;
      confReg[1] := confReg[1] | operateMode;
      status := WriteConf(confReg, WithOperatingMode(old(Conf()), operateMode));
    }

    /** `AveragingMode`. */
    method AveragingMode(aveSetting: AveMode := AV1) returns (status: Status)
      requires Valid()
      modifies i2c`cells, i2c`log
      ensures RewroteConf(status, WithAveraging(old(Conf()), aveSetting))
    {
      var confReg, readStatus := ReadConf();
      confReg[0] := confReg[0] & !0x0E;
      confReg[0] := confReg[0] | (aveSetting << 1);
      status := WriteConf(confReg, WithAveraging(old(Conf()), aveSetting));
    }

    /** `InitializeSensor`: alert, current time, voltage time, averaging and
        mode, stopping at the first step that fails.  The alert lives in the
        mask/enable register and the rest in the configuration register, so
        the outcome depends on which of the two the device acknowledges. */
    method InitializeSensor(alertMode: AlertConf := CNVR, voltConvTime: ConvTime := TU140,
                            currConvTime: ConvTime := TU140, averagingMode: AveMode := AV1,
                            operatingMode: OpMode := CURVOLCONT) returns (status: Status)
      requires Valid()
      modifies i2c`cells, i2c`log
      ensures status == (if MASKEN_REG in i2c.nak || CONF_REG in i2c.nak then Error else Success)
      ensures MASKEN_REG in i2c.nak ==> i2c.cells == old(i2c.cells)
      ensures MASKEN_REG !in i2c.nak && CONF_REG in i2c.nak ==>
        i2c.cells == Store(old(i2c.cells), MASKEN_REG, Reg16(0x00, alertMode))
      ensures status == Success ==>
        i2c.cells == Store(Store(old(i2c.cells), MASKEN_REG, Reg16(0x00, alertMode)), CONF_REG,
                           ConfiguredAsWritten(old(Conf()), voltConvTime, currConvTime, averagingMode, operatingMode))
    {
      status := AlertSet(alertMode);
      ghost var alerted := i2c.cells;
      ghost var c := old(Conf());
      if status == Success {
        StoreThenLoad(old(i2c.cells), MASKEN_REG, Reg16(0x00, alertMode), CONF_REG);
        status := CurrentConvTime(currConvTime);
      }
      ghost var c1 := WithCurrentTime(c, currConvTime);
      if status == Success {
        StoreThenLoad(alerted, CONF_REG, c1, CONF_REG);
        status := VoltageConvTime(voltConvTime);
        StoreTwice(alerted, CONF_REG, c1, WithVoltageTimeAsWritten(c1, voltConvTime));
      }
      ghost var c2 := WithVoltageTimeAsWritten(c1, voltConvTime);
      if status == Success {
        StoreThenLoad(alerted, CONF_REG, c2, CONF_REG);
        status := AveragingMode(averagingMode);
        StoreTwice(alerted, CONF_REG, c2, WithAveraging(c2, averagingMode));
      }
      ghost var c3 := WithAveraging(c2, averagingMode);
      if status == Success {
        StoreThenLoad(alerted, CONF_REG, c3, CONF_REG);
        status := OperatingMode(operatingMode);
        StoreTwice(alerted, CONF_REG, c3, WithOperatingMode(c3, operatingMode));
      }
    }
  }
}
