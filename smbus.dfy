/** The SMBus transport of the I2C interface: one open bus to one slave
    device, byte, word and block register transfers, the big-endian word
    variants built on the little-endian ones by a byte swap, and the 32-byte
    limit of SMBus block transfers (section 5.5.7 of the SMBus 2.0
    specification, `I2C_SMBUS_BLOCK_MAX` in Linux).

    The kernel calls are replaced by a store of byte cells.  A transfer that
    starts at register `reg` sees the cells from `reg` on for a device of 8-bit
    registers with address auto-increment (the MPU-6050), and from `2 * reg`
    on for a device of 16-bit registers sent most significant byte first (the
    INA260).  A register whose address
    the device does not acknowledge makes every transfer on it fail. */
module Smbus {

  /** `i2c_status_t`. */
  datatype Status = Success | Error | NoStatus

  /** A register address (`uint8_t regAddress`). */
  type RegAddr = r: nat | r < 0x100

  /** `I2C_SMBUS_BLOCK_MAX`: the longest SMBus block transfer, in bytes. */
  const BlockMax: nat := 32

  /** One bus transaction, as the kernel would carry it out. */
  datatype Transfer =
    | ByteRead(reg: RegAddr)
    | ByteWrite(reg: RegAddr, value: bv8)
    | WordRead(reg: RegAddr)
    | WordWrite(reg: RegAddr, word: bv16)
    | BlockRead(reg: RegAddr, length: nat)
    | BlockWrite(reg: RegAddr, bytes: seq<bv8>)

  /** `(data >> 8) | (data << 8)` on a `uint16_t`. */
  function SwapBytes(w: bv16): (r: bv16)
    ensures Low(r) == High(w) && High(r) == Low(w)
  {
    (w >> 8) | (w << 8)
  }

  /** The word whose first byte on the bus is `lo` and second is `hi`, as an
      SMBus word transfer orders them. */
  function Word(lo: bv8, hi: bv8): bv16 {
    (hi as bv16 << 8) | lo as bv16
  }

  function Low(w: bv16): bv8 {
    (w & 0xFF) as bv8
  }

  function High(w: bv16): bv8 {
    (w >> 8) as bv8
  }

  /** Swapping the two bytes twice gives the word back. */
  lemma {:induction false} SwapBytesInvolution(w: bv16)
    ensures SwapBytes(SwapBytes(w)) == w
  {
    var s := SwapBytes(w);
    WordBytes(w, 0, 0);
    WordBytes(SwapBytes(s), 0, 0);
  }

  /** A word split into the two bytes of a word transfer and assembled again
      is the same word, and the other way round. */
  lemma WordBytes(w: bv16, lo: bv8, hi: bv8)
    ensures Word(Low(w), High(w)) == w
    ensures Low(Word(lo, hi)) == lo && High(Word(lo, hi)) == hi
  {
  }

  /** The byte-swapped word is the word whose bus bytes are exchanged. */
  lemma SwapExchangesBytes(lo: bv8, hi: bv8)
    ensures SwapBytes(Word(lo, hi)) == Word(hi, lo)
  {
  }

  /** The byte in cell `c` of a store; a cell never written reads 0. */
  function Peek(cells: map<nat, bv8>, c: nat): bv8 {
    if c in cells then cells[c] else 0
  }

  /** The `n` bytes of the store starting at cell `base`. */
  function Fetch(cells: map<nat, bv8>, base: nat, n: nat): (r: seq<bv8>)
    ensures |r| == n
    ensures forall i :: 0 <= i < n ==> r[i] == Peek(cells, base + i)
  {
    seq(n, i requires 0 <= i => Peek(cells, base + i))
  }

  /** The store after `bytes` are written to the cells from `base` on. */
  function Poke(cells: map<nat, bv8>, base: nat, bytes: seq<bv8>): (r: map<nat, bv8>)
    ensures forall i :: 0 <= i < |bytes| ==> Peek(r, base + i) == bytes[i]
    ensures forall c: nat :: c < base || base + |bytes| <= c ==> Peek(r, c) == Peek(cells, c)
    decreases |bytes|
  {
    if bytes == [] then cells else Poke(cells[base := bytes[0]], base + 1, bytes[1..])
  }

  /** A block written and read back from the same cell gives the block. */
  lemma {:induction false} FetchAfterPoke(cells: map<nat, bv8>, base: nat, bytes: seq<bv8>)
    ensures Fetch(Poke(cells, base, bytes), base, |bytes|) == bytes
  {
    var r := Fetch(Poke(cells, base, bytes), base, |bytes|);
    forall i | 0 <= i < |bytes| ensures r[i] == bytes[i] {
      assert Peek(Poke(cells, base, bytes), base + i) == bytes[i];
    }
  }

  /** The word a little-endian word read returns from a store. */
  function ReadWord(cells: map<nat, bv8>, base: nat): bv16 {
    Word(Peek(cells, base), Peek(cells, base + 1))
  }

  /** The store after a little-endian word write. */
  function WriteWord(cells: map<nat, bv8>, base: nat, w: bv16): (r: map<nat, bv8>)
    ensures Peek(r, base) == Low(w) && Peek(r, base + 1) == High(w)
    ensures forall c: nat :: c != base && c != base + 1 ==> Peek(r, c) == Peek(cells, c)
  {
    cells[base := Low(w)][base + 1 := High(w)]
  }

  /** A big-endian word write followed by a big-endian word read of the same
      register gives back the word written, since the swap is an involution. */
  lemma {:induction false} BigEndianRoundTrip(cells: map<nat, bv8>, base: nat, w: bv16)
    ensures SwapBytes(ReadWord(WriteWord(cells, base, SwapBytes(w)), base)) == w
  {
    var s := SwapBytes(w);
    WordBytes(s, 0, 0);
    SwapBytesInvolution(w);
  }

  /** The SMBus transport, opened on one slave device. */
  class SmbusI2c {
    /** Whether the device's registers are 16 bits wide (two cells each)
        rather than 8 bits wide (one cell each). */
    const wide: bool
    /** Register addresses the device does not acknowledge. */
    const nak: set<RegAddr>
    /** The device's registers, cell by cell. */
    var cells: map<nat, bv8>
    /** Every transfer put on the bus, in order. */
    ghost var log: seq<Transfer>

    function Cell(reg: RegAddr, i: nat): nat {
      (if wide then 2 * reg else reg) + i
    }

    /** Byte `i` of the stream that a transfer starting at `reg` sees. */
    function ByteAt(reg: RegAddr, i: nat): bv8
      reads this
    {
      Peek(cells, Cell(reg, i))
    }

    /** `Init_I2C` when the bus opens and the slave address is accepted. */
    constructor (wide: bool, nak: set<RegAddr>, cells: map<nat, bv8>)
      ensures this.wide == wide && this.nak == nak && this.cells == cells
      ensures log == []
    {
      this.wide := wide;
      this.nak := nak;
      this.cells := cells;
      log := [];
    }

    /** `ReadRegister`: the byte at `reg`, or 0 with an error status. */
    method ReadRegister(reg: RegAddr) returns (value: bv8, status: Status)
      modifies this`log
      ensures log == old(log) + [ByteRead(reg)]
      ensures reg in nak ==> value == 0 && status == Error
      ensures reg !in nak ==> value == ByteAt(reg, 0) && status == Success
    {
      log := log + [ByteRead(reg)];
      if reg in nak {
        return 0, Error;
      }
      value := Peek(cells, Cell(reg, 0));
      status := Success;
    }

    /** `WriteRegister`: one byte to `reg`. */
    method WriteRegister(reg: RegAddr, value: bv8) returns (status: Status)
      modifies this`cells, this`log
      ensures log == old(log) + [ByteWrite(reg, value)]
      ensures status == (if reg in nak then Error else Success)
      ensures cells == if reg in nak then old(cells) else old(cells)[Cell(reg, 0) := value]
    {
      log := log + [ByteWrite(reg, value)];
      if reg in nak {
        return Error;
      }
      cells := cells[Cell(reg, 0) := value];
      status := Success;
    }

    /** `ReadRegisterWordLittleEndian`: the first byte on the bus is the low
        byte of the word; 0 with an error status on a failed read. */
    method ReadRegisterWordLittleEndian(reg: RegAddr) returns (value: bv16, status: Status)
      modifies this`log
      ensures log == old(log) + [WordRead(reg)]
      ensures reg in nak ==> value == 0 && status == Error
      ensures reg !in nak ==> value == Word(ByteAt(reg, 0), ByteAt(reg, 1)) && status == Success
    {
      log := log + [WordRead(reg)];
      if reg in nak {
        return 0, Error;
      }
      value := ReadWord(cells, Cell(reg, 0));
      status := Success;
    }

    /** `ReadRegisterWordBigEndian`: the little-endian word with its bytes
        swapped, so the first byte on the bus is the high byte. */
    method ReadRegisterWordBigEndian(reg: RegAddr) returns (value: bv16, status: Status)
      modifies this`log
      ensures log == old(log) + [WordRead(reg)]
      ensures reg in nak ==> value == 0 && status == Error
      ensures reg !in nak ==> value == Word(ByteAt(reg, 1), ByteAt(reg, 0)) && status == Success
    {
      var data;
      data, status := ReadRegisterWordLittleEndian(reg);
      value := SwapBytes(data);
      SwapExchangesBytes(ByteAt(reg, 0), ByteAt(reg, 1));
    }

    /** `WriteRegisterWordLittleEndian`: the low byte of the word goes first. */
    method WriteRegisterWordLittleEndian(reg: RegAddr, word: bv16) returns (status: Status)
      modifies this`cells, this`log
      ensures log == old(log) + [WordWrite(reg, word)]
      ensures status == (if reg in nak then Error else Success)
      ensures cells == if reg in nak then old(cells) else WriteWord(old(cells), Cell(reg, 0), word)
    {
      log := log + [WordWrite(reg, word)];
      if reg in nak {
        return Error;
      }
      cells := WriteWord(cells, Cell(reg, 0), word);
      status := Success;
    }

    /** `WriteRegisterWordBigEndian`: the word is byte-swapped and written
        little-endian, so its high byte goes first. */
    method WriteRegisterWordBigEndian(reg: RegAddr, word: bv16) returns (status: Status)
      modifies this`cells, this`log
      ensures log == old(log) + [WordWrite(reg, SwapBytes(word))]
      ensures status == (if reg in nak then Error else Success)
      ensures reg !in nak ==> ByteAt(reg, 0) == High(word) && ByteAt(reg, 1) == Low(word)
      ensures cells == if reg in nak then old(cells) else WriteWord(old(cells), Cell(reg, 0), SwapBytes(word))
    {
      status := WriteRegisterWordLittleEndian(reg, SwapBytes(word));
      WordBytes(word, 0, 0);
      SwapExchangesBytes(Low(word), High(word));
      WordBytes(SwapBytes(word), High(word), Low(word));
    }

    /** `ReadRegisterBlock`: `length` bytes from `reg` on into `data`.  A
        length over 32 is refused before the bus is touched; a failed read
        leaves the buffer as it was. */
    method ReadRegisterBlock(reg: RegAddr, length: nat, data: array<bv8>) returns (status: Status)
      requires length < 0x100
      requires length <= BlockMax ==> length <= data.Length
      modifies this`log, data
      ensures length > BlockMax ==> status == Error && log == old(log)
      ensures length <= BlockMax ==> log == old(log) + [BlockRead(reg, length)]
      ensures status == (if length > BlockMax || reg in nak then Error else Success)
      ensures status == Success ==>
        data[..length] == Fetch(cells, Cell(reg, 0), length) && data[length..] == old(data[length..])
      ensures status != Success ==> data[..] == old(data[..])
    {
      if length > BlockMax {
        return Error;
      }
      log := log + [BlockRead(reg, length)];
      if reg in nak {
        return Error;
      }
      var bytes := Fetch(cells, Cell(reg, 0), length);
      forall i | 0 <= i < length {
        data[i] := bytes[i];
      }
      status := Success;
    }

    /** `WriteRegisterBlock`: the first `length` bytes of `data` to the
        registers from `reg` on.  A length over 32 is refused before the bus
        is touched. */
    method WriteRegisterBlock(reg: RegAddr, length: nat, data: array<bv8>) returns (status: Status)
      requires length < 0x100
      requires length <= BlockMax ==> length <= data.Length
      modifies this`cells, this`log
      ensures length > BlockMax ==> status == Error && log == old(log)
      ensures length <= BlockMax ==> log == old(log) + [BlockWrite(reg, data[..length])]
      ensures status == (if length > BlockMax || reg in nak then Error else Success)
      ensures cells == if status == Success then Poke(old(cells), Cell(reg, 0), data[..length]) else old(cells)
    {
      if length > BlockMax {
        return Error;
      }
      log := log + [BlockWrite(reg, data[..length])];
      if reg in nak {
        return Error;
      }
      cells := Poke(cells, Cell(reg, 0), data[..length]);
      status := Success;
    }

    /** `ReadRegisterBit`: whether any bit of `mask` is set in `reg`. */
    method ReadRegisterBit(reg: RegAddr, mask: bv8) returns (bit: bool, status: Status)
      modifies this`log
      ensures log == old(log) + [ByteRead(reg)]
      ensures status == (if reg in nak then Error else Success)
      ensures bit == (reg !in nak && ByteAt(reg, 0) & mask != 0)
    {
      var value;
      value, status := ReadRegister(reg);
      bit := value & mask != 0;
    }

    /** `WriteRegisterBit`: read `reg`, set or clear the bits of `mask`, write
        it back; a failed read writes nothing. */
    method WriteRegisterBit(reg: RegAddr, mask: bv8, bitVal: bool) returns (status: Status)
      modifies this`cells, this`log
      ensures status == (if reg in nak then Error else Success)
      ensures reg in nak ==> cells == old(cells) && log == old(log) + [ByteRead(reg)]
      ensures reg !in nak ==>
        var v := SetBits(old(ByteAt(reg, 0)), mask, bitVal);
        cells == old(cells)[Cell(reg, 0) := v] &&
        log == old(log) + [ByteRead(reg), ByteWrite(reg, v)]
    {
      var value;
      value, status := ReadRegister(reg);
      if status != Success {
        return;
      }
      status := WriteRegister(reg, SetBits(value, mask, bitVal));
    }
  }

  /** `value` with the bits of `mask` set (`bitVal`) or cleared. */
  function SetBits(value: bv8, mask: bv8, bitVal: bool): (r: bv8)
    ensures r & mask == (if bitVal then mask else 0)
    ensures r & !mask == value & !mask
  {
    if bitVal then value | mask else value & !mask
  }
}
