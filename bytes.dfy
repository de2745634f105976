/** Byte-level helpers shared by the two sensor drivers: a big-endian pair of
    register bytes read as a C `int16_t`, and an `int16_t` split back into the
    two bytes that are written to a high/low register pair. */
module Bytes {

  /** The values of a C `int16_t`. */
  type Int16 = x: int | -0x8000 <= x < 0x8000

  /** The `int16_t` obtained from `(hi << 8) | lo`: the unsigned word, read
      in two's complement. */
  function ToInt16(hi: bv8, lo: bv8): (v: Int16)
    ensures v % 0x1_0000 == hi as int * 0x100 + lo as int
    ensures v < 0 <==> hi as int >= 0x80
  {
    Signed16(hi as int * 0x100 + lo as int)
  }

  /** A 16-bit unsigned word read in two's complement. */
  function Signed16(w: int): (v: Int16)
    requires 0 <= w < 0x1_0000
    ensures v % 0x1_0000 == w
    ensures v < 0 <==> w >= 0x8000
  {
    if w >= 0x8000 then w - 0x1_0000 else w
  }

  /** `(uint8_t)(v >> 8)`: the arithmetic shift keeps the sign, the cast keeps
      the low eight bits of the shifted value. */
  function HighByte(v: Int16): bv8 {
    ByteOf((v / 0x100) % 0x100)
  }

  /** `(uint8_t)(v & 0x00FF)`. */
  function LowByte(v: Int16): bv8 {
    ByteOf(v % 0x100)
  }

  /** The byte whose value is `n`, bit by bit from the top. */
  function ByteOf(n: int): (b: bv8)
    requires 0 <= n < 0x100
    ensures b as int == n
    decreases n
  {
    if n == 0 then 0
    else
      var high := ByteOf(n / 2);
      var bit: bv8 := if n % 2 == 1 then 1 else 0;
      ShiftIn(high, bit);
      (high << 1) | bit
  }

  lemma ShiftIn(high: bv8, bit: bv8)
    requires high as int < 0x80 && bit as int < 2
    ensures ((high << 1) | bit) as int == 2 * high as int + bit as int
  {
  }

  /** Splitting an `int16_t` into its two bytes and assembling them again
      gives the value back, for every `int16_t`, negative ones included. */
  lemma {:induction false} SplitThenAssemble(v: Int16)
    ensures ToInt16(HighByte(v), LowByte(v)) == v
  {
    SplitWord(v);
    Int16Unique(ToInt16(HighByte(v), LowByte(v)), v);
  }

  /** The high and low eight bits of an `int16_t`, as numbers, make up the
      value modulo 2^16. */
  lemma SplitWord(v: Int16)
    ensures v % 0x1_0000 == (v / 0x100) % 0x100 * 0x100 + v % 0x100
  {
    var q, r := v / 0x100, v % 0x100;
    DivModInt16(v);
    if q < 0 { ModNegative(q); }
  }

  /** Two `int16_t` values congruent modulo 2^16 are equal. */
  lemma Int16Unique(a: Int16, b: Int16)
    requires a % 0x1_0000 == b % 0x1_0000
    ensures a == b
  {
  }

  /** Assembling two bytes and splitting the result gives the bytes back. */
  lemma {:induction false} AssembleThenSplit(hi: bv8, lo: bv8)
    ensures HighByte(ToInt16(hi, lo)) == hi && LowByte(ToInt16(hi, lo)) == lo
  {
    var v := ToInt16(hi, lo);
    JoinWord(v, hi as int, lo as int);
    ByteUnique(HighByte(v), hi);
    ByteUnique(LowByte(v), lo);
  }

  /** The same round trip on numbers: an `int16_t` congruent to `h * 256 + l`
      modulo 2^16 has `h` as its high eight bits and `l` as its low ones. */
  lemma JoinWord(v: Int16, h: int, l: int)
    requires 0 <= h < 0x100 && 0 <= l < 0x100
    requires v % 0x1_0000 == h * 0x100 + l
    ensures (v / 0x100) % 0x100 == h && v % 0x100 == l
  {
    if v >= 0 {
      assert v == h * 0x100 + l;
    } else {
      assert v == (h - 0x100) * 0x100 + l;
      assert v / 0x100 == h - 0x100;
      ModNegative(h - 0x100);
    }
  }

  /** A byte is determined by its value. */
  lemma ByteUnique(a: bv8, b: bv8)
    requires a as int == b as int
    ensures a == b
  {
  }

  lemma DivModInt16(v: Int16)
    ensures -0x80 <= v / 0x100 < 0x80 && 0 <= v % 0x100 < 0x100
    ensures v == (v / 0x100) * 0x100 + v % 0x100
  {
  }

  lemma ModNegative(q: int)
    requires -0x100 <= q < 0
    ensures q % 0x100 == q + 0x100
  {
  }
}
