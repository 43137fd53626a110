/** Bit helpers shared by the CPU, the LCD and the flag accessors (src/modules/common.rs). */
module Common {

  /** A `u8` as an integer, where the model does arithmetic on bytes rather than bit
      operations: opcodes, cartridge bytes, RAM contents. */
  type Byte = x: int | 0 <= x < 0x100

  /** A `u16` as an integer: the addresses of the memory devices. */
  type UInt16 = x: int | 0 <= x < 0x1_0000

  /** `bit`: whether bit `b` of `value` is set. The source shifts a `u8` by `b`, so `b`
      is below 8. The result is the low bit of `value` shifted right by `b`. */
  function Bit(value: bv8, b: nat): (r: bool)
    requires b < 8
    ensures r <==> (value >> b) & 1 == 1
  {
    value & (1 << b) != 0
  }

  /** `set_bit`: `value` with bit `b` forced to `on`; every other bit is kept. */
  function SetBit(value: bv8, b: nat, on: bool): (r: bv8)
    requires b < 8
    ensures Bit(r, b) == on
    ensures r & !(1 << b) == value & !(1 << b)
  {
    if on then value | (1 << b) else value & !(1 << b)
  }

  /** `between`: `min <= value <= max`, inclusive at both ends. */
  function Between(value: bv8, min: bv8, max: bv8): (r: bool)
    ensures r ==> min <= max
    ensures value == min || value == max ==> (r <==> min <= max)
  {
    value >= min && value <= max
  }

  /** Setting a bit a second time to the same value changes nothing. */
  lemma SetBitIdempotent(value: bv8, b: nat, on: bool)
    requires b < 8
    ensures SetBit(SetBit(value, b, on), b, on) == SetBit(value, b, on)
  {
  }

  /** The bits other than `b` are exactly those of `value`. */
  lemma SetBitKeepsOthers(value: bv8, b: nat, on: bool, j: nat)
    requires b < 8 && j < 8 && j != b
    ensures Bit(SetBit(value, b, on), j) == Bit(value, j)
  {
  }

  /** Setting a bit and then setting it back restores the byte when it held that value. */
  lemma SetBitRestores(value: bv8, b: nat)
    requires b < 8
    ensures SetBit(SetBit(value, b, !Bit(value, b)), b, Bit(value, b)) == value
  {
  }

  /** The 16-bit word `hi << 8 | lo`, the way the CPU joins a register pair and a
      little-endian operand. */
  function Word(hi: bv8, lo: bv8): (w: bv16)
    ensures w >> 8 == hi as bv16
    ensures w & 0xFF == lo as bv16
  {
    ((hi as bv16) << 8) | (lo as bv16)
  }

  /** `(w >> 8) & 0xFF` as a `u8`. */
  function HighByte(w: bv16): (b: bv8)
    ensures b as bv16 == w >> 8
  {
    ((w >> 8) & 0xFF) as bv8
  }

  /** `w & 0xFF` as a `u8`. */
  function LowByte(w: bv16): (b: bv8)
    ensures b as bv16 == w & 0xFF
  {
    (w & 0xFF) as bv8
  }

  /** Splitting a word into its bytes and joining them again gives the word back, and
      joining two bytes and splitting the result gives the bytes back. */
  lemma WordRoundTrip(w: bv16, hi: bv8, lo: bv8)
    ensures Word(HighByte(w), LowByte(w)) == w
    ensures HighByte(Word(hi, lo)) == hi && LowByte(Word(hi, lo)) == lo
  {
  }
}
