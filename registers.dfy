/** The CPU register file (src/modules/registers.rs): eight 8-bit registers, PC and SP,
    and the four flag accessors on F. */
module Registers {
  import Common

  datatype Registers = Registers(
    a: bv8, f: bv8, b: bv8, c: bv8, d: bv8, e: bv8, h: bv8, l: bv8,
    pc: bv16, sp: bv16)
  {
    /** Zero flag: bit 7 of F. */
    function FlagZ(): (r: bool)
      ensures r <==> f & 0x80 != 0
    {
      Common.Bit(f, 7)
    }

    /** Subtract flag: bit 6 of F. */
    function FlagN(): (r: bool)
      ensures r <==> f & 0x40 != 0
    {
      Common.Bit(f, 6)
    }

    /** Half-carry flag: bit 5 of F. */
    function FlagH(): (r: bool)
      ensures r <==> f & 0x20 != 0
    {
      Common.Bit(f, 5)
    }

    /** Carry flag: bit 4 of F. */
    function FlagC(): (r: bool)
      ensures r <==> f & 0x10 != 0
    {
      Common.Bit(f, 4)
    }
  }

  /** `Registers::new`: every register, PC and SP zero. */
  function New(): (r: Registers)
    ensures r.a == r.f == r.b == r.c == r.d == r.e == r.h == r.l == 0
    ensures r.pc == 0 && r.sp == 0
    ensures !r.FlagZ() && !r.FlagN() && !r.FlagH() && !r.FlagC()
  {
    Registers(0, 0, 0, 0, 0, 0, 0, 0, 0, 0)
  }

  /** The four flags occupy the high nibble of F: clearing it clears them all, and the
      low nibble never affects them. */
  lemma FlagsInHighNibble(regs: Registers, low: bv8)
    requires low < 0x10
    ensures var r := regs.(f := (regs.f & 0xF0) | low);
      r.FlagZ() == regs.FlagZ() && r.FlagN() == regs.FlagN()
      && r.FlagH() == regs.FlagH() && r.FlagC() == regs.FlagC()
  {
  }
}
