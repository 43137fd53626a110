/** `read_register` (src/helpers/cpu_util.rs): the value of a register operand. */
module CpuUtil {
  import opened Wrappers
  import opened Enums
  import opened Registers
  import Common

  /** The 16-bit value of `reg`: an 8-bit register zero-extended, a pair as its high
      register shifted left by eight OR its low register, SP and PC directly. Reading
      `RegisterType::NONE` panics. */
  function ReadRegister(regs: Registers, reg: RegisterType): (r: Result<bv16>)
    ensures r.Failure? <==> reg == RegisterType.None
    ensures reg in {A, F, B, RegisterType.C, D, E, H, L} ==> r.Success? && r.value < 0x100
    ensures reg == A ==> r == Success(regs.a as bv16)
    ensures reg == F ==> r == Success(regs.f as bv16)
    ensures reg == B ==> r == Success(regs.b as bv16)
    ensures reg == RegisterType.C ==> r == Success(regs.c as bv16)
    ensures reg == D ==> r == Success(regs.d as bv16)
    ensures reg == E ==> r == Success(regs.e as bv16)
    ensures reg == H ==> r == Success(regs.h as bv16)
    ensures reg == L ==> r == Success(regs.l as bv16)
    ensures reg == Af ==> r == Success(Common.Word(regs.a, regs.f))
    ensures reg == Bc ==> r == Success(Common.Word(regs.b, regs.c))
    ensures reg == De ==> r == Success(Common.Word(regs.d, regs.e))
    ensures reg == Hl ==> r == Success(Common.Word(regs.h, regs.l))
    ensures reg == Sp ==> r == Success(regs.sp)
    ensures reg == Pc ==> r == Success(regs.pc)
  {
    match reg
    case A => Success(regs.a as bv16)
    case F => Success(regs.f as bv16)
    case B => Success(regs.b as bv16)
    case C => Success(regs.c as bv16)
    case D => Success(regs.d as bv16)
    case E => Success(regs.e as bv16)
    case H => Success(regs.h as bv16)
    case L => Success(regs.l as bv16)
    case Af => Success(Common.Word(regs.a, regs.f))
    case Bc => Success(Common.Word(regs.b, regs.c))
    case De => Success(Common.Word(regs.d, regs.e))
    case Hl => Success(Common.Word(regs.h, regs.l))
    case Sp => Success(regs.sp)
    case Pc => Success(regs.pc)
    case None => Failure("Cannot read this register")
  }

  /** A pair reads as its two halves: the high byte is the high register and the low
      byte is the low register. */
  lemma PairHalves(regs: Registers)
    ensures Common.HighByte(ReadRegister(regs, Af).value) == regs.a && Common.LowByte(ReadRegister(regs, Af).value) == regs.f
    ensures Common.HighByte(ReadRegister(regs, Bc).value) == regs.b && Common.LowByte(ReadRegister(regs, Bc).value) == regs.c
    ensures Common.HighByte(ReadRegister(regs, De).value) == regs.d && Common.LowByte(ReadRegister(regs, De).value) == regs.e
    ensures Common.HighByte(ReadRegister(regs, Hl).value) == regs.h && Common.LowByte(ReadRegister(regs, Hl).value) == regs.l
  {
    Common.WordRoundTrip(0, regs.a, regs.f);
    Common.WordRoundTrip(0, regs.b, regs.c);
    Common.WordRoundTrip(0, regs.d, regs.e);
    Common.WordRoundTrip(0, regs.h, regs.l);
  }
}
