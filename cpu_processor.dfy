/** The execution half of the CPU (src/helpers/cpu_processor.rs): the routines for the
    instruction kinds the emulator executes so far, the dispatch table from kind to
    routine, and the tri-state flag update `set_flags`. */
module CpuProcessor {
  import Wrappers
  import opened Enums
  import opened Registers
  import opened Cpu
  import Common

  /** The routines of the dispatch table. */
  datatype Routine = ProcessNone | ProcessNop | ProcessLd | ProcessJp | ProcessDi | ProcessXor

  /** The instruction kind each routine is registered for. */
  function KindOf(r: Routine): InstructionType
  {
    match r
    case ProcessNone => InstructionType.None
    case ProcessNop => Nop
    case ProcessLd => Ld
    case ProcessJp => Jp
    case ProcessDi => Di
    case ProcessXor => Xor
  }

  /** `get_processor_by_instruction_type`: a routine for NONE, NOP, LD, JP, DI and XOR,
      each registered for that kind; every other kind panics. */
  function ProcessorByInstructionType(t: InstructionType): (r: Wrappers.Option<Routine>)
    ensures r.Some? <==> t in {InstructionType.None, Nop, Ld, Jp, Di, Xor}
    ensures r.Some? ==> KindOf(r.value) == t
  {
    match t
    case None => Wrappers.Some(ProcessNone)
    case Nop => Wrappers.Some(ProcessNop)
    case Ld => Wrappers.Some(ProcessLd)
    case Jp => Wrappers.Some(ProcessJp)
    case Di => Wrappers.Some(ProcessDi)
    case Xor => Wrappers.Some(ProcessXor)
    case _ => Wrappers.None
  }

  /** Every routine is what the table gives for its own kind, so the table and
      `KindOf` are inverse on the six handled kinds. */
  lemma DispatchRoundTrip(r: Routine)
    ensures ProcessorByInstructionType(KindOf(r)) == Wrappers.Some(r)
  {
  }

  /** The tri-state update of one flag bit that `set_flags` asks for with argument
      `arg`: -1 leaves bit `b` as it is, any other value sets it exactly when `arg` is 1.
      The other seven bits are kept. */
  function FlagUpdate(f: bv8, b: nat, arg: int): (r: bv8)
    requires b < 8
    ensures arg == -1 ==> r == f
    ensures arg != -1 ==> Common.Bit(r, b) == (arg == 1)
    ensures forall j: nat :: j < 8 && j != b ==> Common.Bit(r, j) == Common.Bit(f, j)
  {
    if arg != -1 then
      var r := Common.SetBit(f, b, arg == 1);
      forall j: nat | j < 8 && j != b
        ensures Common.Bit(r, j) == Common.Bit(f, j)
      {
        Common.SetBitKeepsOthers(f, b, arg == 1, j);
      }
      r
    else f
  }

  /** The F register `set_flags(z, n, h, c)` would leave if each `set_bit` result were
      stored back: Z, N, H and C (bits 7 to 4) each updated by `FlagUpdate`. */
  function IntendedFlags(f: bv8, z: int, n: int, h: int, c: int): bv8
  {
    FlagUpdate(FlagUpdate(FlagUpdate(FlagUpdate(f, 7, z), 6, n), 5, h), 4, c)
  }

  /** Under the intended reading each flag is left alone for -1 and otherwise set
      exactly for 1. */
  lemma IntendedFlagsTriState(regs: Registers, z: int, n: int, h: int, c: int)
    ensures var r := regs.(f := IntendedFlags(regs.f, z, n, h, c));
      && (if z == -1 then r.FlagZ() == regs.FlagZ() else r.FlagZ() == (z == 1))
      && (if n == -1 then r.FlagN() == regs.FlagN() else r.FlagN() == (n == 1))
      && (if h == -1 then r.FlagH() == regs.FlagH() else r.FlagH() == (h == 1))
      && (if c == -1 then r.FlagC() == regs.FlagC() else r.FlagC() == (c == 1))
  {
    var f1 := FlagUpdate(regs.f, 7, z);
    var f2 := FlagUpdate(f1, 6, n);
    var f3 := FlagUpdate(f2, 5, h);
    var f4 := FlagUpdate(f3, 4, c);
    assert Common.Bit(f4, 7) == Common.Bit(f1, 7);
    assert Common.Bit(f4, 6) == Common.Bit(f2, 6);
    assert Common.Bit(f4, 5) == Common.Bit(f3, 5);
  }

  /** The intended update never touches the low nibble of F. */
  lemma IntendedFlagsKeepLowNibble(f: bv8, z: int, n: int, h: int, c: int)
    ensures forall j: nat :: j < 4 ==> Common.Bit(IntendedFlags(f, z, n, h, c), j) == Common.Bit(f, j)
  {
  }

  /** `set_flags` as written: each `set_bit` result is computed from F and discarded,
      so F leaves the call as it came in, whatever the arguments. */
  function SetFlags(f: bv8, z: int, n: int, h: int, c: int): (r: bv8)
    ensures r == f
  {
    var discardedZ := if z != -1 then Common.SetBit(f, 7, z == 1) else f;
    var discardedN := if n != -1 then Common.SetBit(f, 6, n == 1) else f;
    var discardedH := if h != -1 then Common.SetBit(f, 5, h == 1) else f;
    var discardedC := if c != -1 then Common.SetBit(f, 4, c == 1) else f;
    f
  }

  /** The call in `process_xor` on a zero result with Z clear shows the difference: the
      intended update sets Z, `set_flags` as written leaves it clear. */
  lemma SetFlagsLeavesZeroFlagClear()
    ensures !Registers(0, 0, 0, 0, 0, 0, 0, 0, 0, 0).(f := SetFlags(0, 1, 0, 0, 0)).FlagZ()
    ensures Registers(0, 0, 0, 0, 0, 0, 0, 0, 0, 0).(f := IntendedFlags(0, 1, 0, 0, 0)).FlagZ()
  {
    IntendedFlagsTriState(Registers(0, 0, 0, 0, 0, 0, 0, 0, 0, 0), 1, 0, 0, 0);
  }

  /** A after `process_xor`: A XOR the low byte of the fetched operand (`as u8 & 0xFF`).
      The result is zero exactly when the two agree, and XOR with the same operand
      undoes it. */
  function Xored(a: bv8, fetched: bv16): (r: bv8)
    ensures r == 0 <==> a == Common.LowByte(fetched)
    ensures r ^ Common.LowByte(fetched) == a
  {
    a ^ Common.LowByte(fetched)
  }

  /** XOR of A with itself, as `XOR A` with A fetched, clears A; only the low byte of
      the operand matters. */
  lemma XorWithSelf(a: bv8, high: bv8)
    ensures Xored(a, a as bv16) == 0
    ensures Xored(a, Common.Word(high, a)) == 0
  {
    Common.WordRoundTrip(0, high, a);
  }

  /** `process_none`: the invalid-instruction message only; no state changes. */
  method ProcessNoneRoutine(cpu: Cpu)
  {
  }

  /** `process_nop`, `process_ld` and `process_jp`: empty stubs; no state changes. */
  method ProcessStub(cpu: Cpu)
  {
  }

  /** `process_di`: interrupts are disabled (IME false); nothing else changes. */
  method ProcessDiRoutine(cpu: Cpu)
    modifies cpu`intMasterEnabled
    ensures !cpu.intMasterEnabled
  {
    cpu.intMasterEnabled := false;
  }

  /** `process_xor`: A := A XOR the low byte of the operand, then `set_flags(a == 0, 0,
      0, 0)`, which as written leaves F unchanged; nothing else changes. */
  method ProcessXorRoutine(cpu: Cpu)
    modifies cpu`registers
    ensures cpu.registers == old(cpu.registers).(a := Xored(old(cpu.registers.a), cpu.fetchedData))
  {
    var a := Xored(cpu.registers.a, cpu.fetchedData);
    var f := SetFlags(cpu.registers.f, if a == 0 then 1 else 0, 0, 0, 0);
    cpu.registers := cpu.registers.(a := a, f := f);
  }

  /** The state after `execute` for a kind with a routine: DI turns IME off, XOR
      replaces A by `Xored`, every other routine leaves the state as it is. */
  ghost function Executed(s: CpuState): (t: CpuState)
  {
    match s.instruction.insType
    case Di => s.(intMasterEnabled := false)
    case Xor => s.(registers := s.registers.(a := Xored(s.registers.a, s.fetchedData)))
    case _ => s
  }

  /** `execute`: look up the routine for the instruction's kind and run it. An
      unhandled kind fails (the source panics). DI clears IME, XOR updates A, and the
      other routines change nothing; no routine moves PC. */
  method Execute(cpu: Cpu) returns (ok: bool)
    modifies cpu`registers, cpu`intMasterEnabled
    ensures ok ==> cpu.State() == Executed(old(cpu.State()))
    ensures ok <==> cpu.instruction.insType in {InstructionType.None, Nop, Ld, Jp, Di, Xor}
    ensures cpu.registers.pc == old(cpu.registers.pc)
    ensures cpu.instruction.insType == Di ==> !cpu.intMasterEnabled && cpu.registers == old(cpu.registers)
    ensures cpu.instruction.insType == Xor ==>
      (cpu.intMasterEnabled == old(cpu.intMasterEnabled)
       && cpu.registers == old(cpu.registers).(a := Xored(old(cpu.registers.a), cpu.fetchedData)))
    ensures cpu.instruction.insType != Di && cpu.instruction.insType != Xor ==>
      (cpu.intMasterEnabled == old(cpu.intMasterEnabled) && cpu.registers == old(cpu.registers))
  {
    var routine := ProcessorByInstructionType(cpu.instruction.insType);
    if routine.None? {
      return false;
    }
    ok := true;
    match routine.value
    case ProcessNone =>
      ProcessNoneRoutine(cpu);
    case ProcessNop | ProcessLd | ProcessJp =>
      ProcessStub(cpu);
    case ProcessDi =>
      ProcessDiRoutine(cpu);
    case ProcessXor =>
      ProcessXorRoutine(cpu);
  }
}
