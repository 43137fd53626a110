/** One CPU step (src/modules/cpu.rs `execute` and `step`): unless halted, fetch the
    opcode at PC, resolve its operand with the `fetch_data` of the same file, and run
    the routine for its kind. */
module CpuStep {
  import Wrappers
  import opened Enums
  import opened Registers
  import opened Instruction
  import opened Memory
  import opened Cpu
  import CpuUtil
  import CpuProcessor

  /** The kinds for which `get_processor_by_instruction_type` has a routine. */
  predicate HasRoutine(ins: Instruction)
  {
    ins.insType in {InstructionType.None, Nop, Ld, Jp, Di, Xor}
  }

  /** The opcode at `pc` can be fetched without the non-wrapping `pc += 1` of
      `fetch_instruction` overflowing, and the immediate operand of its mode fits after
      it. */
  ghost predicate Steppable(mem: Bytes, pc: bv16)
  {
    Total(mem) && pc < 0xFFFF
    && OperandFits(InstructionByOpcode(Read(mem, pc) as int).addrMode, pc + 1)
  }

  /** The state after `fetch_instruction`: the opcode at PC and its descriptor, PC one
      further. */
  ghost function Decoded(s: CpuState): (t: CpuState)
    requires Total(s.mem) && s.registers.pc < 0xFFFF
  {
    var opcode := Read(s.mem, s.registers.pc) as int;
    s.(opcode := opcode, instruction := InstructionByOpcode(opcode),
       registers := s.registers.(pc := s.registers.pc + 1))
  }

  /** `fetch_data` followed by `execute` on a decoded state; `None` where the source
      panics, because the mode is not handled or the kind has no routine. */
  ghost function FetchedAndExecuted(s: CpuState): (t: Wrappers.Option<CpuState>)
    requires Total(s.mem) && OperandFits(s.instruction.addrMode, s.registers.pc)
  {
    if EarlyFetchAccepts(s.instruction) && HasRoutine(s.instruction) then
      Wrappers.Some(CpuProcessor.Executed(EarlyFetched(s)))
    else
      Wrappers.None
  }

  /** The state after `step`: a halted CPU is left alone, otherwise the instruction at
      PC is decoded, its operand fetched and its routine run; `None` where the source
      panics. */
  ghost function Stepped(s: CpuState): (t: Wrappers.Option<CpuState>)
    requires !s.halted ==> Steppable(s.mem, s.registers.pc)
  {
    if s.halted then Wrappers.Some(s) else FetchedAndExecuted(Decoded(s))
  }

  /** What `execute` changes, for a kind with a routine: XOR replaces A by A XOR the
      operand, DI turns IME off, and every other field keeps its value. */
  lemma ExecutedEffects(f: CpuState)
    ensures var t := CpuProcessor.Executed(f);
      t.registers == f.registers.(a := if f.instruction.insType == Xor
                                       then CpuProcessor.Xored(f.registers.a, f.fetchedData)
                                       else f.registers.a)
    ensures var t := CpuProcessor.Executed(f);
      t.intMasterEnabled == (f.instruction.insType != Di && f.intMasterEnabled)
    ensures var t := CpuProcessor.Executed(f);
      t == f.(registers := t.registers, intMasterEnabled := t.intMasterEnabled)
  {
  }

  /** What one instruction does once decoded, when neither `fetch_data` nor `execute`
      panics: PC moves past the immediate bytes of the mode; the operand is the byte at
      PC for RD8, the little-endian word at PC for D16, the named register for R and
      the previous operand for the implied mode; XOR replaces A by A XOR that operand
      and DI turns IME off; the destination is cleared; every other register and field,
      memory and the descriptor included, keeps its value. */
  lemma FetchedAndExecutedEffects(d: CpuState)
    requires Total(d.mem) && OperandFits(d.instruction.addrMode, d.registers.pc)
    requires FetchedAndExecuted(d).Some?
    ensures var t := FetchedAndExecuted(d).value;
      t.registers.pc == d.registers.pc + ImmediateBytes(d.instruction.addrMode)
    ensures var t := FetchedAndExecuted(d).value; var pc := d.registers.pc;
      (d.instruction.addrMode == Rd8 ==> t.fetchedData == Read(d.mem, pc) as bv16)
      && (d.instruction.addrMode == D16 ==> t.fetchedData == Immediate16(d.mem, pc))
      && (d.instruction.addrMode == R ==>
            t.fetchedData == CpuUtil.ReadRegister(d.registers, d.instruction.reg1).value)
      && (d.instruction.addrMode == Imp ==> t.fetchedData == d.fetchedData)
    ensures var t := FetchedAndExecuted(d).value;
      t.registers.a == (if d.instruction.insType == Xor then CpuProcessor.Xored(d.registers.a, t.fetchedData)
                        else d.registers.a)
      && t.intMasterEnabled == (d.instruction.insType != Di && d.intMasterEnabled)
    ensures var t := FetchedAndExecuted(d).value;
      t.registers.(pc := d.registers.pc, a := d.registers.a) == d.registers
    ensures var t := FetchedAndExecuted(d).value;
      t == d.(registers := t.registers, fetchedData := t.fetchedData, memDest := 0,
              destIsMem := false, intMasterEnabled := t.intMasterEnabled)
  {
    ExecutedEffects(EarlyFetched(d));
  }

  /** A step of a running CPU fails exactly when `fetch_data` rejects the decoded mode
      or no routine exists for its kind; a halted CPU never fails and stays as it is. */
  lemma SteppedFailsExactly(s: CpuState)
    requires !s.halted ==> Steppable(s.mem, s.registers.pc)
    ensures s.halted ==> Stepped(s) == Wrappers.Some(s)
    ensures !s.halted ==>
      var ins := InstructionByOpcode(Read(s.mem, s.registers.pc) as int);
      (Stepped(s).None? <==> !(EarlyFetchAccepts(ins) && HasRoutine(ins)))
  {
  }

  /** `step`. The result is always true; the new state is `Stepped` of the old one, and
      the step fails (the source panics) exactly when `Stepped` gives none. */
  method Step(cpu: Cpu, pc: bv16) returns (running: bool, ok: bool)
    requires cpu.registers.pc == pc
    requires !cpu.halted ==> Steppable(cpu.mem, pc)
    modifies cpu
    ensures running
    ensures ok <==> Stepped(old(cpu.State())).Some?
    ensures ok ==> cpu.State() == Stepped(old(cpu.State())).value
  {
    running := true;
    ok := true;
    if cpu.halted {
      return;
    }
    ok := RunInstruction(cpu, pc);
  }

  /** The body of `step` for a CPU that is not halted: `fetch_instruction` leaves
      `Decoded` of the old state, then `FetchAndExecute` runs on it. */
  method RunInstruction(cpu: Cpu, pc: bv16) returns (ok: bool)
    requires cpu.registers.pc == pc && Steppable(cpu.mem, pc)
    modifies cpu`opcode, cpu`instruction, cpu`registers, cpu`memDest, cpu`destIsMem
    modifies cpu`fetchedData, cpu`intMasterEnabled
    ensures ok <==> FetchedAndExecuted(Decoded(old(cpu.State()))).Some?
    ensures ok ==> cpu.State() == FetchedAndExecuted(Decoded(old(cpu.State()))).value
  {
    ghost var s := cpu.State();
    cpu.FetchInstruction(pc);
    assert cpu.State() == Decoded(s);
    ok := FetchAndExecute(cpu, pc + 1);
  }

  /** The second half of `step`, once the descriptor is decoded: resolve the operand
      with the early `fetch_data` at `pc` (the PC after the opcode) and, if that
      succeeds, run the routine. */
  method FetchAndExecute(cpu: Cpu, pc: bv16) returns (ok: bool)
    requires Total(cpu.mem) && cpu.registers.pc == pc && OperandFits(cpu.instruction.addrMode, pc)
    modifies cpu`registers, cpu`memDest, cpu`destIsMem, cpu`fetchedData, cpu`intMasterEnabled
    ensures ok <==> FetchedAndExecuted(old(cpu.State())).Some?
    ensures ok ==> cpu.State() == FetchedAndExecuted(old(cpu.State())).value
  {
    ok := FetchOperand(cpu, pc);
    if !ok {
      return;
    }
    ok := CpuProcessor.Execute(cpu);
  }

  /** The early `fetch_data` seen on the whole CPU state: it fails exactly for the
      modes it does not accept, and otherwise leaves `EarlyFetched` of the old state. */
  method FetchOperand(cpu: Cpu, pc: bv16) returns (ok: bool)
    requires Total(cpu.mem) && cpu.registers.pc == pc && OperandFits(cpu.instruction.addrMode, pc)
    modifies cpu`registers, cpu`memDest, cpu`destIsMem, cpu`fetchedData
    ensures ok <==> EarlyFetchAccepts(cpu.instruction)
    ensures ok ==> cpu.State() == EarlyFetched(old(cpu.State()))
  {
    if cpu.instruction.addrMode == D16 {
      ok := FetchWordOperand(cpu, pc);
    } else {
      ok := FetchShortOperand(cpu, pc);
    }
  }

  /** `FetchOperand` for a 16-bit immediate. */
  method FetchWordOperand(cpu: Cpu, pc: bv16) returns (ok: bool)
    requires Total(cpu.mem) && cpu.registers.pc == pc && cpu.instruction.addrMode == D16 && pc < 0xFFFE
    modifies cpu`registers, cpu`memDest, cpu`destIsMem, cpu`fetchedData
    ensures ok && cpu.State() == EarlyFetched(old(cpu.State()))
  {
    ghost var s := cpu.State();
    ok := cpu.FetchData(pc);
    EarlyFetchedD16(s, cpu.State());
  }

  /** `FetchOperand` for the other modes. */
  method FetchShortOperand(cpu: Cpu, pc: bv16) returns (ok: bool)
    requires Total(cpu.mem) && cpu.registers.pc == pc && cpu.instruction.addrMode != D16
    requires OperandFits(cpu.instruction.addrMode, pc)
    modifies cpu`registers, cpu`memDest, cpu`destIsMem, cpu`fetchedData
    ensures ok <==> EarlyFetchAccepts(cpu.instruction)
    ensures ok ==> cpu.State() == EarlyFetched(old(cpu.State()))
  {
    ghost var s := cpu.State();
    ok := cpu.FetchData(pc);
    if !ok {
      return;
    }
    EarlyFetchedFrom(s, cpu.State());
  }

  /** What `Cpu.FetchData` promises, for a mode it accepts, amounts to `EarlyFetched`:
      the destination cleared, the operand of the mode fetched and PC past its
      immediate bytes, with every other field as it was. */
  lemma EarlyFetchedFrom(s: CpuState, t: CpuState)
    requires Total(s.mem) && EarlyFetchAccepts(s.instruction)
    requires OperandFits(s.instruction.addrMode, s.registers.pc)
    requires t == s.(registers := t.registers, fetchedData := t.fetchedData, memDest := 0, destIsMem := false)
    requires s.instruction.addrMode in {Imp, R} ==> t.registers == s.registers
    requires s.instruction.addrMode == R ==>
      t.fetchedData == CpuUtil.ReadRegister(s.registers, s.instruction.reg1).value
    requires s.instruction.addrMode == Imp ==> t.fetchedData == s.fetchedData
    requires s.instruction.addrMode == Rd8 ==>
      t.fetchedData == Read(s.mem, s.registers.pc) as bv16 && t.registers == s.registers.(pc := s.registers.pc + 1)
    requires s.instruction.addrMode == D16 ==>
      t.fetchedData == Immediate16(s.mem, s.registers.pc) && t.registers == s.registers.(pc := s.registers.pc + 2)
    ensures t == EarlyFetched(s)
  {
    match s.instruction.addrMode {
      case Imp => EarlyFetchedImp(s, t);
      case R => EarlyFetchedRegister(s, t);
      case Rd8 => EarlyFetchedRd8(s, t);
      case D16 => EarlyFetchedD16(s, t);
    }
  }

  /** For the implied mode, `fetch_data` leaves `EarlyFetched` when only the
      destination is cleared. */
  lemma EarlyFetchedImp(s: CpuState, t: CpuState)
    requires Total(s.mem) && s.instruction.addrMode == Imp
    requires t == s.(memDest := 0, destIsMem := false)
    ensures t == EarlyFetched(s)
  {
  }

  /** For a register operand, `fetch_data` leaves `EarlyFetched` when the operand is the
      named register and only the destination is cleared besides. */
  lemma EarlyFetchedRegister(s: CpuState, t: CpuState)
    requires Total(s.mem) && s.instruction.addrMode == R && s.instruction.reg1 != RegisterType.None
    requires t == s.(fetchedData := CpuUtil.ReadRegister(s.registers, s.instruction.reg1).value,
                     memDest := 0, destIsMem := false)
    ensures t == EarlyFetched(s)
  {
  }

  /** For an 8-bit immediate, `fetch_data` leaves `EarlyFetched` when the operand is the
      byte at PC, PC moves one on, and the destination is cleared. */
  lemma EarlyFetchedRd8(s: CpuState, t: CpuState)
    requires Total(s.mem) && s.instruction.addrMode == Rd8 && s.registers.pc < 0xFFFF
    requires t == s.(registers := s.registers.(pc := s.registers.pc + 1),
                     fetchedData := Read(s.mem, s.registers.pc) as bv16, memDest := 0, destIsMem := false)
    ensures t == EarlyFetched(s)
  {
  }

  /** For a 16-bit immediate, `fetch_data` leaves `EarlyFetched` when the operand is the
      little-endian word at PC, PC moves two on, and the destination is cleared. */
  lemma EarlyFetchedD16(s: CpuState, t: CpuState)
    requires Total(s.mem) && s.instruction.addrMode == D16 && s.registers.pc < 0xFFFE
    requires t == s.(registers := s.registers.(pc := s.registers.pc + 2),
                     fetchedData := Immediate16(s.mem, s.registers.pc), memDest := 0, destIsMem := false)
    ensures t == EarlyFetched(s)
  {
  }
}
