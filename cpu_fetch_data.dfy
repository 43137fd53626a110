/** The full operand resolver `CPU::fetch_data` of src/helpers/cpu_fetch_data.rs. Every
    call clears the memory destination; each addressing mode then reads its operand
    bytes at PC through the bus, steps PC past them, joins two bytes little-endian,
    applies the 0xFF00 high-page OR for register C, or steps HL, and runs the timer for
    one machine cycle after each bus read. The timer is the CPU's `timer` field, passed
    alongside the CPU. */
module CpuFetchData {
  import opened Wrappers
  import opened Enums
  import opened Registers
  import opened Memory
  import opened Cpu
  import CpuUtil
  import Common
  import T = Timer

  /** The number of `Timer::cycles(cpu, 1)` calls a mode makes: one per bus read. */
  function MachineCycles(mode: AddressMode): (n: nat)
  {
    match mode
    case Rd8 | RmR | Rhli | Rhld | Ra8 | A8R | HlSpR | D8 | MrD8 | Mr => 1
    case Rd16 | D16 | A16R | D16R => 2
    case Ra16 => 3
    case _ => 0
  }

  /** A mode reads memory at an address computed from a register or an operand (not at
      PC). */
  predicate ReadsComputedAddress(mode: AddressMode)
  {
    mode in {RmR, Rhli, Rhld, Mr, Ra16}
  }

  /** Every bus read costs one machine cycle: the operand bytes at PC and, for the
      modes that dereference an address, one more byte. */
  lemma CyclesCountBusReads(mode: AddressMode)
    ensures MachineCycles(mode) == ImmediateBytes(mode) as int + (if ReadsComputedAddress(mode) then 1 else 0)
  {
  }

  /** The high-page OR: an address taken from register C lies in page 0xFF. */
  function HighPage(address: bv16, reg: RegisterType): (r: bv16)
    ensures reg == RegisterType.C ==> r >= 0xFF00 && r & 0xFF == address & 0xFF
    ensures reg != RegisterType.C ==> r == address
  {
    if reg == RegisterType.C then address | 0xFF00 else address
  }

  /** The HL pair read as a word, plus or minus one (wrapping), written back with
      `set_register(HL, ..)`: the high byte into H and the low byte into L. */
  function SteppedHl(regs: Registers, up: bool): (r: Registers)
    ensures r == regs.(h := r.h, l := r.l)
  {
    var hl := Common.Word(regs.h, regs.l);
    if up then regs.(h := Common.HighByte(hl + 1), l := Common.LowByte(hl + 1))
    else regs.(h := Common.HighByte(hl - 1), l := Common.LowByte(hl - 1))
  }

  /** HL read as a word moves by exactly one. */
  lemma SteppedHlMovesByOne(regs: Registers, up: bool)
    ensures var r := SteppedHl(regs, up);
      Common.Word(r.h, r.l) == if up then Common.Word(regs.h, regs.l) + 1 else Common.Word(regs.h, regs.l) - 1
  {
    var hl := Common.Word(regs.h, regs.l);
    if up {
      Common.WordRoundTrip(hl + 1, 0, 0);
    } else {
      Common.WordRoundTrip(hl - 1, 0, 0);
    }
  }

  /** Stepping HL up and then down (or down and then up) restores it. */
  lemma SteppedHlInverse(regs: Registers, up: bool)
    ensures SteppedHl(SteppedHl(regs, up), !up) == regs
  {
    var hl := Common.Word(regs.h, regs.l);
    Common.WordRoundTrip(0, regs.h, regs.l);
    if up {
      Common.WordRoundTrip(hl + 1, 0, 0);
    } else {
      Common.WordRoundTrip(hl - 1, 0, 0);
    }
  }

  /** The modes that leave a memory destination. */
  predicate WritesMemory(mode: AddressMode)
  {
    mode in {MrR, HliR, HldR, A8R, A16R, D16R, MrD8, Mr}
  }

  /** The register operands an instruction's mode reads are not `RegisterType::NONE`
      (reading NONE panics). */
  predicate NamesRegister(ins: Instruction.Instruction)
  {
    match ins.addrMode
    case R | Mr | MrD8 => ins.reg1 != RegisterType.None
    case Rr | RmR | Rhli | Rhld | A16R | D16R => ins.reg2 != RegisterType.None
    case MrR | HliR | HldR => ins.reg1 != RegisterType.None && ins.reg2 != RegisterType.None
    case _ => true
  }

  /** What `fetch_data` may assume of the CPU it runs on: memory is a full 64 KiB, `pc`
      is the PC, the non-wrapping `pc += n` past the immediate bytes does not overflow,
      and neither does the timer's `u64` counter. */
  ghost predicate Fetchable(cpu: Cpu, timer: T.Timer, pc: bv16)
    reads cpu, timer
  {
    && Total(cpu.mem) && cpu.registers.pc == pc
    && pc <= 0xFFFF - ImmediateBytes(cpu.instruction.addrMode)
    && timer.ticks + 4 * MachineCycles(cpu.instruction.addrMode) <= T.MaxTicks
  }

  /** What every arm of `fetch_data` promises, whatever its mode: it fails (the source
      panics) exactly when the mode reads a register operand that is NONE; on success PC
      has stepped past the immediate bytes, the timer has run one machine cycle per bus
      read and nothing else in it has changed, the destination flag is set exactly for
      the modes that write memory (the destination is cleared otherwise), and among the
      registers only PC changes, or H and L for the modes that step HL. */
  twostate predicate Fetched(cpu: Cpu, timer: T.Timer, pc: bv16, ok: bool)
    reads cpu, timer
  {
    var mode := cpu.instruction.addrMode;
    && (ok <==> NamesRegister(cpu.instruction))
    && (ok ==>
      && (ImmediateBytes(mode) == 0 ==> cpu.registers.pc == pc)
      && (ImmediateBytes(mode) == 1 ==> cpu.registers.pc == pc + 1)
      && (ImmediateBytes(mode) == 2 ==> cpu.registers.pc == pc + 2)
      && timer.State() == old(timer.State()).(ticks := old(timer.ticks) + 4 * MachineCycles(mode))
      && (cpu.destIsMem <==> WritesMemory(mode))
      && (!WritesMemory(mode) ==> cpu.memDest == 0)
      && (mode in {Rhli, HliR} ==> cpu.registers == SteppedHl(old(cpu.registers), true))
      && (mode in {Rhld, HldR} ==> cpu.registers == SteppedHl(old(cpu.registers), false))
      && (mode !in {Rhli, HliR, Rhld, HldR} ==> cpu.registers == old(cpu.registers).(pc := cpu.registers.pc)))
  }

  /** The operand and destination each mode leaves on success, read from the registers
      and memory as the arm for that mode reads them: the registers before the call,
      or after the PC step for A16R, D16R and MRD8, which read their register operand
      after stepping PC. */
  twostate predicate Operand(cpu: Cpu, timer: T.Timer, pc: bv16, ok: bool)
    requires Total(cpu.mem) && NamesRegister(cpu.instruction)
    reads cpu, timer
  {
    var ins := cpu.instruction;
    var regs := old(cpu.registers);
    var m := cpu.mem;
    ok ==>
      match ins.addrMode
      case Imp => cpu.fetchedData == old(cpu.fetchedData)
      case R => cpu.fetchedData == CpuUtil.ReadRegister(regs, ins.reg1).value
      case Rr => cpu.fetchedData == CpuUtil.ReadRegister(regs, ins.reg2).value
      case Rd8 | Ra8 | HlSpR | D8 => cpu.fetchedData == Read(m, pc) as bv16
      case Rd16 | D16 => cpu.fetchedData == Common.Word(Read(m, pc + 1), Read(m, pc))
      case MrR =>
        && cpu.fetchedData == CpuUtil.ReadRegister(regs, ins.reg2).value
        && cpu.memDest == HighPage(CpuUtil.ReadRegister(regs, ins.reg1).value, ins.reg1)
      case RmR => cpu.fetchedData == Read(m, HighPage(CpuUtil.ReadRegister(regs, ins.reg2).value, ins.reg2)) as bv16
      case Rhli | Rhld => cpu.fetchedData == Read(m, CpuUtil.ReadRegister(regs, ins.reg2).value) as bv16
      case HliR | HldR =>
        && cpu.fetchedData == CpuUtil.ReadRegister(regs, ins.reg2).value
        && cpu.memDest == CpuUtil.ReadRegister(regs, ins.reg1).value
      case A8R => cpu.memDest == (Read(m, pc) as bv16) | 0xFF00 && cpu.fetchedData == old(cpu.fetchedData)
      case A16R | D16R =>
        && cpu.memDest == Common.Word(Read(m, pc + 1), Read(m, pc))
        && cpu.fetchedData == CpuUtil.ReadRegister(cpu.registers, ins.reg2).value
      case MrD8 =>
        && cpu.fetchedData == Read(m, pc) as bv16
        && cpu.memDest == CpuUtil.ReadRegister(cpu.registers, ins.reg1).value
      case Mr =>
        && cpu.memDest == CpuUtil.ReadRegister(regs, ins.reg1).value
        && cpu.fetchedData == Read(m, cpu.memDest) as bv16
      case Ra16 => cpu.fetchedData == Read(m, Common.Word(Read(m, pc + 1), Read(m, pc))) as bv16
  }

  /** Bus read of one byte followed by one machine cycle of the timer. */
  method ReadCycle(cpu: Cpu, timer: T.Timer, address: bv16) returns (v: bv8)
    requires Total(cpu.mem) && timer.ticks + 4 <= T.MaxTicks
    modifies timer
    ensures v == Read(cpu.mem, address)
    ensures timer.State() == old(timer.State()).(ticks := old(timer.ticks) + 4)
  {
    v := Read(cpu.mem, address);
    timer.Cycles(1);
  }

  /** The byte at PC as the operand, then PC steps past it. */
  method ReadImmediate8(cpu: Cpu, timer: T.Timer, pc: bv16)
    requires Total(cpu.mem) && cpu.registers.pc == pc && pc < 0xFFFF
    requires timer.ticks + 4 <= T.MaxTicks
    modifies cpu`fetchedData, cpu`registers, timer
    ensures cpu.fetchedData == Read(cpu.mem, pc) as bv16
    ensures cpu.registers == old(cpu.registers).(pc := pc + 1)
    ensures timer.State() == old(timer.State()).(ticks := old(timer.ticks) + 4)
  {
    var v := ReadCycle(cpu, timer, pc);
    cpu.fetchedData := v as bv16;
    cpu.registers := cpu.registers.(pc := pc + 1);
  }

  /** The little-endian word at PC, then PC steps past it. */
  method ReadImmediate16(cpu: Cpu, timer: T.Timer, pc: bv16) returns (w: bv16)
    requires Total(cpu.mem) && cpu.registers.pc == pc && pc < 0xFFFE
    requires timer.ticks + 8 <= T.MaxTicks
    modifies cpu`registers, timer
    ensures w == Common.Word(Read(cpu.mem, pc + 1), Read(cpu.mem, pc))
    ensures cpu.registers == old(cpu.registers).(pc := pc + 2)
    ensures timer.State() == old(timer.State()).(ticks := old(timer.ticks) + 8)
  {
    var lo := ReadCycle(cpu, timer, pc);
    var hi := ReadCycle(cpu, timer, pc + 1);
    w := Common.Word(hi, lo);
    cpu.registers := cpu.registers.(pc := pc + 2);
  }

  /** The memory destination set to the address in `reg`; reading NONE fails and leaves
      the destination as it was. */
  method RegisterDestination(cpu: Cpu, reg: RegisterType) returns (ok: bool)
    modifies cpu`memDest, cpu`destIsMem
    ensures ok <==> reg != RegisterType.None
    ensures ok ==> cpu.destIsMem && cpu.memDest == CpuUtil.ReadRegister(cpu.registers, reg).value
    ensures !ok ==> cpu.destIsMem == old(cpu.destIsMem) && cpu.memDest == old(cpu.memDest)
  {
    var d := CpuUtil.ReadRegister(cpu.registers, reg);
    if d.Failure? {
      return false;
    }
    cpu.memDest := d.value;
    cpu.destIsMem := true;
    ok := true;
  }

  // One method per arm, or group of arms, of the match in `fetch_data`. Each clears the
  // destination first, as every call does, and then has the effect of its arm. Their
  // frames name the four fields `fetch_data` writes and the timer, so every other field
  // of the CPU, memory included, is unchanged.

  /** R, RR: the value of reg1 or reg2. */
  method FetchRegister(cpu: Cpu, timer: T.Timer, pc: bv16) returns (ok: bool)
    requires Fetchable(cpu, timer, pc) && cpu.instruction.addrMode in {R, Rr}
    modifies cpu`memDest, cpu`destIsMem, cpu`fetchedData, cpu`registers, timer
    ensures Fetched(cpu, timer, pc, ok) && (ok ==> Operand(cpu, timer, pc, ok))
  {
    cpu.memDest := 0;
    cpu.destIsMem := false;
    var reg := if cpu.instruction.addrMode == R then cpu.instruction.reg1 else cpu.instruction.reg2;
    var v := CpuUtil.ReadRegister(cpu.registers, reg);
    if v.Failure? {
      return false;
    }
    cpu.fetchedData := v.value;
    ok := true;
  }

  /** RD8, RA8, HLSPR, D8: the byte at PC; PC steps past it. */
  method FetchImmediate8(cpu: Cpu, timer: T.Timer, pc: bv16)
    requires Fetchable(cpu, timer, pc) && cpu.instruction.addrMode in {Rd8, Ra8, HlSpR, D8}
    modifies cpu`memDest, cpu`destIsMem, cpu`fetchedData, cpu`registers, timer
    ensures Fetched(cpu, timer, pc, true) && Operand(cpu, timer, pc, true)
  {
    cpu.memDest := 0;
    cpu.destIsMem := false;
    ReadImmediate8(cpu, timer, pc);
  }

  /** RD16, D16: the little-endian word at PC; PC steps past it. */
  method FetchImmediate16(cpu: Cpu, timer: T.Timer, pc: bv16)
    requires Fetchable(cpu, timer, pc) && cpu.instruction.addrMode in {Rd16, D16}
    modifies cpu`memDest, cpu`destIsMem, cpu`fetchedData, cpu`registers, timer
    ensures Fetched(cpu, timer, pc, true) && Operand(cpu, timer, pc, true)
  {
    cpu.memDest := 0;
    cpu.destIsMem := false;
    cpu.fetchedData := ReadImmediate16(cpu, timer, pc);
  }

  /** MRR: the operand is reg2; the destination is the address in reg1, in page 0xFF
      when reg1 is C. */
  method FetchRegisterToMemory(cpu: Cpu, timer: T.Timer, pc: bv16) returns (ok: bool)
    requires Fetchable(cpu, timer, pc) && cpu.instruction.addrMode == MrR
    modifies cpu`memDest, cpu`destIsMem, cpu`fetchedData, cpu`registers, timer
    ensures Fetched(cpu, timer, pc, ok) && (ok ==> Operand(cpu, timer, pc, ok))
  {
    cpu.memDest := 0;
    cpu.destIsMem := false;
    var v := CpuUtil.ReadRegister(cpu.registers, cpu.instruction.reg2);
    if v.Failure? {
      return false;
    }
    cpu.fetchedData := v.value;
    var d := CpuUtil.ReadRegister(cpu.registers, cpu.instruction.reg1);
    if d.Failure? {
      return false;
    }
    cpu.memDest := HighPage(d.value, cpu.instruction.reg1);
    cpu.destIsMem := true;
    ok := true;
  }

  /** RMR: the byte at the address in reg2, in page 0xFF when reg2 is C. */
  method FetchMemoryToRegister(cpu: Cpu, timer: T.Timer, pc: bv16) returns (ok: bool)
    requires Fetchable(cpu, timer, pc) && cpu.instruction.addrMode == RmR
    modifies cpu`memDest, cpu`destIsMem, cpu`fetchedData, cpu`registers, timer
    ensures Fetched(cpu, timer, pc, ok) && (ok ==> Operand(cpu, timer, pc, ok))
  {
    cpu.memDest := 0;
    cpu.destIsMem := false;
    var a := CpuUtil.ReadRegister(cpu.registers, cpu.instruction.reg2);
    if a.Failure? {
      return false;
    }
    var v := ReadCycle(cpu, timer, HighPage(a.value, cpu.instruction.reg2));
    cpu.fetchedData := v as bv16;
    ok := true;
  }

  /** RHLI, RHLD: the byte at the address in reg2, then HL steps up or down. */
  method FetchLoadThenStepHl(cpu: Cpu, timer: T.Timer, pc: bv16) returns (ok: bool)
    requires Fetchable(cpu, timer, pc) && cpu.instruction.addrMode in {Rhli, Rhld}
    modifies cpu`memDest, cpu`destIsMem, cpu`fetchedData, cpu`registers, timer
    ensures Fetched(cpu, timer, pc, ok) && (ok ==> Operand(cpu, timer, pc, ok))
  {
    cpu.memDest := 0;
    cpu.destIsMem := false;
    var a := CpuUtil.ReadRegister(cpu.registers, cpu.instruction.reg2);
    if a.Failure? {
      return false;
    }
    var v := ReadCycle(cpu, timer, a.value);
    cpu.fetchedData := v as bv16;
    cpu.registers := SteppedHl(cpu.registers, cpu.instruction.addrMode == Rhli);
    ok := true;
  }

  /** HLIR, HLDR: the operand is reg2 and the destination the address in reg1, then HL
      steps up or down. */
  method FetchStoreThenStepHl(cpu: Cpu, timer: T.Timer, pc: bv16) returns (ok: bool)
    requires Fetchable(cpu, timer, pc) && cpu.instruction.addrMode in {HliR, HldR}
    modifies cpu`memDest, cpu`destIsMem, cpu`fetchedData, cpu`registers, timer
    ensures Fetched(cpu, timer, pc, ok) && (ok ==> Operand(cpu, timer, pc, ok))
  {
    cpu.memDest := 0;
    cpu.destIsMem := false;
    var v := CpuUtil.ReadRegister(cpu.registers, cpu.instruction.reg2);
    if v.Failure? {
      return false;
    }
    cpu.fetchedData := v.value;
    var d := CpuUtil.ReadRegister(cpu.registers, cpu.instruction.reg1);
    if d.Failure? {
      return false;
    }
    cpu.memDest := d.value;
    cpu.destIsMem := true;
    cpu.registers := SteppedHl(cpu.registers, cpu.instruction.addrMode == HliR);
    ok := true;
  }

  /** A8R: the destination is the byte at PC in page 0xFF; PC steps past it. */
  method FetchHighPageDestination(cpu: Cpu, timer: T.Timer, pc: bv16)
    requires Fetchable(cpu, timer, pc) && cpu.instruction.addrMode == A8R
    modifies cpu`memDest, cpu`destIsMem, cpu`fetchedData, cpu`registers, timer
    ensures Fetched(cpu, timer, pc, true) && Operand(cpu, timer, pc, true)
  {
    cpu.memDest := 0;
    cpu.destIsMem := false;
    var v := ReadCycle(cpu, timer, pc);
    cpu.memDest := (v as bv16) | 0xFF00;
    cpu.destIsMem := true;
    cpu.registers := cpu.registers.(pc := pc + 1);
  }

  /** A16R, D16R: the destination is the little-endian word at PC, PC steps past it, and
      the operand is reg2, read after that step. */
  method FetchAbsoluteDestination(cpu: Cpu, timer: T.Timer, pc: bv16) returns (ok: bool)
    requires Fetchable(cpu, timer, pc) && cpu.instruction.addrMode in {A16R, D16R}
    modifies cpu`memDest, cpu`destIsMem, cpu`fetchedData, cpu`registers, timer
    ensures Fetched(cpu, timer, pc, ok) && (ok ==> Operand(cpu, timer, pc, ok))
  {
    cpu.memDest := 0;
    cpu.destIsMem := false;
    var w := ReadImmediate16(cpu, timer, pc);
    cpu.memDest := w;
    cpu.destIsMem := true;
    var v := CpuUtil.ReadRegister(cpu.registers, cpu.instruction.reg2);
    if v.Failure? {
      return false;
    }
    cpu.fetchedData := v.value;
    ok := true;
  }

  /** MRD8: the operand is the byte at PC, PC steps past it, and the destination is the
      address in reg1, read after that step. */
  method FetchImmediateToMemory(cpu: Cpu, timer: T.Timer, pc: bv16) returns (ok: bool)
    requires Fetchable(cpu, timer, pc) && cpu.instruction.addrMode == MrD8
    modifies cpu`memDest, cpu`destIsMem, cpu`fetchedData, cpu`registers, timer
    ensures Fetched(cpu, timer, pc, ok) && (ok ==> Operand(cpu, timer, pc, ok))
  {
    cpu.memDest := 0;
    cpu.destIsMem := false;
    ReadImmediate8(cpu, timer, pc);
    ok := RegisterDestination(cpu, cpu.instruction.reg1);
  }

  /** MR: the destination is the address in reg1 and the operand the byte there. */
  method FetchMemoryOperand(cpu: Cpu, timer: T.Timer, pc: bv16) returns (ok: bool)
    requires Fetchable(cpu, timer, pc) && cpu.instruction.addrMode == Mr
    modifies cpu`memDest, cpu`destIsMem, cpu`fetchedData, cpu`registers, timer
    ensures Fetched(cpu, timer, pc, ok) && (ok ==> Operand(cpu, timer, pc, ok))
  {
    cpu.memDest := 0;
    cpu.destIsMem := false;
    ok := RegisterDestination(cpu, cpu.instruction.reg1);
    if !ok {
      return;
    }
    var v := ReadCycle(cpu, timer, cpu.memDest);
    cpu.fetchedData := v as bv16;
  }

  /** RA16: the byte at the little-endian word at PC; PC steps past the word. */
  method FetchAbsoluteLoad(cpu: Cpu, timer: T.Timer, pc: bv16)
    requires Fetchable(cpu, timer, pc) && cpu.instruction.addrMode == Ra16
    modifies cpu`memDest, cpu`destIsMem, cpu`fetchedData, cpu`registers, timer
    ensures Fetched(cpu, timer, pc, true) && Operand(cpu, timer, pc, true)
  {
    cpu.memDest := 0;
    cpu.destIsMem := false;
    var address := ReadImmediate16(cpu, timer, pc);
    var v := ReadCycle(cpu, timer, address);
    cpu.fetchedData := v as bv16;
  }

  /** `fetch_data`: resolves the operand of the instruction in `cpu.instruction` for its
      addressing mode, with the effect `Fetched` states for every mode and the operand
      and destination `Operand` states for each. */
  method FetchData(cpu: Cpu, timer: T.Timer, pc: bv16) returns (ok: bool)
    requires Fetchable(cpu, timer, pc)
    modifies cpu`memDest, cpu`destIsMem, cpu`fetchedData, cpu`registers, timer
    ensures Fetched(cpu, timer, pc, ok) && (ok ==> Operand(cpu, timer, pc, ok))
  {
    match cpu.instruction.addrMode
    case Imp =>
      cpu.memDest := 0;
      cpu.destIsMem := false;
      ok := true;
    case R | Rr =>
      ok := FetchRegister(cpu, timer, pc);
    case Rd8 | Ra8 | HlSpR | D8 =>
      FetchImmediate8(cpu, timer, pc);
      ok := true;
    case Rd16 | D16 =>
      FetchImmediate16(cpu, timer, pc);
      ok := true;
    case MrR =>
      ok := FetchRegisterToMemory(cpu, timer, pc);
    case RmR =>
      ok := FetchMemoryToRegister(cpu, timer, pc);
    case Rhli | Rhld =>
      ok := FetchLoadThenStepHl(cpu, timer, pc);
    case HliR | HldR =>
      ok := FetchStoreThenStepHl(cpu, timer, pc);
    case A8R =>
      FetchHighPageDestination(cpu, timer, pc);
      ok := true;
    case A16R | D16R =>
      ok := FetchAbsoluteDestination(cpu, timer, pc);
    case MrD8 =>
      ok := FetchImmediateToMemory(cpu, timer, pc);
    case Mr =>
      ok := FetchMemoryOperand(cpu, timer, pc);
    case Ra16 =>
      FetchAbsoluteLoad(cpu, timer, pc);
      ok := true;
  }
}
