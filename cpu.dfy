/** The CPU state record and the fetch half of the CPU (src/modules/cpu.rs): `new`,
    `init`, `fetch_instruction` and the early `fetch_data` of that file. */
module Cpu {
  import opened Wrappers
  import opened Enums
  import opened Registers
  import opened Instruction
  import CpuUtil
  import Common
  import opened Memory

  /** Every field of the CPU, bus memory included, as one value. */
  datatype CpuState = CpuState(
    registers: Registers,
    fetchedData: bv16,
    memDest: bv16,
    destIsMem: bool,
    opcode: Common.Byte,
    instruction: Instruction,
    halted: bool,
    stepping: bool,
    intMasterEnabled: bool,
    interruptFlags: bv8,
    ieRegister: bv8,
    mem: Bytes)

  /** The little-endian word stored at `address`: low byte first. */
  function Immediate16(mem: Bytes, address: bv16): (w: bv16)
    requires Total(mem) && address < 0xFFFF
    ensures Common.HighByte(w) == Read(mem, address + 1) && Common.LowByte(w) == Read(mem, address)
  {
    Common.WordRoundTrip(0, Read(mem, address + 1), Read(mem, address));
    Common.Word(Read(mem, address + 1), Read(mem, address))
  }

  /** The bytes an addressing mode consumes after the opcode: the immediate operand
      that `fetch_data` reads at PC before advancing PC past it. */
  function ImmediateBytes(mode: AddressMode): (n: bv16)
    ensures n <= 2
    ensures n == 2 <==> mode in {Rd16, D16, A16R, D16R, Ra16}
    ensures n == 1 <==> mode in {Rd8, Ra8, A8R, HlSpR, D8, MrD8}
  {
    match mode
    case Rd16 | D16 | A16R | D16R | Ra16 => 2
    case Rd8 | Ra8 | A8R | HlSpR | D8 | MrD8 => 1
    case _ => 0
  }

  /** The modes the early `fetch_data` accepts for a descriptor:
      the implied mode, a register operand naming a register, an 8-bit or a 16-bit
      immediate. */
  predicate EarlyFetchAccepts(ins: Instruction)
  {
    ins.addrMode in {Imp, R, Rd8, D16} && (ins.addrMode == R ==> ins.reg1 != RegisterType.None)
  }

  /** The immediate operand of `mode`, read at `pc`, lies below the top of the address
      space, so that the non-wrapping `pc += n` of the early `fetch_data` cannot
      overflow. Only the 8-bit and 16-bit immediates that function handles read at PC. */
  predicate OperandFits(mode: AddressMode, pc: bv16)
  {
    (mode == Rd8 ==> pc < 0xFFFF) && (mode == D16 ==> pc < 0xFFFE)
  }

  /** The operand the early `fetch_data` leaves for a mode it accepts: the named
      register for R, the byte at PC for RD8, the little-endian word at PC for D16, and
      the previous operand for the implied mode. */
  ghost function EarlyOperand(s: CpuState): bv16
    requires Total(s.mem) && EarlyFetchAccepts(s.instruction)
    requires OperandFits(s.instruction.addrMode, s.registers.pc)
  {
    match s.instruction.addrMode
    case R => CpuUtil.ReadRegister(s.registers, s.instruction.reg1).value
    case Rd8 => Read(s.mem, s.registers.pc) as bv16
    case D16 => Immediate16(s.mem, s.registers.pc)
    case _ => s.fetchedData
  }

  /** The state after the early `fetch_data`, for a mode it accepts: the destination
      cleared, the operand fetched, and PC moved past the immediate bytes of the mode. */
  ghost function EarlyFetched(s: CpuState): (t: CpuState)
    requires Total(s.mem) && EarlyFetchAccepts(s.instruction)
    requires OperandFits(s.instruction.addrMode, s.registers.pc)
  {
    s.(registers := s.registers.(pc := s.registers.pc + ImmediateBytes(s.instruction.addrMode)),
       fetchedData := EarlyOperand(s), memDest := 0, destIsMem := false)
  }

  /** The CPU. The fields of src/modules/cpu.rs:10-23 are joined by the interrupt
      request and enable registers that src/modules/interrupts.rs uses; `mem` is the
      bus seen as 64 KiB of memory. */
  class Cpu {
    var registers: Registers
    var fetchedData: bv16
    var memDest: bv16
    var destIsMem: bool
    var opcode: Common.Byte
    var instruction: Instruction
    var halted: bool
    var stepping: bool
    var intMasterEnabled: bool
    var interruptFlags: bv8
    var ieRegister: bv8
    var mem: Bytes

    function State(): CpuState
      reads this
    {
      CpuState(registers, fetchedData, memDest, destIsMem, opcode, instruction,
               halted, stepping, intMasterEnabled, interruptFlags, ieRegister, mem)
    }

    /** `CPU::new`: zeroed registers and fetch state, the default descriptor, not
        halted, not stepping, interrupts disabled. */
    constructor (mem: Bytes)
      requires Total(mem)
      ensures State() == CpuState(New(), 0, 0, false, 0, Default, false, false, false, 0, 0, mem)
      ensures !halted && !intMasterEnabled && fetchedData == 0 && memDest == 0 && !destIsMem
    {
      registers := New();
      fetchedData := 0;
      memDest := 0;
      destIsMem := false;
      opcode := 0;
      instruction := Default;
      halted := false;
      stepping := false;
      intMasterEnabled := false;
      interruptFlags := 0;
      ieRegister := 0;
      this.mem := mem;
    }

    /** `init`: PC at the cartridge entry point 0x100 and A = 0x01; nothing else changes. */
    method Init()
      modifies this
      ensures State() == old(State()).(registers := old(registers).(pc := 0x100, a := 0x01))
    {
      registers := registers.(pc := 0x100);
      registers := registers.(a := 0x01);
    }

    /** `fetch_instruction`: read the opcode at PC, advance PC (a non-wrapping `+= 1`),
        and decode it. The caller passes the current PC as `pc`. */
    method FetchInstruction(pc: bv16)
      requires Total(mem) && registers.pc == pc && pc < 0xFFFF
      modifies this`opcode, this`registers, this`instruction
      ensures opcode == Read(mem, pc) as int
      ensures instruction == InstructionByOpcode(opcode)
      ensures registers == old(registers).(pc := pc + 1)
    {
      opcode := Read(mem, pc) as int;
      registers := registers.(pc := pc + 1);
      instruction := InstructionByOpcode(opcode);
    }

    /** Read the byte at PC (passed in as `pc`) into the fetched operand and step PC
        past it. */
    method FetchImmediate8(pc: bv16)
      requires Total(mem) && registers.pc == pc && pc < 0xFFFF
      modifies this`fetchedData, this`registers
      ensures fetchedData == Read(mem, pc) as bv16
      ensures registers == old(registers).(pc := pc + 1)
    {
      fetchedData := Read(mem, pc) as bv16;
      registers := registers.(pc := pc + 1);
    }

    /** Read the little-endian word at PC (passed in as `pc`) into the fetched operand
        and step PC past it. */
    method FetchImmediate16(pc: bv16)
      requires Total(mem) && registers.pc == pc && pc < 0xFFFE
      modifies this`fetchedData, this`registers
      ensures fetchedData == Immediate16(mem, pc)
      ensures registers == old(registers).(pc := pc + 2)
    {
      var lo := Read(mem, pc);
      var hi := Read(mem, pc + 1);
      fetchedData := Common.Word(hi, lo);
      registers := registers.(pc := pc + 2);
    }

    /** The early `fetch_data` of src/modules/cpu.rs: it handles only the implied mode,
        a register operand, an 8-bit immediate and a little-endian 16-bit immediate; any
        other mode panics, and so does a register operand naming no register. The
        cycle calls there go to `Emu::cycles`, which does nothing. The caller passes
        the current PC as `pc` so that the contract can name the operand addresses. */
    method FetchData(pc: bv16) returns (ok: bool)
      requires Total(mem) && registers.pc == pc && OperandFits(instruction.addrMode, pc)
      modifies this`memDest, this`destIsMem, this`fetchedData, this`registers
      ensures ok <==> EarlyFetchAccepts(instruction)
      ensures memDest == 0 && !destIsMem
      ensures ok && instruction.addrMode in {Imp, R} ==> registers == old(registers)
      ensures ok && instruction.addrMode == R ==>
        fetchedData == CpuUtil.ReadRegister(old(registers), instruction.reg1).value
      ensures ok && instruction.addrMode == Imp ==> fetchedData == old(fetchedData)
      ensures ok && instruction.addrMode == Rd8 ==>
        (fetchedData == Read(mem, pc) as bv16 && registers == old(registers).(pc := pc + 1))
      ensures ok && instruction.addrMode == D16 ==>
        (fetchedData == Immediate16(mem, pc) && registers == old(registers).(pc := pc + 2))
    {
      memDest := 0;
      destIsMem := false;
      match instruction.addrMode
      case Imp =>
        ok := true;
      case R =>
        var v := CpuUtil.ReadRegister(registers, instruction.reg1);
        if v.Failure? {
          ok := false;
          return;
        }
        fetchedData := v.value;
        ok := true;
      case Rd8 =>
        FetchImmediate8(pc);
        ok := true;
      case D16 =>
        FetchImmediate16(pc);
        ok := true;
      case _ =>
        ok := false;
    }
  }
}
