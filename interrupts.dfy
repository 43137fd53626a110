/** The interrupt controller of src/modules/interrupts.rs: a request sets a source's
    bit in IF; servicing takes the first source, in fixed priority order, whose bit
    is set in both IF and IE, pushes PC, jumps to the source's vector, clears its IF
    bit, and clears `halted` and IME. */
module Interrupts {
  import opened Wrappers
  import opened Enums
  import opened Cpu
  import opened Memory
  import Stack
  import Common

  /** `map_interrupt_type_to_u8`: the source's bit in IF and IE. */
  function InterruptBit(t: InterruptType): (b: bv8)
    ensures b in {0x01, 0x02, 0x04, 0x08, 0x10}
  {
    match t
    case VBlank => 0x01
    case LcdStat => 0x02
    case Timer => 0x04
    case Serial => 0x08
    case Joypad => 0x10
  }

  /** The bits agree with the discriminants of the enum file. */
  lemma InterruptBitIsDiscriminant(t: InterruptType)
    ensures InterruptBit(t) as int == Discriminant(t)
  {
    match t
    case VBlank =>
    case LcdStat =>
    case Timer =>
    case Serial =>
    case Joypad =>
  }

  /** Distinct sources own disjoint bits. */
  lemma InterruptBitsDisjoint(t: InterruptType, u: InterruptType)
    ensures t != u <==> InterruptBit(t) & InterruptBit(u) == 0
  {
  }

  /** The priority of a source: 0 is served first. */
  function Rank(t: InterruptType): (r: nat)
    ensures r < 5
  {
    match t
    case VBlank => 0
    case LcdStat => 1
    case Timer => 2
    case Serial => 3
    case Joypad => 4
  }

  /** The address `handle` passes along with each source. */
  function Vector(t: InterruptType): (v: bv16)
    ensures v == 0x40 + 8 * (Rank(t) as bv16)
  {
    match t
    case VBlank => 0x40
    case LcdStat => 0x48
    case Timer => 0x50
    case Serial => 0x58
    case Joypad => 0x60
  }

  /** `request`'s effect on IF. */
  function Requested(flags: bv8, t: InterruptType): bv8
  {
    flags | InterruptBit(t)
  }

  /** After a request the source's bit is set, asking again changes nothing, and
      every other source's bit is as it was. */
  lemma RequestedProperties(flags: bv8, t: InterruptType, u: InterruptType)
    ensures Requested(flags, t) & InterruptBit(t) != 0
    ensures Requested(Requested(flags, t), t) == Requested(flags, t)
    ensures u != t ==> Requested(flags, t) & InterruptBit(u) == flags & InterruptBit(u)
    ensures Requested(flags, t) & !InterruptBit(t) == flags & !InterruptBit(t)
  {
    InterruptBitsDisjoint(t, u);
  }

  /** `request`: OR the source's bit into IF; nothing else changes. */
  method Request(cpu: Cpu, t: InterruptType)
    modifies cpu
    ensures cpu.interruptFlags == Requested(old(cpu.interruptFlags), t)
    ensures cpu.State() == old(cpu.State()).(interruptFlags := cpu.interruptFlags)
  {
    cpu.interruptFlags := cpu.interruptFlags | InterruptBit(t);
  }

  /** Source `t` is requested in IF and enabled in IE. */
  predicate Enabled(flags: bv8, ie: bv8, t: InterruptType)
  {
    flags & InterruptBit(t) != 0 && ie & InterruptBit(t) != 0
  }

  /** Clearing the serviced bit leaves every other source's request as it was, so a
      lower-priority request stays pending. */
  lemma ServiceKeepsOtherRequests(flags: bv8, t: InterruptType, u: InterruptType)
    requires u != t
    ensures (flags & !InterruptBit(t)) & InterruptBit(u) == flags & InterruptBit(u)
    ensures (flags & !InterruptBit(t)) & InterruptBit(t) == 0
  {
    InterruptBitsDisjoint(t, u);
  }

  /** `process`: push PC (passed in as `pc`) and jump to `address`; nothing else
      changes. */
  method Process(cpu: Cpu, sp: bv16, pc: bv16, address: bv16)
    requires Total(cpu.mem) && cpu.registers.sp == sp && cpu.registers.pc == pc
    modifies cpu
    ensures cpu.State() == old(cpu.State()).(registers := old(cpu.registers).(sp := sp - 2, pc := address),
                                              mem := Stack.Pushed16(old(cpu.mem), sp, pc))
  {
    Stack.Push16(cpu, sp, pc);
    cpu.registers := cpu.registers.(pc := address);
  }

  /** The rest of a serviced `check`: clear the request of `t`, leave the halted state
      and disable interrupts; nothing else changes. */
  method Acknowledge(cpu: Cpu, t: InterruptType)
    modifies cpu
    ensures var s := old(cpu.State());
      cpu.State() == s.(interruptFlags := s.interruptFlags & !InterruptBit(t), halted := false,
                        intMasterEnabled := false)
  {
    cpu.interruptFlags := cpu.interruptFlags & !InterruptBit(t);
    cpu.halted := false;
    cpu.intMasterEnabled := false;
  }

  /** The state `check` leaves when it services `t` through `address` from state `s`:
      PC pushed below SP, SP down by 2, PC at `address`, the source's request cleared,
      not halted, IME off; IE and everything else as in `s`. */
  function Serviced(s: CpuState, address: bv16, t: InterruptType): (r: CpuState)
    requires Total(s.mem)
    ensures Total(r.mem)
  {
    s.(registers := s.registers.(sp := s.registers.sp - 2, pc := address),
       mem := Stack.Pushed16(s.mem, s.registers.sp, s.registers.pc),
       interruptFlags := s.interruptFlags & !InterruptBit(t),
       halted := false,
       intMasterEnabled := false)
  }

  /** `process` followed by the acknowledgement leaves the `Serviced` state. */
  lemma ProcessThenAcknowledge(s0: CpuState, s1: CpuState, s2: CpuState, sp: bv16, pc: bv16,
                               address: bv16, t: InterruptType)
    requires Total(s0.mem) && s0.registers.sp == sp && s0.registers.pc == pc
    requires s1 == s0.(registers := s0.registers.(sp := sp - 2, pc := address),
                       mem := Stack.Pushed16(s0.mem, sp, pc))
    requires s2 == s1.(interruptFlags := s1.interruptFlags & !InterruptBit(t), halted := false,
                       intMasterEnabled := false)
    ensures s2 == Serviced(s0, address, t)
  {
  }

  /** `check`: when `t` is requested and enabled, service it through `address`;
      otherwise change nothing. */
  method Check(cpu: Cpu, sp: bv16, pc: bv16, address: bv16, t: InterruptType) returns (serviced: bool)
    requires Total(cpu.mem) && cpu.registers.sp == sp && cpu.registers.pc == pc
    modifies cpu
    ensures serviced <==> old(Enabled(cpu.interruptFlags, cpu.ieRegister, t))
    ensures !serviced ==> cpu.State() == old(cpu.State())
    ensures serviced ==> cpu.State() == Serviced(old(cpu.State()), address, t)
  {
    serviced := Enabled(cpu.interruptFlags, cpu.ieRegister, t);
    if serviced {
      ghost var s0 := cpu.State();
      Process(cpu, sp, pc, address);
      ghost var s1 := cpu.State();
      Acknowledge(cpu, t);
      ProcessThenAcknowledge(s0, s1, cpu.State(), sp, pc, address, t);
    }
  }

  /** The source of rank `k`, for `k` below 5. */
  function SourceAt(k: nat): (t: InterruptType)
    requires k < 5
    ensures Rank(t) == k
  {
    if k == 0 then VBlank
    else if k == 1 then LcdStat
    else if k == 2 then Timer
    else if k == 3 then Serial
    else Joypad
  }

  /** The first source of rank `k` or later that is requested and enabled. */
  function PendingFrom(flags: bv8, ie: bv8, k: nat): Option<InterruptType>
    decreases 5 - k
  {
    if k >= 5 then Option.None
    else if Enabled(flags, ie, SourceAt(k)) then Some(SourceAt(k))
    else PendingFrom(flags, ie, k + 1)
  }

  /** The source `handle` services: the first of VBLANK, LCDSTAT, TIMER, SERIAL,
      JOYPAD that is requested and enabled, if any. */
  function Pending(flags: bv8, ie: bv8): Option<InterruptType>
  {
    PendingFrom(flags, ie, 0)
  }

  /** The scan from rank `k` picks exactly the enabled source of rank `k` or later that
      no enabled source of rank `k` or later outranks, and finds nothing exactly when
      no source of rank `k` or later is enabled. */
  lemma {:induction false} PendingFromIsFirstEnabled(flags: bv8, ie: bv8, k: nat, t: InterruptType)
    decreases 5 - k
    ensures PendingFrom(flags, ie, k) == Some(t) <==>
      k <= Rank(t) && Enabled(flags, ie, t)
      && forall u :: k <= Rank(u) < Rank(t) ==> !Enabled(flags, ie, u)
    ensures PendingFrom(flags, ie, k).None? <==> forall u :: k <= Rank(u) ==> !Enabled(flags, ie, u)
  {
    if k < 5 {
      PendingFromIsFirstEnabled(flags, ie, k + 1, t);
      var s := SourceAt(k);
      forall u | Rank(u) == k
        ensures u == s
      {
        RankInjective(u, s);
      }
    }
  }

  /** Distinct sources have distinct ranks. */
  lemma RankInjective(t: InterruptType, u: InterruptType)
    ensures Rank(t) == Rank(u) ==> t == u
  {
  }

  /** `Pending` picks exactly the enabled source that no enabled source outranks, and
      is `None` exactly when no source is enabled. */
  lemma PendingIsFirstEnabled(flags: bv8, ie: bv8, t: InterruptType)
    ensures Pending(flags, ie) == Some(t) <==>
      Enabled(flags, ie, t) && forall u :: Rank(u) < Rank(t) ==> !Enabled(flags, ie, u)
    ensures Pending(flags, ie).None? <==> forall u :: !Enabled(flags, ie, u)
  {
    PendingFromIsFirstEnabled(flags, ie, 0, t);
  }

  /** The CPU state `handle` leaves when it services `p` (if any) from state `s`: PC
      pushed, SP down by 2, PC at the source's vector, its request cleared, not halted,
      IME off; with nothing to service, `s` itself. */
  ghost function Outcome(s: CpuState, p: Option<InterruptType>): (r: CpuState)
    requires Total(s.mem)
    ensures Total(r.mem)
  {
    match p
    case None => s
    case Some(t) => Serviced(s, Vector(t), t)
  }

  /** The checks of `handle` from rank `k` on, in order, stopping at the first that
      services its source. */
  method HandleFrom(cpu: Cpu, sp: bv16, pc: bv16, k: nat)
    requires Total(cpu.mem) && cpu.registers.sp == sp && cpu.registers.pc == pc
    modifies cpu
    decreases 5 - k
    ensures cpu.State() == Outcome(old(cpu.State()), old(PendingFrom(cpu.interruptFlags, cpu.ieRegister, k)))
  {
    if k >= 5 {
      return;
    }
    var t := SourceAt(k);
    ghost var before := cpu.State();
    assert PendingFrom(before.interruptFlags, before.ieRegister, k) ==
      if Enabled(before.interruptFlags, before.ieRegister, t) then Some(t)
      else PendingFrom(before.interruptFlags, before.ieRegister, k + 1);
    var done := Check(cpu, sp, pc, Vector(t), t);
    if !done {
      assert cpu.State() == before;
      HandleFrom(cpu, sp, pc, k + 1);
    }
  }

  /** `handle`: the CPU ends in the `Outcome` of servicing the `Pending` source; IE is
      never written and IME is not consulted. */
  method Handle(cpu: Cpu, sp: bv16, pc: bv16)
    requires Total(cpu.mem) && cpu.registers.sp == sp && cpu.registers.pc == pc
    modifies cpu
    ensures cpu.State() == Outcome(old(cpu.State()), old(Pending(cpu.interruptFlags, cpu.ieRegister)))
  {
    HandleFrom(cpu, sp, pc, 0);
  }

  /** The register side of a serviced source: SP down by 2, the high byte of the
      interrupted PC at SP - 1 (wrapping), and PC at `address`. */
  lemma ServicedStack(s: CpuState, address: bv16, t: InterruptType)
    requires Total(s.mem)
    ensures Serviced(s, address, t).registers.sp == s.registers.sp - 2
    ensures Serviced(s, address, t).registers.pc == address
    ensures Read(Serviced(s, address, t).mem, s.registers.sp - 1) == Common.HighByte(s.registers.pc)
  {
  }

  /** The interrupted PC lies little-endian at the SP a serviced source leaves (its low
      byte at SP - 2), so popping a word there gives it back. */
  lemma ServicedReturnAddress(s: CpuState, address: bv16, t: InterruptType)
    requires Total(s.mem)
    ensures Read(Serviced(s, address, t).mem, s.registers.sp - 2) == Common.LowByte(s.registers.pc)
    ensures var r := Serviced(s, address, t);
      Common.Word(Read(r.mem, s.registers.sp - 2 + 1), Read(r.mem, s.registers.sp - 2)) == s.registers.pc
  {
    Stack.Pop16AfterPush16(s.mem, s.registers.sp, s.registers.pc);
  }

  /** The flag side of a serviced source: its request cleared and every other request
      kept, not halted, IME off, IE as before. */
  lemma ServicedFlags(s: CpuState, address: bv16, t: InterruptType, u: InterruptType)
    requires Total(s.mem)
    ensures var r := Serviced(s, address, t);
      && r.interruptFlags & InterruptBit(t) == 0
      && (u != t ==> r.interruptFlags & InterruptBit(u) == s.interruptFlags & InterruptBit(u))
      && !r.halted && !r.intMasterEnabled && r.ieRegister == s.ieRegister
  {
    if u != t {
      ServiceKeepsOtherRequests(s.interruptFlags, t, u);
    }
  }

  /** When `handle` services `t`, every other requested source stays requested, and any
      other source that is also enabled has lower priority than `t`. */
  lemma HandleLeavesOthersPending(s: CpuState, t: InterruptType, u: InterruptType)
    requires Total(s.mem)
    requires Pending(s.interruptFlags, s.ieRegister) == Some(t)
    requires u != t && s.interruptFlags & InterruptBit(u) != 0
    ensures Outcome(s, Some(t)).interruptFlags & InterruptBit(u) != 0
    ensures Enabled(s.interruptFlags, s.ieRegister, u) ==> Rank(t) < Rank(u)
  {
    PendingIsFirstEnabled(s.interruptFlags, s.ieRegister, t);
    ServiceKeepsOtherRequests(s.interruptFlags, t, u);
    RankInjective(t, u);
  }
}
