/** The stack protocol of src/modules/stack.rs: bytes are pushed at a descending SP
    with wrapping arithmetic, through the bus (here the CPU's 64 KiB of memory). Each
    operation takes the current SP as `sp`, so that its contract can name the
    addresses it touches. */
module Stack {
  import opened Cpu
  import Common
  import opened Memory

  /** `push`: SP := SP - 1 (wrapping), then the byte is written at the new SP; nothing
      else in memory or in the CPU changes. */
  method Push(cpu: Cpu, sp: bv16, data: bv8)
    requires Total(cpu.mem) && cpu.registers.sp == sp
    modifies cpu
    ensures cpu.registers == old(cpu.registers).(sp := sp - 1)
    ensures cpu.mem == Write(old(cpu.mem), sp - 1, data)
    ensures Total(cpu.mem)
    ensures cpu.State() == old(cpu.State()).(registers := cpu.registers, mem := cpu.mem)
  {
    cpu.registers := cpu.registers.(sp := sp - 1);
    cpu.mem := Write(cpu.mem, sp - 1, data);
  }

  /** `pop`: the byte at SP, then SP := SP + 1 (wrapping); memory is not written. */
  method Pop(cpu: Cpu, sp: bv16) returns (v: bv8)
    requires Total(cpu.mem) && cpu.registers.sp == sp
    modifies cpu
    ensures cpu.mem == old(cpu.mem) && v == Read(cpu.mem, sp)
    ensures cpu.registers == old(cpu.registers).(sp := sp + 1)
    ensures cpu.State() == old(cpu.State()).(registers := cpu.registers)
  {
    v := Read(cpu.mem, sp);
    cpu.registers := cpu.registers.(sp := sp + 1);
  }

  /** Memory `m` after pushing the word `w` at stack pointer `sp`: the high byte at
      SP - 1, the low byte at SP - 2 (both wrapping), every other address as before. */
  function Pushed16(m: Bytes, sp: bv16, w: bv16): (r: Bytes)
    requires Total(m)
    ensures Total(r)
    ensures Read(r, sp - 1) == Common.HighByte(w) && Read(r, sp - 2) == Common.LowByte(w)
    ensures forall b: bv16 :: b != sp - 1 && b != sp - 2 ==> Read(r, b) == Read(m, b)
  {
    Write(Write(m, sp - 1, Common.HighByte(w)), sp - 2, Common.LowByte(w))
  }

  /** `Pushed16` is two single-byte pushes, the second one at the SP the first leaves. */
  lemma PushedIsTwoPushes(m: Bytes, sp: bv16, w: bv16)
    requires Total(m)
    ensures Pushed16(m, sp, w) == Write(Write(m, sp - 1, Common.HighByte(w)), sp - 1 - 1, Common.LowByte(w))
  {
    assert sp - 1 - 1 == sp - 2;
  }

  /** `push16`: the high byte goes to SP - 1 and the low byte to SP - 2, so the word
      lies little-endian at the new SP, which is SP - 2. */
  method Push16(cpu: Cpu, sp: bv16, data: bv16)
    requires Total(cpu.mem) && cpu.registers.sp == sp
    modifies cpu
    ensures cpu.registers == old(cpu.registers).(sp := sp - 2)
    ensures cpu.mem == Pushed16(old(cpu.mem), sp, data)
    ensures Total(cpu.mem)
    ensures cpu.State() == old(cpu.State()).(registers := cpu.registers, mem := cpu.mem)
  {
    ghost var m := cpu.mem;
    Push(cpu, sp, Common.HighByte(data));
    Push(cpu, sp - 1, Common.LowByte(data));
    PushedIsTwoPushes(m, sp, data);
  }

  /** `pop16`: the low byte is popped first, then the high byte; the result is
      `hi << 8 | lo` and SP has moved up by 2. */
  method Pop16(cpu: Cpu, sp: bv16) returns (v: bv16)
    requires Total(cpu.mem) && cpu.registers.sp == sp
    modifies cpu
    ensures cpu.mem == old(cpu.mem) && v == Common.Word(Read(cpu.mem, sp + 1), Read(cpu.mem, sp))
    ensures cpu.registers == old(cpu.registers).(sp := sp + 2)
    ensures cpu.State() == old(cpu.State()).(registers := cpu.registers)
  {
    var lo := Pop(cpu, sp);
    var hi := Pop(cpu, sp + 1);
    v := Common.Word(hi, lo);
  }

  /** `pop16` straight after `push16(data)`: started from the SP that `Push16` leaves
      (SP - 2) on the memory it leaves, `Pop16` returns `data` and moves SP back to
      where it was. */
  lemma Pop16AfterPush16(m: Bytes, sp: bv16, data: bv16)
    requires Total(m)
    ensures var pushed := Pushed16(m, sp, data);
      && Common.Word(Read(pushed, sp - 2 + 1), Read(pushed, sp - 2)) == data
      && sp - 2 + 2 == sp
  {
    assert sp - 2 + 1 == sp - 1;
    Common.WordRoundTrip(data, 0, 0);
  }
}
