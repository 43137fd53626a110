/** The serial debug capture (src/modules/dbg.rs): when a program starts a serial
    transfer (0x81 written to 0xFF02), the byte at 0xFF01 is appended to a 1024-character
    message buffer and the transfer is acknowledged by clearing 0xFF02. The bus is the
    abstract 64 KiB memory of the CPU. */
module Dbg {
  import opened Memory
  import Cpu

  /** The buffer size of `msg`. */
  const Capacity: nat := 1024

  /** A serial transfer is pending: 0xFF02 holds 0x81. */
  ghost predicate Pending(m: Bytes)
    requires Total(m)
  {
    Read(m, 0xFF02) == 0x81
  }

  /** The acknowledgement `update` writes, 0 at 0xFF02, leaves no transfer pending and
      keeps the serial byte. */
  lemma AcknowledgedIsIdle(m: Bytes)
    requires Total(m)
    ensures !Pending(Write(m, 0xFF02, 0))
    ensures Read(Write(m, 0xFF02, 0), 0xFF01) == Read(m, 0xFF01)
  {
  }

  class Dbg {
    var msg: seq<char>
    var msgSize: nat

    /** The buffer has its fixed size and the message fits in it. */
    predicate Valid()
      reads this
    {
      |msg| == Capacity && msgSize <= Capacity
    }

    /** `DBG::default`: 1024 spaces and an empty message. */
    constructor ()
      ensures Valid() && msg == seq(Capacity, _ => ' ') && msgSize == 0
    {
      msg := seq(Capacity, _ => ' ');
      msgSize := 0;
    }

    /** `update`. With a transfer pending, the serial byte becomes character `msgSize`
        of the message, the message grows by one and 0xFF02 is cleared, so a second
        `update` right after changes nothing. A full buffer makes the index out of
        bounds (the source panics). With no transfer pending nothing changes. The
        message so far is never altered. */
    method Update(cpu: Cpu.Cpu) returns (ok: bool)
      requires Valid() && Total(cpu.mem)
      modifies this, cpu`mem
      ensures Valid() && Total(cpu.mem)
      ensures ok <==> !(Pending(old(cpu.mem)) && old(msgSize) == Capacity)
      ensures Pending(old(cpu.mem)) && ok ==>
        && msg == old(msg)[old(msgSize) := (Read(old(cpu.mem), 0xFF01) as int) as char]
        && msgSize == old(msgSize) + 1
        && cpu.mem == Write(old(cpu.mem), 0xFF02, 0)
        && !Pending(cpu.mem)
      ensures !(Pending(old(cpu.mem)) && ok) ==>
        msg == old(msg) && msgSize == old(msgSize) && cpu.mem == old(cpu.mem)
      ensures msg[..old(msgSize)] == old(msg)[..old(msgSize)]
    {
      ok := true;
      if Read(cpu.mem, 0xFF02) == 0x81 {
        var c := (Read(cpu.mem, 0xFF01) as int) as char;
        if msgSize >= |msg| {
          return false;
        }
        msg := msg[msgSize := c];
        msgSize := msgSize + 1;
        cpu.mem := Write(cpu.mem, 0xFF02, 0);
        AcknowledgedIsIdle(old(cpu.mem));
      }
    }
  }
}
