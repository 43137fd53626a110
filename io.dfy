/** The IO register decode (src/modules/io.rs): the two serial bytes at 0xFF01-0xFF02,
    the timer registers at 0xFF04-0xFF07, the interrupt flags at 0xFF0F and a fixed LY
    at 0xFF44. */
module Io {
  import Cpu
  import T = Timer

  class Io {
    var serialData: seq<bv8>

    /** The serial buffer holds two bytes, as the source's array does. */
    predicate Valid()
      reads this
    {
      |serialData| == 2
    }

    /** `IO::new`: both serial bytes zero. */
    constructor ()
      ensures Valid() && serialData == [0, 0]
    {
      serialData := [0, 0];
    }

    /** `IO::read`: serial data at 0xFF01 and serial control at 0xFF02, the timer's
        `read` at 0xFF04-0xFF07, IF at 0xFF0F, always 0x90 at 0xFF44, and 0 anywhere
        else. Reading changes nothing. */
    function Read(cpu: Cpu.Cpu, timer: T.Timer, address: bv16): bv8
      requires Valid()
      reads this, cpu, timer
    {
      if address == 0xFF01 then serialData[0]
      else if address == 0xFF02 then serialData[1]
      else if 0xFF04 <= address <= 0xFF07 then T.Read(timer.State(), address)
      else if address == 0xFF0F then cpu.interruptFlags
      else if address == 0xFF44 then 0x90
      else 0
    }

    /** Whatever the state, 0xFF44 reads 0x90 and an address outside the decoded ones
        reads 0. */
    lemma FixedReads(cpu: Cpu.Cpu, timer: T.Timer, address: bv16)
      requires Valid()
      ensures Read(cpu, timer, 0xFF44) == 0x90
      ensures address !in {0xFF01, 0xFF02, 0xFF04, 0xFF05, 0xFF06, 0xFF07, 0xFF0F, 0xFF44} ==>
        Read(cpu, timer, address) == 0
    {
    }

    /** `IO::write`: a serial byte at 0xFF01 or 0xFF02, the timer's `write` at
        0xFF04-0xFF07, IF at 0xFF0F; any other address changes nothing. Afterwards the
        written serial byte, timer register (other than DIV, which any write clears) or
        IF reads back `value`, and every other address reads as before. */
    method Write(cpu: Cpu.Cpu, timer: T.Timer, address: bv16, value: bv8)
      requires Valid()
      modifies this`serialData, cpu`interruptFlags, timer
      ensures Valid()
      ensures serialData ==
        if address == 0xFF01 then old(serialData)[0 := value]
        else if address == 0xFF02 then old(serialData)[1 := value]
        else old(serialData)
      ensures timer.State() ==
        if 0xFF04 <= address <= 0xFF07 then T.Written(old(timer.State()), address, value)
        else old(timer.State())
      ensures cpu.interruptFlags == if address == 0xFF0F then value else old(cpu.interruptFlags)
      ensures address in {0xFF01, 0xFF02, 0xFF05, 0xFF06, 0xFF07, 0xFF0F} ==>
        Read(cpu, timer, address) == value
      ensures address == 0xFF04 ==> Read(cpu, timer, address) == 0
      ensures forall a :: a != address ==> Read(cpu, timer, a) == old(Read(cpu, timer, a))
    {
      T.ReadAfterWrite(timer.State(), address, value);
      if address == 0xFF01 {
        serialData := serialData[0 := value];
      } else if address == 0xFF02 {
        serialData := serialData[1 := value];
      } else if 0xFF04 <= address <= 0xFF07 {
        timer.Write(address, value);
      } else if address == 0xFF0F {
        cpu.interruptFlags := value;
      }
      forall a | a != address
        ensures Read(cpu, timer, a) == old(Read(cpu, timer, a))
      {
        T.WriteKeepsOthers(old(timer.State()), address, value, a);
      }
    }
  }
}
