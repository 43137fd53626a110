/** The timer registers and clock of src/modules/timer.rs: DIV, TIMA, TMA, TAC and the
    tick counter, the per-tick update, `cycles`, and the register read and write at
    0xFF04-0xFF07. */
module Timer {
  import opened Cpu
  import opened Enums
  import Interrupts
  import Common

  /** The largest value of the `u64` tick counter. */
  const MaxTicks: nat := 0xFFFF_FFFF_FFFF_FFFF

  /** Every field of the timer as one value. */
  datatype TimerState = TimerState(div: bv16, tima: bv8, tma: bv8, tac: bv8, ticks: nat)

  /** The DIV bit whose falling edge the clock select in TAC's low two bits watches:
      bit 9, 3, 5 or 7 for select 0, 1, 2 or 3. */
  function SelectedBit(tac: bv8): (b: nat)
    ensures b in {3, 5, 7, 9}
  {
    var select := tac & 3;
    if select == 0 then 9 else if select == 1 then 3 else if select == 2 then 5 else 7
  }

  /** The edge test of `tick` as written: the selected bit was set in the DIV before the
      tick, and the complement of the selected bit of DIV after it is nonzero. */
  predicate TimerUpdate(prevDiv: bv16, div: bv16, tac: bv8)
  {
    var b := SelectedBit(tac);
    prevDiv & (1 << b) != 0 && !(div & (1 << b)) != 0
  }

  /** The complement of a single masked bit always has other bits set, so the second
      half of the edge test is always true: the test only asks whether the selected bit
      was set before the tick, whatever DIV holds afterwards. */
  lemma TimerUpdateIgnoresNewDiv(prevDiv: bv16, div: bv16, tac: bv8)
    ensures TimerUpdate(prevDiv, div, tac) <==> prevDiv & (1 << SelectedBit(tac)) != 0
  {
    var m: bv16 := 1 << SelectedBit(tac);
    assert m == 0x200 || m == 0x08 || m == 0x20 || m == 0x80;
    assert (div & m) & !m == 0;
  }

  /** The enable test of `tick` as written, `(tac & (1 << 2)) == 1`: the masked value is
      0 or 4 and never 1, so the test is never true. */
  function IncrementEnabled(tac: bv8): (r: bool)
    ensures !r
  {
    tac & (1 << 2) == 1
  }

  /** The counter step of `tick`'s increment branch: TIMA goes up by one (a
      non-wrapping `+=`, so TIMA is below 0xFF); if it then reads 0xFF it is reloaded
      from TMA and a TIMER interrupt is asked for (the second component). */
  function Incremented(tima: bv8, tma: bv8): (r: (bv8, bool))
    requires tima < 0xFF
  {
    if tima + 1 == 0xFF then (tma, true) else (tima + 1, false)
  }

  /** The increment branch raises the interrupt exactly when TIMA was 0xFE, and then
      TIMA holds TMA; otherwise TIMA is one more than before. So TIMA holds 0xFF
      afterwards only when TMA does. */
  lemma IncrementedReloads(tima: bv8, tma: bv8)
    requires tima < 0xFF
    ensures Incremented(tima, tma).1 <==> tima == 0xFE
    ensures Incremented(tima, tma).1 ==> Incremented(tima, tma).0 == tma
    ensures !Incremented(tima, tma).1 ==> Incremented(tima, tma).0 as int == tima as int + 1
    ensures Incremented(tima, tma).0 == 0xFF ==> tma == 0xFF
  {
  }

  /** The timer after `write(address, value)`: DIV cleared by any write to 0xFF04, the
      value stored into TIMA, TMA or TAC at 0xFF05-0xFF07, nothing changed elsewhere. */
  function Written(s: TimerState, address: bv16, value: bv8): TimerState
  {
    if address == 0xFF04 then s.(div := 0)
    else if address == 0xFF05 then s.(tima := value)
    else if address == 0xFF06 then s.(tma := value)
    else if address == 0xFF07 then s.(tac := value)
    else s
  }

  /** `read(address)`: the high byte of DIV at 0xFF04, TIMA, TMA and TAC at
      0xFF05-0xFF07, and 0 at any other address. */
  function Read(s: TimerState, address: bv16): bv8
  {
    if address == 0xFF04 then Common.HighByte(s.div)
    else if address == 0xFF05 then s.tima
    else if address == 0xFF06 then s.tma
    else if address == 0xFF07 then s.tac
    else 0
  }

  /** A register written at 0xFF05-0xFF07 reads back the written byte; DIV reads back 0
      whatever was written; any other address reads 0 and a write there changes nothing. */
  lemma ReadAfterWrite(s: TimerState, address: bv16, value: bv8)
    ensures 0xFF05 <= address <= 0xFF07 ==> Read(Written(s, address, value), address) == value
    ensures address == 0xFF04 ==> Read(Written(s, address, value), address) == 0
    ensures !(0xFF04 <= address <= 0xFF07) ==>
      Written(s, address, value) == s && Read(s, address) == 0
  {
  }

  /** A write to one timer address leaves what every other address reads unchanged, and
      never touches the tick counter. */
  lemma WriteKeepsOthers(s: TimerState, address: bv16, value: bv8, other: bv16)
    requires other != address
    ensures Read(Written(s, address, value), other) == Read(s, other)
    ensures Written(s, address, value).ticks == s.ticks
  {
  }

  /** The timer. */
  class Timer {
    var div: bv16
    var tima: bv8
    var tma: bv8
    var tac: bv8
    var ticks: nat

    function State(): TimerState
      reads this
    {
      TimerState(div, tima, tma, tac, ticks)
    }

    /** `Timer::default`: every field zero. */
    constructor ()
      ensures State() == TimerState(0, 0, 0, 0, 0)
    {
      div, tima, tma, tac, ticks := 0, 0, 0, 0, 0;
    }

    /** `init`: DIV starts at 0xAC00; nothing else changes. */
    method Init()
      modifies this
      ensures State() == old(State()).(div := 0xAC00)
    {
      div := 0xAC00;
    }

    /** `tick` as written. The `wrapping_add` result is discarded, so DIV keeps its
        value; the edge test then only looks at the old DIV, and the enable test is
        never true, so the increment branch is never taken and nothing changes. */
    method Tick()
      modifies this
      ensures State() == old(State())
    {
      var prevDiv := div;
      var discarded := div + 1;
      var timerUpdate := TimerUpdate(prevDiv, div, tac);
      if timerUpdate && IncrementEnabled(tac) {
        assert false;
      }
    }

    /** The body of `tick`'s increment branch, for a CPU whose timer this is: TIMA
        steps as `Incremented` says and, on a reload, TIMER is requested. */
    method Increment(cpu: Cpu)
      requires tima < 0xFF
      modifies this, cpu
      ensures State() == old(State()).(tima := Incremented(old(tima), old(tma)).0)
      ensures Incremented(old(tima), old(tma)).1 ==>
        cpu.State() == old(cpu.State()).(interruptFlags := Interrupts.Requested(old(cpu.interruptFlags), Timer))
      ensures !Incremented(old(tima), old(tma)).1 ==> cpu.State() == old(cpu.State())
    {
      tima := tima + 1;
      if tima == 0xFF {
        tima := tma;
        Interrupts.Request(cpu, Timer);
      }
    }

    /** `cycles(n)`: `4 * n` steps, each adding one to the tick counter and running
        `tick`. The `u64` product and counter do not overflow. */
    method Cycles(n: nat)
      requires ticks + 4 * n <= MaxTicks
      modifies this
      ensures State() == old(State()).(ticks := old(ticks) + 4 * n)
    {
      var i := 0;
      while i < 4 * n
        invariant 0 <= i <= 4 * n
        invariant State() == old(State()).(ticks := old(ticks) + i)
      {
        ticks := ticks + 1;
        Tick();
        i := i + 1;
      }
    }

    /** `write(address, value)`. */
    method Write(address: bv16, value: bv8)
      modifies this
      ensures State() == Written(old(State()), address, value)
    {
      if address == 0xFF04 {
        div := 0;
      } else if address == 0xFF05 {
        tima := value;
      } else if address == 0xFF06 {
        tma := value;
      } else if address == 0xFF07 {
        tac := value;
      }
    }
  }

  /** After `init`, DIV reads 0xAC at 0xFF04. */
  lemma InitDivRead(s: TimerState)
    ensures Read(s.(div := 0xAC00), 0xFF04) == 0xAC
  {
  }
}
