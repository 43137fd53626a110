/** The OAM DMA transfer (src/modules/dma.rs): after a start delay of two ticks, copy one
    byte per tick from the 0x100-byte source page into OAM until 0xA0 bytes are done.
    The bus the transfer reads from is abstracted as 0x10000 bytes. */
module Dma {
  import opened Common
  import Ppu

  /** Every field of the DMA unit as one value. */
  datatype DmaState = DmaState(active: bool, byte: Byte, value: Byte, startDelay: Byte)

  /** The invariant `start` sets up and `tick` keeps: at most 0xA0 bytes are done, and
      an active transfer has a next byte to copy, so `byte += 1` never overflows and
      every OAM write is in bounds. */
  predicate Valid(d: DmaState)
  {
    d.byte <= 0xA0 && (d.active ==> d.byte < 0xA0)
  }

  /** `start(s)`: active, no bytes done, a delay of two ticks, source page `s`. */
  function Started(start: Byte): (d: DmaState)
    ensures Valid(d) && d.active
  {
    DmaState(true, 0, start, 2)
  }

  /** The bus address of the next byte of an active transfer: `value as u16 * 0x100 +
      byte as u16`, at most 0xFF9F, so the `u16` arithmetic never overflows. */
  function SourceAddress(d: DmaState): (a: nat)
    requires Valid(d) && d.active
    ensures a < 0xFFA0 && a == d.value * 0x100 + d.byte
  {
    assert d.value * 0x100 <= 0xFF * 0x100;
    d.value * 0x100 + d.byte
  }

  /** `tick` on the DMA state and the OAM contents: an inactive unit does nothing; while
      the delay is nonzero it only counts the delay down; otherwise the next source byte
      is copied into OAM slot `byte`, `byte` goes up by one and the transfer stays active
      while `byte` is below 0xA0. */
  function Ticked(d: DmaState, oam: seq<Byte>, bus: seq<Byte>): (r: (DmaState, seq<Byte>))
    requires Valid(d) && |oam| == 0xA0 && |bus| == 0x10000
    ensures Valid(r.0) && |r.1| == 0xA0
    ensures !d.active ==> r == (d, oam)
    ensures d.active && d.startDelay > 0 ==> r == (d.(startDelay := d.startDelay - 1), oam)
  {
    if !d.active then (d, oam)
    else if d.startDelay > 0 then (d.(startDelay := d.startDelay - 1), oam)
    else
      var b := d.byte + 1;
      (d.(byte := b, active := b < 0xA0), oam[d.byte := bus[SourceAddress(d)]])
  }

  /** `n` ticks in a row. */
  function Run(d: DmaState, oam: seq<Byte>, bus: seq<Byte>, n: nat): (r: (DmaState, seq<Byte>))
    requires Valid(d) && |oam| == 0xA0 && |bus| == 0x10000
    ensures Valid(r.0) && |r.1| == 0xA0
    decreases n
  {
    if n == 0 then (d, oam)
    else
      var t := Ticked(d, oam, bus);
      Run(t.0, t.1, bus, n - 1)
  }

  /** One more tick after `n` ticks is `n + 1` ticks. */
  lemma {:induction false} RunSnoc(d: DmaState, oam: seq<Byte>, bus: seq<Byte>, n: nat)
    requires Valid(d) && |oam| == 0xA0 && |bus| == 0x10000
    ensures var r := Run(d, oam, bus, n); Run(d, oam, bus, n + 1) == Ticked(r.0, r.1, bus)
    decreases n
  {
    if n > 0 {
      var t := Ticked(d, oam, bus);
      RunSnoc(t.0, t.1, bus, n - 1);
    }
  }

  /** `k` ticks after `start(s)`, for `k` from 2 to 162: the delay is over, `k - 2`
      bytes are done, the first `k - 2` OAM slots hold the source page's bytes, the
      rest are as before, and the transfer is still active exactly while `k < 162`. */
  lemma {:induction false} RunFromStart(s: Byte, oam: seq<Byte>, bus: seq<Byte>, k: nat)
    requires |oam| == 0xA0 && |bus| == 0x10000 && 2 <= k <= 162
    ensures var r := Run(Started(s), oam, bus, k);
      && r.0 == DmaState(k < 162, k - 2, s, 0)
      && (forall i :: 0 <= i < k - 2 ==> r.1[i] == bus[s * 0x100 + i])
      && (forall i :: k - 2 <= i < 0xA0 ==> r.1[i] == oam[i])
    decreases k
  {
    if k == 2 {
      assert Run(Started(s), oam, bus, 1) == (DmaState(true, 0, s, 1), oam);
    } else {
      RunFromStart(s, oam, bus, k - 1);
      RunSnoc(Started(s), oam, bus, k - 1);
    }
  }

  /** The transfer takes exactly 2 + 160 ticks from `start(s)`: it is active after every
      shorter run, inactive after 162 ticks, and OAM then holds the 0xA0 bytes of the
      source page starting at `s * 0x100`. */
  lemma TransferCompletes(s: Byte, oam: seq<Byte>, bus: seq<Byte>)
    requires |oam| == 0xA0 && |bus| == 0x10000
    ensures var r := Run(Started(s), oam, bus, 162);
      !r.0.active && r.1 == bus[s * 0x100 .. s * 0x100 + 0xA0]
    ensures forall k: nat :: k < 162 ==> Run(Started(s), oam, bus, k).0.active
  {
    RunFromStart(s, oam, bus, 162);
    forall k: nat | k < 162
      ensures Run(Started(s), oam, bus, k).0.active
    {
      if k >= 2 {
        RunFromStart(s, oam, bus, k);
      } else if k == 1 {
        assert Run(Started(s), oam, bus, 1) == (DmaState(true, 0, s, 1), oam);
      }
    }
  }

  /** Once the transfer is over, further ticks change nothing. */
  lemma {:induction false} IdleStaysIdle(d: DmaState, oam: seq<Byte>, bus: seq<Byte>, n: nat)
    requires Valid(d) && |oam| == 0xA0 && |bus| == 0x10000 && !d.active
    ensures Run(d, oam, bus, n) == (d, oam)
    decreases n
  {
    if n > 0 {
      IdleStaysIdle(d, oam, bus, n - 1);
    }
  }

  /** The DMA unit. */
  class Dma {
    var active: bool
    var byte: Byte
    var value: Byte
    var startDelay: Byte

    function State(): DmaState
      reads this
    {
      DmaState(active, byte, value, startDelay)
    }

    /** `Dma::new`: inactive, every counter zero. */
    constructor ()
      ensures State() == DmaState(false, 0, 0, 0) && Valid(State())
    {
      active, byte, value, startDelay := false, 0, 0, 0;
    }

    /** `start(cpu, start)`: begin a transfer from page `start`. */
    method Start(start: Byte)
      modifies this
      ensures State() == Started(start)
    {
      active := true;
      byte := 0;
      startDelay := 2;
      value := start;
    }

    /** `tick`: one step of the transfer, copying through the PPU's `oam_write` at slot
        `byte`, which is always in bounds. The new state and OAM are those of `Ticked`,
        and VRAM is not touched. */
    method Tick(ppu: Ppu.Ppu, bus: seq<Byte>)
      requires Valid(State()) && ppu.Valid() && |bus| == 0x10000
      modifies this, ppu.oamRam
      ensures ppu.Valid()
      ensures (State(), ppu.oamRam[..]) == Ticked(old(State()), old(ppu.oamRam[..]), bus)
    {
      if !active {
        return;
      }
      if startDelay > 0 {
        startDelay := startDelay - 1;
        return;
      }
      var v := bus[value * 0x100 + byte];
      var ok := ppu.OamWrite(byte, v);
      byte := byte + 1;
      active := byte < 0xA0;
    }

    /** `is_trasferring`: whether a transfer is under way; one that is has a next byte
        below 0xA0 to copy (and one that is not stays idle, `IdleStaysIdle`). */
    function IsTransferring(): (r: bool)
      requires Valid(State())
      reads this
      ensures r ==> byte < 0xA0
    {
      active
    }
  }
}
