/** The PPU's memories (src/modules/ppu.rs): object attribute memory (OAM, 0xA0 bytes)
    and video RAM (0x2000 bytes). */
module Ppu {
  import opened Wrappers
  import opened Common

  /** The OAM slot an address names: 0xFE00 and above is taken relative to 0xFE00,
      anything lower is used as it is. */
  function OamSlot(address: UInt16): (r: nat)
    ensures address >= 0xFE00 ==> r + 0xFE00 == address
    ensures address < 0xFE00 ==> r == address
  {
    if address >= 0xFE00 then address - 0xFE00 else address
  }

  /** Both spellings of a slot, `i` and `0xFE00 + i`, name the same slot, and only
      these two do: the slot index must be below 0xA0 to be accepted. */
  lemma OamSlotAliases(i: UInt16, a: UInt16)
    requires i < 0xA0
    ensures OamSlot(i) == i && OamSlot(0xFE00 + i) == i
    ensures OamSlot(a) == i <==> a == i || a == 0xFE00 + i
  {
  }

  /** The VRAM offset of an address: `address - 0x8000` is a non-wrapping `u16`
      subtraction, so only 0x8000-0x9FFF reach the array. */
  function VramOffset(address: UInt16): (r: Option<nat>)
    ensures r.Some? <==> 0x8000 <= address <= 0x9FFF
    ensures r.Some? ==> r.value < 0x2000 && r.value + 0x8000 == address
  {
    if address < 0x8000 || address - 0x8000 >= 0x2000 then None else Some(address - 0x8000)
  }

  class Ppu {
    var oamRam: array<Byte>
    var vram: array<Byte>

    /** The two arrays have their fixed sizes and are distinct. */
    predicate Valid()
      reads this
    {
      oamRam.Length == 0xA0 && vram.Length == 0x2000 && oamRam != vram
    }

    /** `PPU::new`: OAM and VRAM zero-filled. */
    constructor ()
      ensures Valid() && fresh(oamRam) && fresh(vram)
      ensures forall i :: 0 <= i < 0xA0 ==> oamRam[i] == 0
      ensures forall i :: 0 <= i < 0x2000 ==> vram[i] == 0
    {
      oamRam := new Byte[0xA0](_ => 0);
      vram := new Byte[0x2000](_ => 0);
    }

    /** `oam_read`: the byte in the address's slot; a slot of 0xA0 or more is out of
        bounds and panics. */
    function OamRead(address: UInt16): (r: Result<Byte>)
      requires Valid()
      reads this, oamRam
      ensures r.Success? <==> OamSlot(address) < 0xA0
      ensures r.Success? ==> r.value == oamRam[OamSlot(address)]
    {
      var slot := OamSlot(address);
      if slot < 0xA0 then Success(oamRam[slot]) else Failure("OAM index out of bounds")
    }

    /** `oam_write`: stores the byte in the address's slot; an out-of-bounds slot fails
        and changes nothing, and VRAM is never touched. Afterwards both spellings of the
        slot read back `value` and every other slot is as before. */
    method OamWrite(address: UInt16, value: Byte) returns (ok: bool)
      requires Valid()
      modifies oamRam
      ensures Valid()
      ensures ok <==> OamSlot(address) < 0xA0
      ensures ok ==> oamRam[..] == old(oamRam[..])[OamSlot(address) := value]
      ensures !ok ==> oamRam[..] == old(oamRam[..])
      ensures ok ==> OamRead(address) == Success(value)
      ensures forall a: UInt16 :: OamSlot(a) != OamSlot(address) ==> OamRead(a) == old(OamRead(a))
    {
      var slot := OamSlot(address);
      if slot >= 0xA0 {
        return false;
      }
      oamRam[slot] := value;
      ok := true;
    }

    /** `vram_read`: the byte at `address - 0x8000`; addresses outside 0x8000-0x9FFF
        panic. */
    function VramRead(address: UInt16): (r: Result<Byte>)
      requires Valid()
      reads this, vram
      ensures r.Success? <==> 0x8000 <= address <= 0x9FFF
      ensures r.Success? ==> r.value == vram[address - 0x8000]
    {
      var offset := VramOffset(address);
      if offset.None? then Failure("VRAM address out of range") else Success(vram[offset.value])
    }

    /** `vram_write`: stores the byte at `address - 0x8000`; addresses outside
        0x8000-0x9FFF fail and change nothing, and OAM is never touched. Afterwards the
        address reads back `value` and every other address reads as before. */
    method VramWrite(address: UInt16, value: Byte) returns (ok: bool)
      requires Valid()
      modifies vram
      ensures Valid()
      ensures ok <==> 0x8000 <= address <= 0x9FFF
      ensures ok ==> vram[..] == old(vram[..])[address - 0x8000 := value]
      ensures !ok ==> vram[..] == old(vram[..])
      ensures ok ==> VramRead(address) == Success(value)
      ensures forall a: UInt16 :: a != address ==> VramRead(a) == old(VramRead(a))
    {
      var offset := VramOffset(address);
      if offset.None? {
        return false;
      }
      vram[offset.value] := value;
      ok := true;
    }
  }
}
