/** Work RAM and high RAM (src/modules/ram.rs): two fixed-size byte arrays behind
    bounds-checked reads and writes. */
module Ram {
  import opened Wrappers
  import opened Common

  /** The WRAM offset of an address. `address - 0xC000` is a non-wrapping `u16`
      subtraction, so an address below 0xC000 fails like one whose offset is 0x2000 or
      more: only 0xC000-0xDFFF are accepted. */
  function WramOffset(address: UInt16): (r: Option<nat>)
    ensures r.Some? <==> 0xC000 <= address <= 0xDFFF
    ensures r.Some? ==> r.value < 0x2000 && r.value + 0xC000 == address
  {
    if address < 0xC000 || address - 0xC000 >= 0x2000 then None else Some(address - 0xC000)
  }

  /** The HRAM offset of an address: `address - 0xFF80`, accepted when below 0x80, that
      is for 0xFF80-0xFFFF. */
  function HramOffset(address: UInt16): (r: Option<nat>)
    ensures r.Some? <==> 0xFF80 <= address
    ensures r.Some? ==> r.value < 0x80 && r.value + 0xFF80 == address
  {
    if address < 0xFF80 || address - 0xFF80 >= 0x80 then None else Some(address - 0xFF80)
  }

  /** Distinct accepted addresses have distinct offsets, so a write to one never
      reaches another. */
  lemma OffsetsInjective(a: UInt16, b: UInt16)
    requires a != b
    ensures WramOffset(a).Some? && WramOffset(b).Some? ==> WramOffset(a).value != WramOffset(b).value
    ensures HramOffset(a).Some? && HramOffset(b).Some? ==> HramOffset(a).value != HramOffset(b).value
  {
  }

  class Ram {
    var wram: array<Byte>
    var hram: array<Byte>

    /** The two arrays have their fixed sizes and are distinct. */
    predicate Valid()
      reads this
    {
      wram.Length == 0x2000 && hram.Length == 0x80 && wram != hram
    }

    /** `RAM::new`: both arrays zero-filled. */
    constructor ()
      ensures Valid() && fresh(wram) && fresh(hram)
      ensures forall i :: 0 <= i < 0x2000 ==> wram[i] == 0
      ensures forall i :: 0 <= i < 0x80 ==> hram[i] == 0
    {
      wram := new Byte[0x2000](_ => 0);
      hram := new Byte[0x80](_ => 0);
    }

    /** `wram_read`: the byte at the address's offset; an address outside
        0xC000-0xDFFF panics. */
    function WramRead(address: UInt16): (r: Result<Byte>)
      requires Valid()
      reads this, wram
      ensures r.Success? <==> 0xC000 <= address <= 0xDFFF
      ensures r.Success? ==> r.value == wram[address - 0xC000]
    {
      var offset := WramOffset(address);
      if offset.None? then Failure("invalid WRAM address") else Success(wram[offset.value])
    }

    /** `wram_write`: stores the byte at the address's offset. An address outside
        0xC000-0xDFFF fails and changes nothing; HRAM is never touched. Afterwards the
        written address reads back `value` and every other address reads as before. */
    method WramWrite(address: UInt16, value: Byte) returns (ok: bool)
      requires Valid()
      modifies wram
      ensures Valid()
      ensures ok <==> 0xC000 <= address <= 0xDFFF
      ensures ok ==> wram[..] == old(wram[..])[address - 0xC000 := value]
      ensures !ok ==> wram[..] == old(wram[..])
      ensures ok ==> WramRead(address) == Success(value)
      ensures forall a: UInt16 :: a != address ==> WramRead(a) == old(WramRead(a))
    {
      var offset := WramOffset(address);
      if offset.None? {
        return false;
      }
      wram[offset.value] := value;
      ok := true;
    }

    /** `hram_read`: the byte at the address's offset; an address below 0xFF80 panics. */
    function HramRead(address: UInt16): (r: Result<Byte>)
      requires Valid()
      reads this, hram
      ensures r.Success? <==> 0xFF80 <= address
      ensures r.Success? ==> r.value == hram[address - 0xFF80]
    {
      var offset := HramOffset(address);
      if offset.None? then Failure("invalid HRAM address") else Success(hram[offset.value])
    }

    /** `hram_write`: stores the byte at the address's offset. An address below 0xFF80
        fails and changes nothing; WRAM is never touched. Afterwards the written address
        reads back `value` and every other address reads as before. */
    method HramWrite(address: UInt16, value: Byte) returns (ok: bool)
      requires Valid()
      modifies hram
      ensures Valid()
      ensures ok <==> 0xFF80 <= address
      ensures ok ==> hram[..] == old(hram[..])[address - 0xFF80 := value]
      ensures !ok ==> hram[..] == old(hram[..])
      ensures ok ==> HramRead(address) == Success(value)
      ensures forall a: UInt16 :: a != address ==> HramRead(a) == old(HramRead(a))
    {
      var offset := HramOffset(address);
      if offset.None? {
        return false;
      }
      hram[offset.value] := value;
      ok := true;
    }
  }
}
