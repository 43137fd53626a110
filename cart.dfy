/** The cartridge (src/modules/cart.rs): the ROM bytes, the header fields that
    `parse_header` extracts at fixed offsets, and the 8-bit header checksum. */
module Cart {
  import opened Wrappers
  import opened Common

  /** The running sum of the header checksum loop: every byte plus one, taken in
      order. It lies between |s| and 256 * |s|. */
  function SumPlusOne(s: seq<Byte>): (r: int)
    ensures |s| <= r <= 256 * |s|
  {
    if |s| == 0 then 0 else SumPlusOne(s[..|s| - 1]) + s[|s| - 1] + 1
  }

  /** The plain sum of the bytes of `s`. */
  function Sum(s: seq<Byte>): int
  {
    if |s| == 0 then 0 else Sum(s[..|s| - 1]) + s[|s| - 1]
  }

  /** Adding one per byte adds the length to the plain sum. */
  lemma {:induction false} SumPlusOneIsSumPlusLength(s: seq<Byte>)
    ensures SumPlusOne(s) == Sum(s) + |s|
  {
    if |s| > 0 {
      SumPlusOneIsSumPlusLength(s[..|s| - 1]);
    }
  }

  /** The header checksum over the 25 bytes 0x134..0x14C: minus the sum of each byte
      plus one, reduced to its low 8 bits (`& 0xFF` of the two's-complement `i32`,
      which is the remainder modulo 256). Adding it to the plain sum of those bytes
      and to 25 gives a multiple of 256. */
  function HeaderChecksum(data: seq<Byte>): (r: Byte)
    requires |data| >= 0x150
    ensures (Sum(data[0x134..0x14D]) + 25 + r) % 256 == 0
  {
    var s := data[0x134..0x14D];
    SumPlusOneIsSumPlusLength(s);
    (-SumPlusOne(s)) % 256
  }

  /** A header whose 25 checksummed bytes are all zero has checksum 0xE7. */
  lemma ZeroHeaderChecksum(data: seq<Byte>)
    requires |data| >= 0x150
    requires forall i :: 0x134 <= i < 0x14D ==> data[i] == 0
    ensures HeaderChecksum(data) == 0xE7
  {
    var s := data[0x134..0x14D];
    assert forall k :: 0 <= k < |s| ==> s[k] == 0;
    SumOfZeros(s);
    SumPlusOneIsSumPlusLength(s);
  }

  /** A sequence of zero bytes sums to zero. */
  lemma {:induction false} SumOfZeros(s: seq<Byte>)
    requires forall k :: 0 <= k < |s| ==> s[k] == 0
    ensures Sum(s) == 0
  {
    if |s| > 0 {
      SumOfZeros(s[..|s| - 1]);
    }
  }

  /** `lo as u16 | (hi as u16) << 8`: a little-endian 16-bit field whose low byte is
      `lo` and whose high byte is `hi`. */
  function LittleEndian(lo: Byte, hi: Byte): (r: UInt16)
    ensures r % 256 == lo && r / 256 == hi
  {
    lo + 256 * hi
  }

  /** The cartridge. The fixed-size header arrays are sequences of their lengths. */
  class Cart {
    var entry: seq<Byte>
    var logo: seq<Byte>
    var title: seq<char>
    var newLicCode: UInt16
    var sgbFlag: Byte
    var cartType: Byte
    var romSize: Byte
    var ramSize: Byte
    var destCode: Byte
    var oldLicCode: Byte
    var version: Byte
    var checksum: Byte
    var globalChecksum: UInt16
    var data: seq<Byte>

    /** `Cart::new`: zeroed header arrays, a title of sixteen spaces, zero fields and
        no ROM bytes. */
    constructor ()
      ensures entry == seq(4, _ => 0) && logo == seq(0x30, _ => 0) && title == seq(16, _ => ' ')
      ensures newLicCode == 0 && sgbFlag == 0 && cartType == 0 && romSize == 0 && ramSize == 0
      ensures destCode == 0 && oldLicCode == 0 && version == 0 && checksum == 0 && globalChecksum == 0
      ensures data == []
    {
      entry := seq(4, _ => 0);
      logo := seq(0x30, _ => 0);
      title := seq(16, _ => ' ');
      newLicCode, sgbFlag, cartType, romSize, ramSize := 0, 0, 0, 0, 0;
      destCode, oldLicCode, version, checksum, globalChecksum := 0, 0, 0, 0, 0;
      data := [];
    }

    /** A new cartridge after `load` has read the ROM file's bytes `contents` into
        `data`, before the header is parsed. The file system is not modelled: the
        contents are given. */
    constructor Loaded(contents: seq<Byte>)
      ensures entry == seq(4, _ => 0) && logo == seq(0x30, _ => 0) && title == seq(16, _ => ' ')
      ensures data == contents
    {
      entry := seq(4, _ => 0);
      logo := seq(0x30, _ => 0);
      title := seq(16, _ => ' ');
      newLicCode, sgbFlag, cartType, romSize, ramSize := 0, 0, 0, 0, 0;
      destCode, oldLicCode, version, checksum, globalChecksum := 0, 0, 0, 0, 0;
      data := contents;
    }

    /** `read(address)`: the ROM byte at `address`; an address past the end of the ROM
        panics (an out-of-bounds index). */
    function Read(address: UInt16): (r: Result<Byte>)
      reads this
      ensures r.Success? <==> address < |data|
      ensures r.Success? ==> r.value == data[address]
    {
      if address < |data| then Success(data[address]) else Failure("index out of bounds")
    }

    /** `write`: every cartridge write panics. */
    method Write(address: UInt16, value: Byte) returns (ok: bool)
      ensures !ok
    {
      ok := false;
    }

    /** `parse_header`: copies the entry point, the logo and the title, reads the
        single-byte fields at 0x146-0x14D and the two little-endian 16-bit fields, and
        runs the header checksum loop. The header report then prints `32 << rom_size`
        and `8 << ram_size`, `i32` shifts that panic (`ok` false) when the size byte is
        32 or more; the checksum is not reached then. Otherwise the returned verdict is
        what the source prints: whether the stored checksum byte at 0x14D equals the
        computed one. The slices need a ROM of at least 0x150 bytes. */
    method ParseHeader() returns (ok: bool, passed: bool)
      requires |data| >= 0x150
      modifies this
      ensures data == old(data)
      ensures entry == data[0x100..0x104] && logo == data[0x104..0x134]
      ensures |title| == 16 && forall i :: 0 <= i < 16 ==> title[i] == data[0x134 + i] as char
      ensures newLicCode == LittleEndian(data[0x144], data[0x145])
      ensures sgbFlag == data[0x146] && cartType == data[0x147] && romSize == data[0x148]
      ensures ramSize == data[0x149] && destCode == data[0x14A] && oldLicCode == data[0x14B]
      ensures version == data[0x14C] && checksum == data[0x14D]
      ensures globalChecksum == LittleEndian(data[0x14E], data[0x14F])
      ensures ok <==> data[0x148] < 32 && data[0x149] < 32
      ensures ok ==> (passed <==> data[0x14D] == HeaderChecksum(data))
    {
      CopyBlocks();
      ReadFields();
      ok := romSize < 32 && ramSize < 32;
      if !ok {
        passed := false;
        return;
      }
      var computed := ChecksumLoop(data);
      passed := data[0x14D] == (computed % 256) as Byte;
    }

    /** The slice copies of `parse_header`: the entry point (0x100-0x103), the logo
        (0x104-0x133) and the title, one character per byte from 0x134. */
    method CopyBlocks()
      requires |data| >= 0x150
      modifies this`entry, this`logo, this`title
      ensures entry == data[0x100..0x104] && logo == data[0x104..0x134]
      ensures |title| == 16 && forall i :: 0 <= i < 16 ==> title[i] == data[0x134 + i] as char
    {
      var d := data;
      entry := d[0x100..0x104];
      logo := d[0x104..0x134];
      title := seq(16, i requires 0 <= i < 16 => d[0x134 + i] as char);
    }

    /** The scalar fields of `parse_header`: the licensee code from 0x144-0x145, the
        bytes 0x146-0x14D, and the global checksum from 0x14E-0x14F. */
    method ReadFields()
      requires |data| >= 0x150
      modifies this`newLicCode, this`sgbFlag, this`cartType, this`romSize, this`ramSize
      modifies this`destCode, this`oldLicCode, this`version, this`checksum, this`globalChecksum
      ensures newLicCode == LittleEndian(data[0x144], data[0x145])
      ensures sgbFlag == data[0x146] && cartType == data[0x147] && romSize == data[0x148]
      ensures ramSize == data[0x149] && destCode == data[0x14A] && oldLicCode == data[0x14B]
      ensures version == data[0x14C] && checksum == data[0x14D]
      ensures globalChecksum == LittleEndian(data[0x14E], data[0x14F])
    {
      var d := data;
      newLicCode := LittleEndian(d[0x144], d[0x145]);
      sgbFlag, cartType, romSize, ramSize := d[0x146], d[0x147], d[0x148], d[0x149];
      destCode, oldLicCode, version, checksum := d[0x14A], d[0x14B], d[0x14C], d[0x14D];
      globalChecksum := LittleEndian(d[0x14E], d[0x14F]);
    }
  }

  /** The checksum loop of `parse_header`: starting from zero, subtract each header
      byte plus one for the addresses 0x134 to 0x14C. The `i32` accumulator stays
      within -6400..-25, so it never overflows, and its low 8 bits are the header
      checksum. */
  method ChecksumLoop(d: seq<Byte>) returns (computed: int)
    requires |d| >= 0x150
    ensures computed == -SumPlusOne(d[0x134..0x14D])
    ensures -6400 <= computed <= -25
    ensures computed % 256 == HeaderChecksum(d)
  {
    computed := 0;
    for i := 0x134 to 0x14D
      invariant computed == -SumPlusOne(d[0x134..i])
    {
      assert d[0x134..i + 1][..i - 0x134] == d[0x134..i];
      computed := computed - (d[i] as int + 1);
    }
  }
}
