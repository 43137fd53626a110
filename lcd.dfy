/** The LCD register file (src/modules/lcd.rs): the twelve registers at 0xFF40-0xFF4B,
    the bit fields of LCDC and STAT, the LY/LYC compare, and the three four-entry
    palettes, held as shade indices 0 (white) to 3 (black). */
module Lcd {
  import opened Common
  import Enums
  import Cpu
  import Interrupts
  import Dma

  /** A palette entry: the index of one of the four tile colours, 0 the lightest. */
  type Shade = s: bv8 | s < 4

  /** `TILE_COLORS` as shade indices: entry `i` is shade `i`. */
  function TileColor(i: nat): Shade
    requires i < 4
  {
    if i == 0 then 0 else if i == 1 then 1 else if i == 2 then 2 else 3
  }

  /** The PPU mode in STAT bits 0-1. */
  datatype LcdMode = HBlank | VBlank | Oam | Xfer

  /** The discriminant of a mode (`mode as u8`). */
  function ModeBits(m: LcdMode): (b: bv8)
    ensures b < 4
  {
    match m
    case HBlank => 0
    case VBlank => 1
    case Oam => 2
    case Xfer => 3
  }

  /** A STAT interrupt source, selected by one of STAT bits 3-6. */
  datatype StatSrc = StatHBlank | StatVBlank | StatOam | StatLyc

  /** The discriminant of a STAT source (`src as u8`): a single bit among bits 3-6. */
  function StatBit(src: StatSrc): (b: bv8)
    ensures b in {0x08, 0x10, 0x20, 0x40}
  {
    match src
    case StatHBlank => 1 << 3
    case StatVBlank => 1 << 4
    case StatOam => 1 << 5
    case StatLyc => 1 << 6
  }

  /** `get_lcds_mode` on a STAT value: the mode whose discriminant is bits 0-1. */
  function ModeOf(lcds: bv8): (m: LcdMode)
    ensures ModeBits(m) == lcds & 3
  {
    var b := lcds & 3;
    if b == 0 then HBlank else if b == 1 then VBlank else if b == 2 then Oam else Xfer
  }

  /** `set_lcds_mode` on a STAT value: bits 0-1 replaced by the mode's discriminant. */
  function WithMode(lcds: bv8, m: LcdMode): (r: bv8)
    ensures r & 0xFC == lcds & 0xFC
  {
    (lcds & 0xFC) | ModeBits(m)
  }

  /** Setting a mode and reading it back gives that mode, and setting the mode that is
      already there changes nothing. */
  lemma ModeRoundTrip(lcds: bv8, m: LcdMode)
    ensures ModeOf(WithMode(lcds, m)) == m
    ensures WithMode(lcds, ModeOf(lcds)) == lcds
  {
    assert WithMode(lcds, m) & 3 == ModeBits(m);
  }

  /** `set_lyc(value)` on a STAT value: bit 2 cleared, then `value << 2` ORed in. */
  function WithLyc(lcds: bv8, value: bv8): bv8
  {
    (lcds & 0xFB) | (value << 2)
  }

  /** For the two values `increment_ly` passes, 0 and 1, `set_lyc` makes `lyc()` (STAT
      & 4) equal to `value << 2` and keeps every other bit of STAT. A larger value would
      also set bits above bit 2 (2 sets bit 3). */
  lemma LycRoundTrip(lcds: bv8, value: bv8)
    ensures value <= 1 ==> WithLyc(lcds, value) & 4 == value << 2
    ensures value <= 1 ==> WithLyc(lcds, value) & 0xFB == lcds & 0xFB
    ensures WithLyc(lcds, 2) & 0x08 != 0
  {
  }

  /** `update_pallete`'s index formula: slot `i` of the palette byte `pdata` is bits
      `2i` and `2i + 1`, as the shade `(pdata >> 2i) & 3`. */
  function PaletteShades(pdata: bv8): (r: seq<Shade>)
    ensures |r| == 4
    ensures forall i :: 0 <= i < 4 ==> r[i] == (pdata >> (2 * i) as bv8) & 3
  {
    [pdata & 3, (pdata >> 2) & 3, (pdata >> 4) & 3, (pdata >> 6) & 3]
  }

  /** The four shades pack back into the palette byte: slot `i` at bits `2i` and
      `2i + 1`. So two palette bytes with the same shades are equal. */
  lemma PaletteShadesRoundTrip(pdata: bv8)
    ensures var s := PaletteShades(pdata);
      (s[0] as bv8) | ((s[1] as bv8) << 2) | ((s[2] as bv8) << 4) | ((s[3] as bv8) << 6) == pdata
  {
  }

  /** The object palettes ignore colour 0: `write` masks their low two bits, so slot 0
      of an object palette is always shade 0 and the other slots are those of the
      written byte. */
  lemma ObjectPaletteSlotZero(value: bv8)
    ensures PaletteShades(value & 0xFC)[0] == 0
    ensures PaletteShades(value & 0xFC)[1..] == PaletteShades(value)[1..]
  {
  }

  /** The register addresses `read` and `write` accept; the source declares every other
      offset from 0xFF40 unreachable. */
  predicate IsRegister(address: bv16)
  {
    0xFF40 <= address <= 0xFF4B
  }

  class Lcd {
    var lcdc: bv8
    var lcds: bv8
    var scy: bv8
    var scx: bv8
    var ly: bv8
    var lyc: bv8
    var dma: bv8
    var bgp: bv8
    var objp0: bv8
    var objp1: bv8
    var wy: bv8
    var wx: bv8
    var bgColors: seq<Shade>
    var sp1Colors: seq<Shade>
    var sp2Colors: seq<Shade>

    /** Each palette has four entries, as the source's fixed-size arrays do. */
    predicate Valid()
      reads this
    {
      |bgColors| == 4 && |sp1Colors| == 4 && |sp2Colors| == 4
    }

    /** `LCD::new`: every register zero and every palette entry black. */
    constructor ()
      ensures Valid()
      ensures lcdc == 0 && lcds == 0 && scy == 0 && scx == 0 && ly == 0 && lyc == 0
      ensures dma == 0 && bgp == 0 && objp0 == 0 && objp1 == 0 && wy == 0 && wx == 0
      ensures bgColors == [3, 3, 3, 3] && sp1Colors == [3, 3, 3, 3] && sp2Colors == [3, 3, 3, 3]
    {
      lcdc, lcds, scy, scx, ly, lyc := 0, 0, 0, 0, 0, 0;
      dma, bgp, objp0, objp1, wy, wx := 0, 0, 0, 0, 0, 0;
      bgColors := [3, 3, 3, 3];
      sp1Colors := [3, 3, 3, 3];
      sp2Colors := [3, 3, 3, 3];
    }

    /** `bgw_enabled`: LCDC bit 0, in place. */
    function BgwEnabled(): (r: bv8)
      reads this
      ensures r in {0, 1} && (r != 0 <==> Bit(lcdc, 0))
    {
      lcdc & 0x01
    }

    /** `obj_enabled`: LCDC bit 1, in place. */
    function ObjEnabled(): (r: bv8)
      reads this
      ensures r in {0, 2} && (r != 0 <==> Bit(lcdc, 1))
    {
      lcdc & 0x02
    }

    /** `obj_height`: 16-pixel objects when LCDC bit 2 is set, 8 otherwise. */
    function ObjHeight(): (r: bv8)
      reads this
      ensures r in {8, 16} && (r == 16 <==> Bit(lcdc, 2))
    {
      if lcdc & 0x04 != 0 then 16 else 8
    }

    /** `bg_map_area`: the background tile map at 0x9C00 when LCDC bit 3 is set, at
        0x9800 otherwise. */
    function BgMapArea(): (r: bv16)
      reads this
      ensures r in {0x9800, 0x9C00} && (r == 0x9C00 <==> Bit(lcdc, 3))
    {
      if lcdc & 0x08 != 0 then 0x9C00 else 0x9800
    }

    /** `bgw_data_area`: tile data at 0x8000 when LCDC bit 4 is set, at 0x8800
        otherwise. */
    function BgwDataArea(): (r: bv16)
      reads this
      ensures r in {0x8000, 0x8800} && (r == 0x8000 <==> Bit(lcdc, 4))
    {
      if lcdc & 0x10 != 0 then 0x8000 else 0x8800
    }

    /** `window_enabled`: LCDC bit 5, in place. */
    function WindowEnabled(): (r: bv8)
      reads this
      ensures r in {0, 0x20} && (r != 0 <==> Bit(lcdc, 5))
    {
      lcdc & 0x20
    }

    /** `window_map_area`: the window tile map at 0x9C00 when LCDC bit 6 is set, at
        0x9800 otherwise. */
    function WindowMapArea(): (r: bv16)
      reads this
      ensures r in {0x9800, 0x9C00} && (r == 0x9C00 <==> Bit(lcdc, 6))
    {
      if lcdc & 0x40 != 0 then 0x9C00 else 0x9800
    }

    /** `lcd_enabled`: LCDC bit 7, in place. */
    function LcdEnabled(): (r: bv8)
      reads this
      ensures r in {0, 0x80} && (r != 0 <==> Bit(lcdc, 7))
    {
      lcdc & 0x80
    }

    /** `get_lcds_mode`: the mode in STAT bits 0-1. */
    function GetLcdsMode(): (m: LcdMode)
      reads this
      ensures ModeBits(m) == lcds & 3
    {
      ModeOf(lcds)
    }

    /** `set_lcds_mode`: STAT bits 0-1 become the mode, so `GetLcdsMode` returns it;
        bits 2-7 of STAT and every other register are unchanged. */
    method SetLcdsMode(mode: LcdMode)
      modifies this`lcds
      ensures lcds == WithMode(old(lcds), mode)
      ensures GetLcdsMode() == mode && lcds & 0xFC == old(lcds) & 0xFC
    {
      ModeRoundTrip(lcds, mode);
      lcds := (lcds & 0xFC) | ModeBits(mode);
    }

    /** `lyc`: the LY = LYC coincidence bit, STAT bit 2, in place. */
    function Lyc(): (r: bv8)
      reads this
      ensures r in {0, 4} && (r != 0 <==> Bit(lcds, 2))
    {
      lcds & 0x04
    }

    /** `set_lyc`: STAT bit 2 cleared and `value << 2` ORed in. */
    method SetLyc(value: bv8)
      modifies this`lcds
      ensures lcds == WithLyc(old(lcds), value)
      ensures value <= 1 ==> Lyc() == value << 2 && lcds & 0xFB == old(lcds) & 0xFB
    {
      LycRoundTrip(lcds, value);
      lcds := (lcds & 0xFB) | (value << 2);
    }

    /** `stat_interrupt`: whether STAT enables the interrupt on `src`, as its bit in
        place. */
    function StatInterrupt(src: StatSrc): (r: bv8)
      reads this
      ensures r == 0 || r == StatBit(src)
      ensures r != 0 <==> lcds & StatBit(src) != 0
    {
      lcds & StatBit(src)
    }

    /** `increment_ly`: LY goes up by one (a non-wrapping `+=`, so LY is below 0xFF).
        The coincidence bit is then set exactly when the new LY equals LYC, and an
        LCDSTAT interrupt is requested exactly when they are equal and STAT enables the
        LYC source (bit 6). Nothing else changes. */
    method IncrementLy(cpu: Cpu.Cpu)
      requires ly < 0xFF
      modifies this`ly, this`lcds, cpu
      ensures ly == old(ly) + 1
      ensures lcds == WithLyc(old(lcds), if ly == lyc then 1 else 0)
      ensures Bit(lcds, 2) <==> ly == lyc
      ensures lcds & 0xFB == old(lcds) & 0xFB
      ensures cpu.interruptFlags ==
        if ly == lyc && Bit(old(lcds), 6) then Interrupts.Requested(old(cpu.interruptFlags), Enums.LcdStat)
        else old(cpu.interruptFlags)
      ensures cpu.State() == old(cpu.State()).(interruptFlags := cpu.interruptFlags)
    {
      ly := ly + 1;
      if ly == lyc {
        SetLyc(1);
        if lcds & StatBit(StatLyc) != 0 {
          Interrupts.Request(cpu, Enums.LcdStat);
        }
      } else {
        SetLyc(0);
      }
    }

    /** `init`: LCDC 0x91, BGP 0xFC, both object palettes 0xFF, the scroll, LY, LYC and
        window registers zero, and every palette entry the tile colour of its index.
        STAT and DMA are not touched. */
    method Init()
      modifies this`lcdc, this`scx, this`scy, this`ly, this`lyc, this`bgp
      modifies this`objp0, this`objp1, this`wy, this`wx
      modifies this`bgColors, this`sp1Colors, this`sp2Colors
      ensures Valid()
      ensures lcdc == 0x91 && bgp == 0xFC && objp0 == 0xFF && objp1 == 0xFF
      ensures scx == 0 && scy == 0 && ly == 0 && lyc == 0 && wy == 0 && wx == 0
      ensures forall i :: 0 <= i < 4 ==>
        bgColors[i] == TileColor(i) && sp1Colors[i] == TileColor(i) && sp2Colors[i] == TileColor(i)
    {
      lcdc := 0x91;
      scx, scy, ly, lyc := 0, 0, 0, 0;
      bgp := 0xFC;
      objp0, objp1 := 0xFF, 0xFF;
      wy, wx := 0, 0;
      LoadTileColors();
    }

    /** The loop of `init`: entry `i` of each of the three palettes becomes
        `TILE_COLORS[i]`, for `i` from 0 to 3. */
    method LoadTileColors()
      modifies this`bgColors, this`sp1Colors, this`sp2Colors
      ensures Valid()
      ensures forall i :: 0 <= i < 4 ==>
        bgColors[i] == TileColor(i) && sp1Colors[i] == TileColor(i) && sp2Colors[i] == TileColor(i)
    {
      var bg, sp1, sp2: seq<Shade> := [0, 0, 0, 0], [0, 0, 0, 0], [0, 0, 0, 0];
      for i := 0 to 4
        invariant |bg| == 4 && |sp1| == 4 && |sp2| == 4
        invariant forall j :: 0 <= j < i ==> bg[j] == TileColor(j) && sp1[j] == TileColor(j) && sp2[j] == TileColor(j)
      {
        bg := bg[i := TileColor(i)];
        sp1 := sp1[i := TileColor(i)];
        sp2 := sp2[i := TileColor(i)];
      }
      bgColors, sp1Colors, sp2Colors := bg, sp1, sp2;
    }

    /** `read`: the register at `address - 0xFF40`, in the order LCDC, STAT, SCY, SCX, LY,
        LYC, DMA, BGP, OBP0, OBP1, WY, WX. */
    function Read(address: bv16): bv8
      requires IsRegister(address)
      reads this
    {
      var offset := address - 0xFF40;
      if offset == 0x00 then lcdc
      else if offset == 0x01 then lcds
      else if offset == 0x02 then scy
      else if offset == 0x03 then scx
      else if offset == 0x04 then ly
      else if offset == 0x05 then lyc
      else if offset == 0x06 then dma
      else if offset == 0x07 then bgp
      else if offset == 0x08 then objp0
      else if offset == 0x09 then objp1
      else if offset == 0x0A then wy
      else wx
    }

    /** The register store of `write`: the register at `address - 0xFF40` becomes
        `value`, so it reads back `value`, and the other eleven read as before. */
    method Store(address: bv16, value: bv8)
      requires IsRegister(address)
      modifies this`lcdc, this`lcds, this`scy, this`scx, this`ly, this`lyc
      modifies this`dma, this`bgp, this`objp0, this`objp1, this`wy, this`wx
      ensures Read(address) == value
      ensures forall a :: IsRegister(a) && a != address ==> Read(a) == old(Read(a))
    {
      var offset := address - 0xFF40;
      if offset == 0x00 { lcdc := value; }
      else if offset == 0x01 { lcds := value; }
      else if offset == 0x02 { scy := value; }
      else if offset == 0x03 { scx := value; }
      else if offset == 0x04 { ly := value; }
      else if offset == 0x05 { lyc := value; }
      else if offset == 0x06 { dma := value; }
      else if offset == 0x07 { bgp := value; }
      else if offset == 0x08 { objp0 := value; }
      else if offset == 0x09 { objp1 := value; }
      else if offset == 0x0A { wy := value; }
      else { wx := value; }
    }

    /** `update_pallete(pdata, pal)`: the background palette entries become the four
        shades of `pdata`. The source first copies an object palette over it for
        `pal` 1 or 2, but all four entries are then overwritten, so only `pdata`
        matters; the object palettes are never changed. */
    method UpdatePalette(pdata: bv8, pal: bv8)
      requires Valid()
      modifies this`bgColors
      ensures Valid()
      ensures bgColors == PaletteShades(pdata)
    {
      var colors := bgColors;
      if pal == 1 {
        colors := sp1Colors;
      } else if pal == 2 {
        colors := sp2Colors;
      }
      var shades := PaletteShades(pdata);
      colors := colors[0 := shades[0]][1 := shades[1]][2 := shades[2]][3 := shades[3]];
      assert colors == shades;
      bgColors := colors;
    }

    /** `write`: stores the register; a write to 0xFF46 also starts a DMA transfer from
        page `value`; a write to BGP loads the background palette from `value`, and one
        to OBP0 or OBP1 loads it from `value` with its low two bits cleared. The DMA unit
        is otherwise untouched. */
    method Write(dmaUnit: Dma.Dma, address: bv16, value: bv8)
      requires IsRegister(address) && Valid()
      modifies this, dmaUnit
      ensures Valid()
      ensures Read(address) == value
      ensures forall a :: IsRegister(a) && a != address ==> Read(a) == old(Read(a))
      ensures address == 0xFF46 ==> dmaUnit.State() == Dma.Started(value as int)
      ensures address != 0xFF46 ==> dmaUnit.State() == old(dmaUnit.State())
      ensures address == 0xFF47 ==> bgColors == PaletteShades(value)
      ensures address in {0xFF48, 0xFF49} ==> bgColors == PaletteShades(value & 0xFC)
      ensures address !in {0xFF47, 0xFF48, 0xFF49} ==> bgColors == old(bgColors)
      ensures sp1Colors == old(sp1Colors) && sp2Colors == old(sp2Colors)
    {
      Store(address, value);
      if address - 0xFF40 == 0x06 {
        dmaUnit.Start(value as int);
      }
      if address == 0xFF47 {
        UpdatePalette(value, 0);
      } else if address == 0xFF48 {
        UpdatePalette(value & 0xFC, 1);
      } else if address == 0xFF49 {
        UpdatePalette(value & 0xFC, 2);
      }
    }
  }
}
