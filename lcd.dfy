/**
 * The LCD register block 0xFF40-0xFF4B of sources/lcd.cpp and the decoders of
 * headers/lcd.hpp.  The twelve registers are an explicit 12-byte array in
 * bus order; next to them sit the three colour tables (background and the two
 * object palettes) that a palette write recomputes from a fixed ramp of four
 * ARGB colours.  A write to 0xFF46 starts the OAM DMA engine.
 */
module Lcd {
  import opened Common
  import Dma

  /** The registers in bus order, offsets from 0xFF40. */
  const RegCount: nat := 12
  const LcdcAt: nat := 0
  const StatAt: nat := 1
  const ScrollYAt: nat := 2
  const ScrollXAt: nat := 3
  const LyAt: nat := 4
  const LyCompareAt: nat := 5
  const DmaAt: nat := 6
  const BgPaletteAt: nat := 7
  const ObjPalette0At: nat := 8
  const ObjPalette1At: nat := 9
  const WinYAt: nat := 10
  const WinXAt: nat := 11

  /** White, light grey, dark grey, black. */
  const Ramp: seq<u32> := [0xFFFFFFFF, 0xFFAAAAAA, 0xFF555555, 0xFF000000]

  /** The PPU modes, in the order of their two-bit STAT encoding. */
  datatype LcdMode = HBlank | VBlank | OamScan | PixelTransfer

  /** The two-bit code of a mode. */
  function ModeCode(m: LcdMode): (b: u8)
    ensures b < 4
  {
    match m
    case HBlank => 0
    case VBlank => 1
    case OamScan => 2
    case PixelTransfer => 3
  }

  /** LCDS_MODE: the mode held in bits 0-1 of STAT. */
  function ModeOf(stat: u8): LcdMode
  {
    var b := stat & 3;
    if b == 0 then HBlank else if b == 1 then VBlank else if b == 2 then OamScan else PixelTransfer
  }

  /** LCDS_MODE_SET: bits 0-1 are cleared and the mode's code is or-ed in. */
  function StatWithMode(stat: u8, m: LcdMode): u8
  {
    (stat & !3) | ModeCode(m)
  }

  /** LCDS_LYC: the LY == LYC flag, bit 2. */
  predicate Coincidence(stat: u8)
  {
    Bit(stat, 2)
  }

  /** LCDS_LYC_SET: bit 2 becomes `on`. */
  function StatWithCoincidence(stat: u8, on: bool): u8
  {
    BitSet(stat, 2, on)
  }

  /** The STAT interrupt sources. */
  const HBlankSource: u8 := 0x08
  const VBlankSource: u8 := 0x10
  const OamSource: u8 := 0x20
  const LycSource: u8 := 0x40

  /** LCDS_STAT_INT: whether STAT selects the source. */
  predicate StatInterrupt(stat: u8, source: u8)
  {
    stat & source != 0
  }

  /** The LCDC bit decoders, all at once. */
  datatype LcdcView = LcdcView(
    bgWindowEnable: bool,
    objEnable: bool,
    objHeight: nat,
    bgMapArea: u16,
    bgWindowDataArea: u16,
    windowEnable: bool,
    windowMapArea: u16,
    lcdEnable: bool)

  /** LCDC_BGW_ENABLE ... LCDC_LCD_ENABLE, bits 0 to 7. */
  function Decode(lcdc: u8): LcdcView
  {
    LcdcView(
      Bit(lcdc, 0),
      Bit(lcdc, 1),
      if Bit(lcdc, 2) then 16 else 8,
      if Bit(lcdc, 3) then 0x9C00 else 0x9800,
      if Bit(lcdc, 4) then 0x8000 else 0x8800,
      Bit(lcdc, 5),
      if Bit(lcdc, 6) then 0x9C00 else 0x9800,
      Bit(lcdc, 7))
  }

  /** The LCDC byte that decodes to a view. */
  function Encode(d: LcdcView): u8
  {
    (if d.bgWindowEnable then 0x01 else 0)
    | (if d.objEnable then 0x02 else 0)
    | (if d.objHeight == 16 then 0x04 else 0)
    | (if d.bgMapArea == 0x9C00 then 0x08 else 0)
    | (if d.bgWindowDataArea == 0x8000 then 0x10 else 0)
    | (if d.windowEnable then 0x20 else 0)
    | (if d.windowMapArea == 0x9C00 then 0x40 else 0)
    | (if d.lcdEnable then 0x80 else 0)
  }

  /** The four colours a palette byte selects: entry i is Ramp[(data >> 2i) & 3]. */
  function Palette(data: u8): (p: seq<u32>)
    ensures |p| == 4
  {
    [Ramp[data & 3], Ramp[(data >> 2) & 3], Ramp[(data >> 4) & 3], Ramp[(data >> 6) & 3]]
  }

  /** The register block and the colour tables. */
  datatype LcdState = LcdState(regs: seq<u8>, bg: seq<u32>, obj0: seq<u32>, obj1: seq<u32>)

  predicate Valid(s: LcdState)
  {
    |s.regs| == RegCount && |s.bg| == 4 && |s.obj0| == 4 && |s.obj1| == 4
  }

  /** An address of the register block. */
  predicate InBlock(a: u16)
  {
    Between(a, 0xFF40, 0xFF4B)
  }

  /** The register offset of an address: (address - 0xFF40) cut to a byte. */
  function Offset(a: u16): (off: u8)
    ensures InBlock(a) ==> off < 12
  {
    Lo(a - 0xFF40)
  }

  /**
   * lcd_init: LCDC 0x91, scroll, LY, LYC and window 0, BGP 0xFC, both OBPs
   * 0xFF, every colour table the ramp; STAT and the DMA register keep their
   * values.
   */
  function Initialized(s: LcdState): LcdState
    requires Valid(s)
  {
    LcdState(
      [0x91, s.regs[StatAt], 0, 0, 0, 0, s.regs[DmaAt], 0xFC, 0xFF, 0xFF, 0, 0],
      Ramp, Ramp, Ramp)
  }

  /** lcd_read. */
  function Read(s: LcdState, a: u16): u8
    requires Valid(s) && InBlock(a)
  {
    s.regs[Offset(a)]
  }

  /** update_palette: table 1 and 2 are the object palettes, anything else the background. */
  function UpdatePalette(s: LcdState, data: u8, pal: u8): LcdState
  {
    if pal == 1 then s.(obj0 := Palette(data))
    else if pal == 2 then s.(obj1 := Palette(data))
    else s.(bg := Palette(data))
  }

  /**
   * lcd_write: the byte is stored at its offset; BGP recomputes the
   * background colours, OBP0 and OBP1 their object colours from the byte with
   * its low two bits cleared.  The DMA start is the Controller's part.
   */
  function Write(s: LcdState, a: u16, v: u8): LcdState
    requires Valid(s) && InBlock(a)
  {
    var s' := s.(regs := s.regs[Offset(a) := v]);
    if a == 0xFF47 then UpdatePalette(s', v, 0)
    else if a == 0xFF48 then UpdatePalette(s', v & 0xFC, 1)
    else if a == 0xFF49 then UpdatePalette(s', v & 0xFC, 2)
    else s'
  }

  /** Whether a write starts the DMA engine: offset 6. */
  predicate StartsDma(a: u16)
  {
    Offset(a) == 6
  }

  // ---------------------------------------------------------------------
  // The register block, updated in place

  /** lcd_context: the registers as one array, the colour tables as fields. */
  class Controller {
    const regs: array<u8>
    var bg: seq<u32>
    var obj0: seq<u32>
    var obj1: seq<u32>
    const dma: Dma.Controller

    function State(): LcdState
      reads this, regs
    {
      LcdState(regs[..], bg, obj0, obj1)
    }

    predicate Ready()
      reads this, regs
    {
      Valid(State())
    }

    /** The zero-initialised static context, wired to the DMA engine. */
    constructor(dma: Dma.Controller)
      ensures fresh(regs) && this.dma == dma
      ensures Ready() && State() == LcdState(seq(RegCount, _ => 0), [0, 0, 0, 0], [0, 0, 0, 0], [0, 0, 0, 0])
    {
      regs := new u8[RegCount](_ => 0);
      bg, obj0, obj1 := [0, 0, 0, 0], [0, 0, 0, 0], [0, 0, 0, 0];
      this.dma := dma;
    }

    /** lcd_init: the registers one by one, then the colour tables in a loop. */
    method Init()
      requires Ready()
      modifies this, regs
      ensures Ready() && State() == Initialized(old(State()))
    {
      SetPowerOnRegisters();
      var i := 0;
      while i < 4
        invariant 0 <= i <= 4
        invariant |bg| == 4 && |obj0| == 4 && |obj1| == 4
        invariant forall j :: 0 <= j < i ==> bg[j] == Ramp[j] && obj0[j] == Ramp[j] && obj1[j] == Ramp[j]
        invariant regs[..] == Initialized(old(State())).regs
      {
        bg := bg[i := Ramp[i]];
        obj0 := obj0[i := Ramp[i]];
        obj1 := obj1[i := Ramp[i]];
        i := i + 1;
      }
      assert bg == Ramp && obj0 == Ramp && obj1 == Ramp;
    }

    /** The register half of lcd_init: STAT and the DMA register are not touched. */
    method SetPowerOnRegisters()
      requires Ready()
      modifies regs
      ensures Ready() && regs[..] == Initialized(old(State())).regs
    {
      SetControlRegisters();
      SetPaletteRegisters();
    }

    /** LCDC, the scroll registers, LY and LYC. */
    method SetControlRegisters()
      requires Ready()
      modifies regs
      ensures Ready() && regs[..] == old(regs[..])[LcdcAt := 0x91][ScrollXAt := 0][ScrollYAt := 0][LyAt := 0][LyCompareAt := 0]
    {
      regs[LcdcAt] := 0x91;
      regs[ScrollXAt] := 0;
      regs[ScrollYAt] := 0;
      regs[LyAt] := 0;
      regs[LyCompareAt] := 0;
    }

    /** BGP, OBP0, OBP1 and the window position. */
    method SetPaletteRegisters()
      requires Ready()
      modifies regs
      ensures Ready() && regs[..] == old(regs[..])[BgPaletteAt := 0xFC][ObjPalette0At := 0xFF][ObjPalette1At := 0xFF][WinYAt := 0][WinXAt := 0]
    {
      regs[BgPaletteAt] := 0xFC;
      regs[ObjPalette0At] := 0xFF;
      regs[ObjPalette1At] := 0xFF;
      regs[WinYAt] := 0;
      regs[WinXAt] := 0;
    }

    /** lcd_read. */
    function ReadByte(a: u16): (v: u8)
      requires Ready() && InBlock(a)
      reads this, regs
      ensures v == Read(State(), a)
    {
      regs[Offset(a)]
    }

    /** update_palette: the four entries of the chosen table, one by one. */
    method SetPalette(data: u8, pal: u8)
      requires Ready()
      modifies this
      ensures Ready() && State() == UpdatePalette(old(State()), data, pal)
    {
      if pal == 1 {
        obj0 := Overwrite(obj0, data);
      } else if pal == 2 {
        obj1 := Overwrite(obj1, data);
      } else {
        bg := Overwrite(bg, data);
      }
    }

    /** lcd_write: store, start DMA at offset 6, then the palette updates. */
    method WriteByte(a: u16, v: u8)
      requires Ready() && InBlock(a)
      modifies this, regs, dma
      ensures Ready() && State() == Write(old(State()), a, v)
      ensures dma.State() == if StartsDma(a) then Dma.Started(v) else old(dma.State())
    {
      var offset := Offset(a);
      regs[offset] := v;
      if offset == 6 {
        dma.Start(v);
      }
      if a == 0xFF47 {
        SetPalette(v, 0);
      }
      if a == 0xFF48 {
        SetPalette(v & 0xFC, 1);
      }
      if a == 0xFF49 {
        SetPalette(v & 0xFC, 2);
      }
    }

    /** LCDS_MODE. */
    function Mode(): (m: LcdMode)
      requires Ready()
      reads this, regs
      ensures ModeCode(m) == regs[StatAt] & 3
    {
      ModeOf(regs[StatAt])
    }

    /** LCDS_MODE_SET. */
    method SetMode(m: LcdMode)
      requires Ready()
      modifies regs
      ensures Ready() && State() == old(State()).(regs := old(regs[..])[StatAt := StatWithMode(old(regs[StatAt]), m)])
    {
      regs[StatAt] := (regs[StatAt] & !3) | ModeCode(m);
    }

    /** LCDS_LYC_SET. */
    method SetCoincidence(on: bool)
      requires Ready()
      modifies regs
      ensures Ready() && State() == old(State()).(regs := old(regs[..])[StatAt := StatWithCoincidence(old(regs[StatAt]), on)])
    {
      regs[StatAt] := BitSet(regs[StatAt], 2, on);
    }
  }

  /** The four entries of a colour table overwritten from a palette byte. */
  method Overwrite(colors: seq<u32>, data: u8) returns (colors': seq<u32>)
    requires |colors| == 4
    ensures colors' == Palette(data)
  {
    colors' := colors[0 := Ramp[data & 3]];
    colors' := colors'[1 := Ramp[(data >> 2) & 3]];
    colors' := colors'[2 := Ramp[(data >> 4) & 3]];
    colors' := colors'[3 := Ramp[(data >> 6) & 3]];
  }

  // ---------------------------------------------------------------------
  // What the block promises

  /** The mode a code stands for is read back from STAT. */
  lemma ModeRoundTrip(stat: u8, m: LcdMode)
    ensures ModeOf(StatWithMode(stat, m)) == m
    ensures ModeOf(stat) == m <==> stat & 3 == ModeCode(m)
  {
  }

  /** LCDS_MODE_SET changes bits 0-1 only. */
  lemma SetModeKeepsHighBits(stat: u8, m: LcdMode)
    ensures StatWithMode(stat, m) & 0xFC == stat & 0xFC
  {
  }

  /** LCDS_LYC_SET changes bit 2 only, and LCDS_LYC reads it back. */
  lemma SetCoincidenceBits(stat: u8, on: bool)
    ensures Coincidence(StatWithCoincidence(stat, on)) == on
    ensures StatWithCoincidence(stat, on) & 0xFB == stat & 0xFB
  {
  }

  /** Each STAT interrupt source is one of bits 3 to 6. */
  lemma StatSources(stat: u8)
    ensures StatInterrupt(stat, HBlankSource) == Bit(stat, 3)
    ensures StatInterrupt(stat, VBlankSource) == Bit(stat, 4)
    ensures StatInterrupt(stat, OamSource) == Bit(stat, 5)
    ensures StatInterrupt(stat, LycSource) == Bit(stat, 6)
  {
  }

  /** The decoders lose nothing: LCDC is rebuilt from its decoded view. */
  lemma DecodeEncode(lcdc: u8)
    ensures Encode(Decode(lcdc)) == lcdc
  {
  }

  /** Palette entry i is the ramp colour chosen by bits 2i and 2i+1. */
  lemma PaletteEntries(data: u8, i: u8)
    requires i < 4
    ensures Palette(data)[i] == Ramp[(data >> (2 * i)) & 3]
  {
  }

  /** lcd_init leaves the documented power-on values. */
  lemma InitValues(s: LcdState)
    requires Valid(s)
    ensures Valid(Initialized(s))
    ensures Read(Initialized(s), 0xFF40) == 0x91 && Read(Initialized(s), 0xFF47) == 0xFC
    ensures Read(Initialized(s), 0xFF48) == 0xFF && Read(Initialized(s), 0xFF49) == 0xFF
    ensures forall a :: a in {0xFF42, 0xFF43, 0xFF44, 0xFF45, 0xFF4A, 0xFF4B} ==> Read(Initialized(s), a) == 0
    ensures Initialized(s).bg == Initialized(s).obj0 == Initialized(s).obj1 == Ramp
  {
  }

  /** A register reads back what was written to it, and no other register changes. */
  lemma ReadAfterWrite(s: LcdState, a: u16, v: u8, b: u16)
    requires Valid(s) && InBlock(a) && InBlock(b)
    ensures Valid(Write(s, a, v))
    ensures Read(Write(s, a, v), b) == if b == a then v else Read(s, b)
  {
    if b != a {
      assert Offset(a) != Offset(b);
    }
  }

  /** Object palette writes keep colour 0 white, while the register keeps all eight bits. */
  lemma ObjectColorZero(s: LcdState, a: u16, v: u8)
    requires Valid(s) && (a == 0xFF48 || a == 0xFF49)
    ensures Read(Write(s, a, v), a) == v
    ensures (if a == 0xFF48 then Write(s, a, v).obj0 else Write(s, a, v).obj1) == Palette(v & 0xFC)
    ensures Palette(v & 0xFC)[0] == Ramp[0]
  {
  }

  /** BGP writes recompute the background colours from the whole byte. */
  lemma BackgroundPalette(s: LcdState, v: u8)
    requires Valid(s)
    ensures Write(s, 0xFF47, v).bg == Palette(v)
    ensures Write(s, 0xFF47, v).obj0 == s.obj0 && Write(s, 0xFF47, v).obj1 == s.obj1
  {
  }

  /** Writes outside BGP, OBP0 and OBP1 leave every colour table alone. */
  lemma OtherWritesKeepColors(s: LcdState, a: u16, v: u8)
    requires Valid(s) && InBlock(a) && a != 0xFF47 && a != 0xFF48 && a != 0xFF49
    ensures Write(s, a, v).bg == s.bg && Write(s, a, v).obj0 == s.obj0 && Write(s, a, v).obj1 == s.obj1
  {
  }

  /** Only 0xFF46 starts the DMA engine. */
  lemma OnlyDmaRegisterStarts(a: u16)
    requires InBlock(a)
    ensures StartsDma(a) <==> a == 0xFF46
  {
  }
}
