/**
 * The PPU context of sources/ppu.cpp: its initial state, the tick entry
 * point, and the OAM and VRAM byte stores.  The mode handlers and the pixel
 * pipeline live in files that are not part of this model: a tick records
 * which handler it dispatched to, in `handled`, and then lets the handler
 * change what the handlers change, to values the model leaves open.
 */
module Ppu {
  import opened Common
  import Lcd

  const LinesPerFrame: nat := 154
  const TicksPerLine: nat := 456
  const YRes: nat := 144
  const XRes: nat := 160

  /** 40 OAM entries of 4 bytes. */
  const OamBytes: nat := 0xA0

  /** 8 KiB of VRAM at 0x8000-0x9FFF. */
  const VramSize: nat := 0x2000

  /** One call of a mode handler: the mode STAT held and the line_ticks value the handler saw. */
  datatype Dispatch = Dispatch(mode: Lcd.LcdMode, lineTicks: u32)

  /** The background/window fetcher's states. */
  datatype FetchState = FetchTile | FetchData0 | FetchData1 | FetchIdle | FetchPush

  /** ppu_oam_read/ppu_oam_write addressing: bus addresses 0xFE00 on are rebased to offsets. */
  function OamIndex(a: u16): nat
  {
    if a >= 0xFE00 then a as nat - 0xFE00 else a as nat
  }

  /** Whether an OAM access stays inside the 160 bytes; the code does not check. */
  predicate OamAddressable(a: u16)
  {
    OamIndex(a) < 0xA0
  }

  /** An OAM byte store. */
  function OamStore(oam: seq<u8>, a: u16, v: u8): seq<u8>
    requires |oam| == OamBytes && OamAddressable(a)
  {
    oam[OamIndex(a) := v]
  }

  /** An OAM byte load. */
  function OamLoad(oam: seq<u8>, a: u16): u8
    requires |oam| == OamBytes && OamAddressable(a)
  {
    oam[OamIndex(a)]
  }

  /** Whether an address is in VRAM, the range the callers pass. */
  predicate InVram(a: u16)
  {
    0x8000 <= a < 0xA000
  }

  /** The VRAM offset of an address: address - 0x8000. */
  function VramIndex(a: u16): (i: nat)
    requires InVram(a)
    ensures i < VramSize
  {
    VramBounds(a);
    a as nat - 0x8000
  }

  /** A VRAM address lies in 0x8000-0x9FFF as a number too. */
  lemma VramBounds(a: u16)
    requires InVram(a)
    ensures 0x8000 <= a as nat < 0xA000
  {
  }

  /** A VRAM byte store at address - 0x8000. */
  function VramStore(vram: seq<u8>, a: u16, v: u8): seq<u8>
    requires |vram| == VramSize && InVram(a)
  {
    vram[VramIndex(a) := v]
  }

  /** A VRAM byte load at address - 0x8000. */
  function VramLoad(vram: seq<u8>, a: u16): u8
    requires |vram| == VramSize && InVram(a)
  {
    vram[VramIndex(a)]
  }

  /** The LCD state ppu_init leaves: lcd_init, then mode OAM scan in STAT. */
  function LcdAfterInit(s: Lcd.LcdState): (s': Lcd.LcdState)
    requires Lcd.Valid(s)
    ensures Lcd.Valid(s')
  {
    var t := Lcd.Initialized(s);
    t.(regs := t.regs[Lcd.StatAt := Lcd.StatWithMode(t.regs[Lcd.StatAt], Lcd.OamScan)])
  }

  /** ppu_context, without the sprite line buffers of the pipeline. */
  class Controller {
    const lcd: Lcd.Controller
    const oam: array<u8>
    const vram: array<u8>
    var video: array<u32>
    var currentFrame: u32
    var lineTicks: u32
    var lineX: u8
    var pushedX: u8
    var fifoSize: u32
    var fetchState: FetchState
    /** The number of entries on the line sprite list; 0 is the null list. */
    var lineSprites: nat
    var fetchedEntryCount: u8
    var windowLine: u8
    /** The mode handlers dispatched so far, one per tick. */
    var handled: seq<Dispatch>

    /** The buffers have their sizes and are distinct from each other and from the LCD registers. */
    predicate Valid()
      reads this, lcd, lcd.regs
    {
      oam.Length == OamBytes && vram.Length == VramSize && video.Length == YRes * XRes
      && oam != vram && oam != lcd.regs && vram != lcd.regs
      && lcd.Ready()
    }

    /** The zero-initialised static context, sharing the LCD controller. */
    constructor(lcd: Lcd.Controller)
      requires lcd.Ready()
      ensures Valid() && this.lcd == lcd && fresh(oam) && fresh(vram) && fresh(video)
      ensures handled == [] && lineTicks == 0 && currentFrame == 0
    {
      this.lcd := lcd;
      oam := new u8[OamBytes](_ => 0);
      vram := new u8[VramSize](_ => 0);
      video := new u32[YRes * XRes](_ => 0);
      currentFrame, lineTicks := 0, 0;
      lineX, pushedX, fifoSize, fetchState := 0, 0, 0, FetchTile;
      lineSprites, fetchedEntryCount, windowLine := 0, 0, 0;
      handled := [];
    }

    /**
     * ppu_init: counters zero, an empty FIFO, the fetcher at its first
     * state, a fresh zeroed frame buffer, the LCD initialised and put in
     * OAM-scan mode, OAM zeroed.
     */
    method Init()
      requires Valid()
      modifies this, oam, lcd, lcd.regs
      ensures Valid() && fresh(video) && Reset()
      ensures video[..] == seq(YRes * XRes, _ => 0)
      ensures oam[..] == seq(OamBytes, _ => 0)
      ensures vram[..] == old(vram[..]) && handled == old(handled)
      ensures lcd.State() == LcdAfterInit(old(lcd.State()))
    {
      ResetFields();
      lcd.Init();
      lcd.SetMode(Lcd.OamScan);
      ClearOam();
    }

    /** The counters and the pipeline state as ppu_init leaves them. */
    predicate Reset()
      reads this
    {
      CountersReset() && FetcherReset()
    }

    /** Frame, line tick and line position counters at zero. */
    predicate CountersReset()
      reads this
    {
      currentFrame == 0 && lineTicks == 0 && lineX == 0 && pushedX == 0
    }

    /** An empty FIFO, the fetcher at its first state, no sprites, the window at its first line. */
    predicate FetcherReset()
      reads this
    {
      fifoSize == 0 && fetchState == FetchTile && lineSprites == 0
      && fetchedEntryCount == 0 && windowLine == 0
    }

    /** The field assignments of ppu_init and the new zeroed frame buffer. */
    method ResetFields()
      requires Valid()
      modifies this
      ensures Valid() && fresh(video) && Reset()
      ensures video[..] == seq(YRes * XRes, _ => 0)
      ensures handled == old(handled)
    {
      ResetCounters();
      ResetFetcher();
      video := Blank();
    }

    /** current_frame, line_ticks, line_x and pushed_x cleared. */
    method ResetCounters()
      modifies this
      ensures CountersReset() && video == old(video) && handled == old(handled)
    {
      currentFrame, lineTicks, lineX, pushedX := 0, 0, 0, 0;
    }

    /** The pipeline fields cleared. */
    method ResetFetcher()
      modifies this
      ensures FetcherReset() && CountersReset() == old(CountersReset())
      ensures video == old(video) && handled == old(handled)
    {
      fifoSize, fetchState, lineSprites := 0, FetchTile, 0;
      fetchedEntryCount, windowLine := 0, 0;
    }

    /** The frame buffer ppu_init allocates: one zeroed 32-bit pixel per screen position. */
    static method Blank() returns (v: array<u32>)
      ensures fresh(v) && v.Length == YRes * XRes && v[..] == seq(YRes * XRes, _ => 0)
    {
      v := new u32[YRes * XRes](_ => 0);
    }

    /** memset of OAM. */
    method ClearOam()
      requires Valid()
      modifies oam
      ensures Valid() && oam[..] == seq(OamBytes, _ => 0)
    {
      forall i | 0 <= i < oam.Length {
        oam[i] := 0;
      }
    }

    /**
     * ppu_tick: one more tick on the line, then the handler of the mode STAT
     * holds, which sees the new line_ticks.
     */
    method Tick()
      requires Valid()
      modifies this, lcd.regs, video
      ensures Valid() && video == old(video)
      ensures handled == old(handled) + [Dispatch(Lcd.ModeOf(old(lcd.regs[Lcd.StatAt])), old(lineTicks) + 1)]
    {
      lineTicks := lineTicks + 1;
      var mode := lcd.Mode();
      handled := handled + [Dispatch(mode, lineTicks)];
      ModeHandler();
    }

    /**
     * What a mode handler may do, the handlers not being part of this model:
     * set STAT and LY, the frame and line counters and the pipeline state to
     * any values, and draw anything into the frame buffer it keeps.
     */
    method ModeHandler()
      requires Valid()
      modifies this, lcd.regs, video
      ensures Valid() && video == old(video) && handled == old(handled)
    {
      var stat: u8, ly: u8 :| true;
      lcd.regs[Lcd.StatAt], lcd.regs[Lcd.LyAt] := stat, ly;
      var frame: u32, ticks: u32 :| true;
      currentFrame, lineTicks := frame, ticks;
      var x: u8, pushed: u8, fifo: u32, state: FetchState :| true;
      lineX, pushedX, fifoSize, fetchState := x, pushed, fifo, state;
      var sprites: nat, entries: u8, window: u8 :| true;
      lineSprites, fetchedEntryCount, windowLine := sprites, entries, window;
      assert |seq(video.Length, _ => 0 as u32)| == video.Length;
      var pixels: seq<u32> :| |pixels| == video.Length;
      forall i | 0 <= i < video.Length {
        video[i] := pixels[i];
      }
    }

    /** ppu_oam_write. */
    method OamWrite(a: u16, v: u8)
      requires Valid() && OamAddressable(a)
      modifies oam
      ensures Valid() && oam[..] == OamStore(old(oam[..]), a, v)
    {
      oam[OamIndex(a)] := v;
    }

    /** ppu_oam_read. */
    function OamRead(a: u16): (v: u8)
      requires Valid() && OamAddressable(a)
      reads this, lcd, lcd.regs, oam
      ensures v == OamLoad(oam[..], a)
    {
      oam[OamIndex(a)]
    }

    /** ppu_vram_write. */
    method VramWrite(a: u16, v: u8)
      requires Valid() && InVram(a)
      modifies vram
      ensures Valid() && vram[..] == VramStore(old(vram[..]), a, v)
    {
      vram[VramIndex(a)] := v;
    }

    /** ppu_vram_read. */
    function VramRead(a: u16): (v: u8)
      requires Valid() && InVram(a)
      reads this, lcd, lcd.regs, vram
      ensures v == VramLoad(vram[..], a)
    {
      vram[VramIndex(a)]
    }
  }

  // ---------------------------------------------------------------------
  // What the PPU promises

  /** ppu_init leaves the LCD in OAM-scan mode with the lcd_init values. */
  lemma InitMode(s: Lcd.LcdState)
    requires Lcd.Valid(s)
    ensures Lcd.ModeOf(LcdAfterInit(s).regs[Lcd.StatAt]) == Lcd.OamScan
    ensures forall i :: 0 <= i < Lcd.RegCount && i != Lcd.StatAt ==> LcdAfterInit(s).regs[i] == Lcd.Initialized(s).regs[i]
  {
    Lcd.ModeRoundTrip(Lcd.Initialized(s).regs[Lcd.StatAt], Lcd.OamScan);
  }

  /** Offset i and bus address 0xFE00 + i name the same OAM byte. */
  lemma OamRebase(i: u16)
    requires i < 0xA0
    ensures OamIndex(0xFE00 + i) == OamIndex(i) == i as nat
  {
  }

  /** An OAM load after a store to the same byte returns the stored value; other bytes are unchanged. */
  lemma OamReadAfterWrite(oam: seq<u8>, a: u16, v: u8, b: u16)
    requires |oam| == OamBytes && OamAddressable(a) && OamAddressable(b)
    ensures OamLoad(OamStore(oam, a, v), b) == if OamIndex(b) == OamIndex(a) then v else OamLoad(oam, b)
  {
  }

  /** An OAM store changes exactly one byte. */
  lemma OamWriteOneByte(oam: seq<u8>, a: u16, v: u8, i: nat)
    requires |oam| == OamBytes && OamAddressable(a) && i < OamBytes && i != OamIndex(a)
    ensures OamStore(oam, a, v)[i] == oam[i]
  {
  }

  /** A VRAM load after a store returns the stored value at that address and the old value elsewhere. */
  lemma VramReadAfterWrite(vram: seq<u8>, a: u16, v: u8, b: u16)
    requires |vram| == VramSize && InVram(a) && InVram(b)
    ensures VramLoad(VramStore(vram, a, v), b) == if b == a then v else VramLoad(vram, b)
  {
    if b != a && VramIndex(a) == VramIndex(b) {
      VramIndexInjective(a, b);
    }
  }

  /** Distinct VRAM addresses have distinct offsets. */
  lemma VramIndexInjective(a: u16, b: u16)
    requires InVram(a) && InVram(b) && VramIndex(a) == VramIndex(b)
    ensures a == b
  {
    NatOfInjective(a, b);
  }
}
