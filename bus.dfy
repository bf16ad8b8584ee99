/**
 * The memory map of sources/bus.cpp: every 16-bit address is routed to the
 * cartridge, VRAM, work RAM, OAM, the I/O block, the interrupt-enable
 * register or high RAM.  Work RAM, high RAM and the interrupt-enable
 * register belong to code that is not part of this model: their reads are
 * a parameter (`Outside`) and the writes routed to them are recorded in
 * order (`forwarded`).
 */
module Bus {
  import opened Common
  import Cart
  import Ppu
  import Io

  /** The region of the memory map an address falls in, in the order bus_read tests them. */
  datatype Region = CartRom | Vram | CartRam | Wram | Echo | Oam | Unusable | IoRegion | Ie | Hram

  function RegionOf(a: u16): Region
  {
    if a < 0x8000 then CartRom
    else if a < 0xA000 then Vram
    else if a < 0xC000 then CartRam
    else if a < 0xE000 then Wram
    else if a < 0xFE00 then Echo
    else if a < 0xFEA0 then Oam
    else if a < 0xFF00 then Unusable
    else if a < 0xFF80 then IoRegion
    else if a == 0xFFFF then Ie
    else Hram
  }

  /** The cartridge serves both its ROM and its RAM range. */
  predicate ToCart(a: u16)
  {
    RegionOf(a) == CartRom || RegionOf(a) == CartRam
  }

  /** bus_write drops the unused I/O ports before any routing. */
  predicate Dropped(a: u16)
  {
    0xFF4C <= a <= 0xFF7F
  }

  /** A write handed on to a collaborator outside the model. */
  datatype Forward = WramWrite(address: u16, value: u8) | HramWrite(address: u16, value: u8) | IeWrite(value: u8)

  /** What the collaborators outside the model answer: wram_read, hram_read, cpu_get_ie_register, and the I/O ones. */
  datatype Outside = Outside(io: Io.Outside, wram: u16 -> u8, hram: u16 -> u8, ie: u8)

  /** Every store the bus reaches. */
  datatype BusState = BusState(cart: Cart.CartState, vram: seq<u8>, oam: seq<u8>, io: Io.IoState, forwarded: seq<Forward>)

  predicate Valid(s: BusState)
  {
    Cart.Valid(s.cart) && Cart.HasHeader(s.cart)
    && |s.vram| == Ppu.VramSize && |s.oam| == Ppu.OamBytes && Io.Valid(s.io)
  }

  /** A read reaches only image bytes that exist; the code does not check. */
  predicate CanRead(s: BusState, a: u16)
    requires Valid(s)
  {
    ToCart(a) ==> Cart.Readable(s.cart, a)
  }

  /** A write that reaches the cartridge can be carried out there. */
  predicate CanWrite(s: BusState, a: u16)
    requires Valid(s)
  {
    !Dropped(a) && ToCart(a) ==> Cart.Writable(s.cart, a)
  }

  /** An OAM bus address is inside the 160 bytes once rebased. */
  lemma OamBounds(a: u16)
    requires 0xFE00 <= a < 0xFEA0
    ensures Ppu.OamAddressable(a)
  {
  }

  /** Whether the DMA engine is copying, as dma_transferring reports. */
  predicate Transferring(s: BusState)
  {
    s.io.dma.active
  }

  /** bus_read. */
  function Read(s: BusState, o: Outside, a: u16): u8
    requires Valid(s) && CanRead(s, a)
  {
    match RegionOf(a)
    case CartRom => Cart.Read(s.cart, a)
    case Vram => Ppu.VramLoad(s.vram, a)
    case CartRam => Cart.Read(s.cart, a)
    case Wram => o.wram(a)
    case Echo => 0
    case Oam => if Transferring(s) then 0xFF else OamBounds(a); Ppu.OamLoad(s.oam, a)
    case Unusable => 0
    case IoRegion => Io.Read(s.io, o.io, a)
    case Ie => o.ie
    case Hram => o.hram(a)
  }

  /** bus_write. */
  function Write(s: BusState, a: u16, v: u8): (s': BusState)
    requires Valid(s) && CanWrite(s, a)
    ensures Valid(s')
  {
    if Dropped(a) then s
    else match RegionOf(a)
      case CartRom => Cart.WriteValid(s.cart, a, v); s.(cart := Cart.Write(s.cart, a, v))
      case Vram => s.(vram := Ppu.VramStore(s.vram, a, v))
      case CartRam => Cart.WriteValid(s.cart, a, v); s.(cart := Cart.Write(s.cart, a, v))
      case Wram => s.(forwarded := s.forwarded + [WramWrite(a, v)])
      case Echo => s
      case Oam => if Transferring(s) then s else OamBounds(a); s.(oam := Ppu.OamStore(s.oam, a, v))
      case Unusable => s
      case IoRegion => s.(io := Io.Write(s.io, a, v))
      case Ie => s.(forwarded := s.forwarded + [IeWrite(v)])
      case Hram => s.(forwarded := s.forwarded + [HramWrite(a, v)])
  }

  /** bus_read16: the byte at a is the low half, the byte at a + 1 (wrapping) the high half. */
  function Read16(s: BusState, o: Outside, a: u16): u16
    requires Valid(s) && CanRead(s, a) && CanRead(s, Succ(a))
  {
    Word(Read(s, o, Succ(a)), Read(s, o, a))
  }

  /** Whether both byte writes of bus_write16 can be carried out. */
  predicate CanWrite16(s: BusState, a: u16, w: u16)
    requires Valid(s)
  {
    CanWrite(s, Succ(a)) && CanWrite(Write(s, Succ(a), Hi(w)), a)
  }

  /** bus_write16: the high byte to a + 1 first, then the low byte to a. */
  function Write16(s: BusState, a: u16, w: u16): (s': BusState)
    requires Valid(s) && CanWrite16(s, a, w)
    ensures Valid(s')
  {
    Write(Write(s, Succ(a), Hi(w)), a, Lo(w))
  }

  // ---------------------------------------------------------------------
  // The bus over the subsystems' contexts

  class Controller {
    const cart: Cart.Cartridge
    const ppu: Ppu.Controller
    const io: Io.Controller
    var forwarded: seq<Forward>

    function State(): BusState
      reads this, cart, ppu, ppu.oam, ppu.vram, io, io.serial, io.pad, io.lcd, io.lcd.regs, io.lcd.dma
    {
      BusState(cart.State(), ppu.vram[..], ppu.oam[..], io.State(), forwarded)
    }

    /** The PPU and the I/O block share the LCD, and the byte buffers are distinct. */
    predicate Ready()
      reads this, cart, ppu, ppu.oam, ppu.vram, io, io.serial, io.pad, io.lcd, io.lcd.regs, io.lcd.dma
    {
      ppu.lcd == io.lcd && ppu.Valid() && io.Ready()
      && ppu.oam != io.serial && ppu.vram != io.serial
      && Valid(State())
    }

    /** The bus over the given subsystems, with nothing forwarded yet. */
    constructor(cart: Cart.Cartridge, ppu: Ppu.Controller, io: Io.Controller)
      requires ppu.lcd == io.lcd && ppu.Valid() && io.Ready()
      requires ppu.oam != io.serial && ppu.vram != io.serial
      requires Cart.Valid(cart.State()) && Cart.HasHeader(cart.State())
      ensures Ready() && this.cart == cart && this.ppu == ppu && this.io == io && forwarded == []
    {
      this.cart := cart;
      this.ppu := ppu;
      this.io := io;
      forwarded := [];
    }

    /** bus_read; nothing changes. */
    method ReadByte(a: u16, o: Outside) returns (v: u8)
      requires Ready() && CanRead(State(), a)
      ensures v == Read(State(), o, a)
    {
      if a < 0x8000 {
        v := cart.ReadByte(a);
      } else if a < 0xA000 {
        v := ppu.VramRead(a);
      } else if a < 0xC000 {
        v := cart.ReadByte(a);
      } else if a < 0xE000 {
        v := o.wram(a);
      } else if a < 0xFE00 {
        v := 0;
      } else if a < 0xFEA0 {
        if io.lcd.dma.Transferring() {
          v := 0xFF;
        } else {
          OamBounds(a);
          v := ppu.OamRead(a);
        }
      } else if a < 0xFF00 {
        v := 0;
      } else if a < 0xFF80 {
        v := io.ReadByte(a, o.io);
      } else if a == 0xFFFF {
        v := o.ie;
      } else {
        v := o.hram(a);
      }
    }

    /** bus_write. */
    method WriteByte(a: u16, v: u8)
      requires Ready() && CanWrite(State(), a)
      modifies this, cart, ppu.oam, ppu.vram, io, io.serial, io.pad, io.lcd, io.lcd.regs, io.lcd.dma
      ensures Ready() && State() == Write(old(State()), a, v)
    {
      if 0xFF4C <= a <= 0xFF7F {
        return;
      }
      if a < 0x8000 || (0xA000 <= a < 0xC000) {
        WriteCart(a, v);
      } else if a < 0xA000 || (0xFE00 <= a < 0xFEA0) {
        WritePpu(a, v);
      } else if 0xFF00 <= a < 0xFF80 {
        io.WriteByte(a, v);
      } else {
        WriteOther(a, v);
      }
    }

    /** ppu_vram_write, and ppu_oam_write unless DMA is copying. */
    method WritePpu(a: u16, v: u8)
      requires Ready() && (RegionOf(a) == Vram || RegionOf(a) == Oam)
      modifies ppu.oam, ppu.vram
      ensures Ready() && State() == Write(old(State()), a, v)
    {
      if a < 0xA000 {
        ppu.VramWrite(a, v);
      } else if !io.lcd.dma.Transferring() {
        OamBounds(a);
        ppu.OamWrite(a, v);
      }
    }

    /** The reserved ranges, and the stores outside the model. */
    method WriteOther(a: u16, v: u8)
      requires Ready() && RegionOf(a) in {Wram, Echo, Unusable, Ie, Hram}
      modifies this
      ensures Ready() && State() == Write(old(State()), a, v)
    {
      if a < 0xE000 {
        forwarded := forwarded + [WramWrite(a, v)];
      } else if a == 0xFFFF {
        forwarded := forwarded + [IeWrite(v)];
      } else if a >= 0xFF80 {
        forwarded := forwarded + [HramWrite(a, v)];
      }
    }

    /** cart_write from the bus. */
    method WriteCart(a: u16, v: u8)
      requires Ready() && ToCart(a) && Cart.Writable(cart.State(), a)
      modifies cart
      ensures Ready() && State() == Write(old(State()), a, v)
    {
      Cart.WriteValid(cart.State(), a, v);
      cart.WriteByte(a, v);
    }

    /** bus_read16; nothing changes. */
    method Read16Bytes(a: u16, o: Outside) returns (w: u16)
      requires Ready() && CanRead(State(), a) && CanRead(State(), Succ(a))
      ensures w == Read16(State(), o, a)
    {
      var lo := ReadByte(a, o);
      var hi := ReadByte(a + 1, o);
      w := Word(hi, lo);
    }

    /** bus_write16. */
    method Write16Bytes(a: u16, w: u16)
      requires Ready() && CanWrite16(State(), a, w)
      modifies this, cart, ppu.oam, ppu.vram, io, io.serial, io.pad, io.lcd, io.lcd.regs, io.lcd.dma
      ensures Ready() && State() == Write16(old(State()), a, w)
    {
      WriteByte(a + 1, Hi(w));
      WriteByte(a, Lo(w));
    }
  }

  // ---------------------------------------------------------------------
  // What the memory map promises

  /** The address ranges of the regions. */
  lemma RegionRanges(a: u16)
    ensures ToCart(a) <==> a < 0x8000 || 0xA000 <= a < 0xC000
    ensures RegionOf(a) == Vram <==> 0x8000 <= a < 0xA000
    ensures RegionOf(a) == Wram <==> 0xC000 <= a < 0xE000
    ensures RegionOf(a) == Oam <==> 0xFE00 <= a < 0xFEA0
    ensures RegionOf(a) == IoRegion <==> 0xFF00 <= a < 0xFF80
    ensures RegionOf(a) == Hram <==> 0xFF80 <= a < 0xFFFF
  {
  }

  /** Echo RAM and the unusable range read 0, and writes there change nothing. */
  lemma Reserved(s: BusState, o: Outside, a: u16, v: u8)
    requires Valid(s) && (0xE000 <= a < 0xFE00 || 0xFEA0 <= a < 0xFF00)
    ensures Read(s, o, a) == 0 && Write(s, a, v) == s
  {
  }

  /** Writes to 0xFF4C-0xFF7F are dropped. */
  lemma DroppedWrite(s: BusState, a: u16, v: u8)
    requires Valid(s) && 0xFF4C <= a <= 0xFF7F
    ensures Write(s, a, v) == s
  {
  }

  /** While DMA copies, OAM reads 0xFF and ignores writes. */
  lemma OamDuringDma(s: BusState, o: Outside, a: u16, v: u8)
    requires Valid(s) && 0xFE00 <= a < 0xFEA0 && Transferring(s)
    ensures Read(s, o, a) == 0xFF && Write(s, a, v) == s
  {
  }

  /** Otherwise OAM is the PPU's OAM. */
  lemma OamWithoutDma(s: BusState, o: Outside, a: u16, v: u8)
    requires Valid(s) && 0xFE00 <= a < 0xFEA0 && !Transferring(s)
    ensures Ppu.OamAddressable(a)
    ensures Read(s, o, a) == Ppu.OamLoad(s.oam, a)
    ensures Write(s, a, v) == s.(oam := Ppu.OamStore(s.oam, a, v))
  {
    OamBounds(a);
  }

  /** The cartridge ranges are the cartridge's. */
  lemma CartRoute(s: BusState, o: Outside, a: u16, v: u8)
    requires Valid(s) && ToCart(a) && Cart.Readable(s.cart, a) && Cart.Writable(s.cart, a)
    ensures Read(s, o, a) == Cart.Read(s.cart, a)
    ensures Write(s, a, v) == s.(cart := Cart.Write(s.cart, a, v))
  {
  }

  /** 0xFF00-0xFF4B reach the I/O dispatch both ways; 0xFF4C-0xFF7F only for reads. */
  lemma IoRoute(s: BusState, o: Outside, a: u16, v: u8)
    requires Valid(s) && 0xFF00 <= a < 0xFF80
    ensures Read(s, o, a) == Io.Read(s.io, o.io, a)
    ensures Write(s, a, v) == if a < 0xFF4C then s.(io := Io.Write(s.io, a, v)) else s
  {
  }

  /** bus_read16 is little-endian: the low byte from a, the high byte from a + 1. */
  lemma Read16Halves(s: BusState, o: Outside, a: u16)
    requires Valid(s) && CanRead(s, a) && CanRead(s, Succ(a))
    ensures Lo(Read16(s, o, a)) == Read(s, o, a)
    ensures Hi(Read16(s, o, a)) == Read(s, o, Succ(a))
  {
  }

  /** A VRAM byte reads back what was written, and other VRAM bytes keep theirs. */
  lemma VramReadBack(s: BusState, o: Outside, a: u16, v: u8, b: u16)
    requires Valid(s) && 0x8000 <= a < 0xA000 && 0x8000 <= b < 0xA000
    ensures Read(Write(s, a, v), o, b) == if b == a then v else Read(s, o, b)
  {
    Ppu.VramReadAfterWrite(s.vram, a, v, b);
  }

  /** A 16-bit write to VRAM reads back as the same word. */
  lemma VramRead16AfterWrite16(s: BusState, o: Outside, a: u16, w: u16)
    requires Valid(s) && 0x8000 <= a < 0x9FFF
    ensures CanWrite16(s, a, w)
    ensures Read16(Write16(s, a, w), o, a) == w
  {
    var s1 := Write(s, Succ(a), Hi(w));
    var s2 := Write(s1, a, Lo(w));
    VramReadBack(s, o, Succ(a), Hi(w), Succ(a));
    VramReadBack(s1, o, a, Lo(w), Succ(a));
    VramReadBack(s1, o, a, Lo(w), a);
    WordOfHalves(w);
  }
}
