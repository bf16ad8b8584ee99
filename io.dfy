/**
 * The I/O register dispatch of sources/io.cpp (0xFF00-0xFF7F): the joypad,
 * the two serial bytes, the timer, the interrupt flags, the LCD block and
 * the ignored sound and unused ports.  The timer and the interrupt-flag
 * register belong to code that is not part of this model: their reads are
 * a parameter (`Outside`) and the writes forwarded to them are recorded in
 * order (`forwarded`).
 */
module Io {
  import opened Common
  import Gamepad
  import Lcd
  import Dma

  /** Which register an I/O address reaches, in the order io_read and io_write test them. */
  datatype Port = Joypad | SerialData | SerialControl | TimerPort | IntFlagsPort
                | LcdPort | SoundPort | UnusedPort | Unmapped

  function PortOf(a: u16): Port
  {
    if a == 0xFF00 then Joypad
    else if a == 0xFF01 then SerialData
    else if a == 0xFF02 then SerialControl
    else if Between(a, 0xFF04, 0xFF07) then TimerPort
    else if a == 0xFF0F then IntFlagsPort
    else if Between(a, 0xFF40, 0xFF4B) then LcdPort
    else if Between(a, 0xFF10, 0xFF3F) then SoundPort
    else if a == 0xFF7F then UnusedPort
    else Unmapped
  }

  /** Ports whose reads give 0 and whose writes change nothing. */
  predicate Silent(p: Port)
  {
    p == SoundPort || p == UnusedPort || p == Unmapped
  }

  /** A write handed on to a collaborator outside the model. */
  datatype Forward = TimerWrite(address: u16, value: u8) | IntFlagsWrite(value: u8)

  /** What the collaborators outside the model answer: timer_read and cpu_get_int_flags. */
  datatype Outside = Outside(timer: u16 -> u8, intFlags: u8)

  /** The state the dispatch reaches: serial_data, the joypad, the LCD block, the DMA engine it starts. */
  datatype IoState = IoState(serial: seq<u8>, pad: Gamepad.PadState, lcd: Lcd.LcdState,
                             dma: Dma.DmaState, forwarded: seq<Forward>)

  predicate Valid(s: IoState)
  {
    |s.serial| == 2 && Lcd.Valid(s.lcd)
  }

  /** io_read. */
  function Read(s: IoState, o: Outside, a: u16): u8
    requires Valid(s)
  {
    match PortOf(a)
    case Joypad => Gamepad.Output(s.pad)
    case SerialData => s.serial[0]
    case SerialControl => s.serial[1]
    case TimerPort => o.timer(a)
    case IntFlagsPort => o.intFlags
    case LcdPort => Lcd.Read(s.lcd, a)
    case _ => 0
  }

  /** io_write. */
  function Write(s: IoState, a: u16, v: u8): (s': IoState)
    requires Valid(s)
    ensures Valid(s')
  {
    match PortOf(a)
    case Joypad => s.(pad := Gamepad.Selected(s.pad, v))
    case SerialData => s.(serial := s.serial[0 := v])
    case SerialControl => s.(serial := s.serial[1 := v])
    case TimerPort => s.(forwarded := s.forwarded + [TimerWrite(a, v)])
    case IntFlagsPort => s.(forwarded := s.forwarded + [IntFlagsWrite(v)])
    case LcdPort =>
      s.(lcd := Lcd.Write(s.lcd, a, v), dma := if Lcd.StartsDma(a) then Dma.Started(v) else s.dma)
    case _ => s
  }

  // ---------------------------------------------------------------------
  // The dispatch over the subsystems' contexts

  class Controller {
    /** serial_data[2]. */
    const serial: array<u8>
    const pad: Gamepad.Controller
    const lcd: Lcd.Controller
    var forwarded: seq<Forward>

    function State(): IoState
      reads this, serial, pad, lcd, lcd.regs, lcd.dma
    {
      IoState(serial[..], pad.State(), lcd.State(), lcd.dma.State(), forwarded)
    }

    predicate Ready()
      reads this, serial, lcd, lcd.regs
    {
      serial.Length == 2 && serial != lcd.regs && lcd.Ready()
    }

    /** The zero-initialised serial bytes, wired to the joypad and the LCD. */
    constructor(pad: Gamepad.Controller, lcd: Lcd.Controller)
      requires lcd.Ready()
      ensures Ready() && fresh(serial) && this.pad == pad && this.lcd == lcd
      ensures serial[..] == [0, 0] && forwarded == []
    {
      this.pad := pad;
      this.lcd := lcd;
      serial := new u8[2](_ => 0);
      forwarded := [];
    }

    /** io_read; nothing changes. */
    method ReadByte(a: u16, o: Outside) returns (v: u8)
      requires Ready()
      ensures v == Read(State(), o, a)
    {
      if a == 0xFF00 {
        v := pad.GetOutput();
      } else if a == 0xFF01 {
        v := serial[0];
      } else if a == 0xFF02 {
        v := serial[1];
      } else if Between(a, 0xFF04, 0xFF07) {
        v := o.timer(a);
      } else if a == 0xFF0F {
        v := o.intFlags;
      } else if Between(a, 0xFF40, 0xFF4B) {
        v := lcd.ReadByte(a);
      } else {
        v := 0;
      }
    }

    /** io_write. */
    method WriteByte(a: u16, v: u8)
      requires Ready()
      modifies this, serial, pad, lcd, lcd.regs, lcd.dma
      ensures Ready() && State() == Write(old(State()), a, v)
    {
      if a == 0xFF00 {
        pad.SetSelected(v);
      } else if a == 0xFF01 {
        serial[0] := v;
      } else if a == 0xFF02 {
        serial[1] := v;
      } else if Between(a, 0xFF04, 0xFF07) {
        forwarded := forwarded + [TimerWrite(a, v)];
      } else if a == 0xFF0F {
        forwarded := forwarded + [IntFlagsWrite(v)];
      } else if Between(a, 0xFF40, 0xFF4B) {
        lcd.WriteByte(a, v);
      }
    }
  }

  // ---------------------------------------------------------------------
  // What the dispatch promises

  /** The address ranges of each port. */
  lemma PortRanges(a: u16)
    ensures PortOf(a) == TimerPort <==> 0xFF04 <= a <= 0xFF07
    ensures PortOf(a) == LcdPort <==> Lcd.InBlock(a)
    ensures PortOf(a) == SoundPort <==> 0xFF10 <= a <= 0xFF3F
    ensures PortOf(a) == Unmapped <==>
      a !in {0xFF00, 0xFF01, 0xFF02, 0xFF0F, 0xFF7F} && !(0xFF04 <= a <= 0xFF07) && !(0xFF10 <= a <= 0xFF4B)
  {
  }

  /** Sound, 0xFF7F and every unmapped address read 0, and a write there changes nothing. */
  lemma SilentPorts(s: IoState, o: Outside, a: u16, v: u8)
    requires Valid(s) && Silent(PortOf(a))
    ensures Read(s, o, a) == 0 && Write(s, a, v) == s
  {
  }

  /** 0xFF00 reads the joypad output and a write there sets the row selection. */
  lemma JoypadPort(s: IoState, o: Outside, v: u8)
    requires Valid(s)
    ensures Read(s, o, 0xFF00) == Gamepad.Output(s.pad)
    ensures Write(s, 0xFF00, v) == s.(pad := Gamepad.Selected(s.pad, v))
  {
  }

  /** The timer and the interrupt flags answer reads and receive the writes, in order. */
  lemma ForwardedPorts(s: IoState, o: Outside, a: u16, v: u8)
    requires Valid(s) && (PortOf(a) == TimerPort || PortOf(a) == IntFlagsPort)
    ensures Read(s, o, a) == if a == 0xFF0F then o.intFlags else o.timer(a)
    ensures Write(s, a, v) == s.(forwarded := s.forwarded + [if a == 0xFF0F then IntFlagsWrite(v) else TimerWrite(a, v)])
  {
  }

  /** 0xFF40-0xFF4B are the LCD's: its read, its write, and a DMA start from 0xFF46. */
  lemma LcdPorts(s: IoState, o: Outside, a: u16, v: u8)
    requires Valid(s) && Lcd.InBlock(a)
    ensures Read(s, o, a) == Lcd.Read(s.lcd, a)
    ensures Write(s, a, v).lcd == Lcd.Write(s.lcd, a, v)
    ensures Write(s, a, v).dma == if a == 0xFF46 then Dma.Started(v) else s.dma
  {
    Lcd.OnlyDmaRegisterStarts(a);
  }

  /** The serial bytes and the LCD registers read back what was written. */
  lemma ReadBack(s: IoState, o: Outside, a: u16, v: u8)
    requires Valid(s) && (a == 0xFF01 || a == 0xFF02 || Lcd.InBlock(a))
    ensures Read(Write(s, a, v), o, a) == v
  {
    if Lcd.InBlock(a) {
      Lcd.ReadAfterWrite(s.lcd, a, v, a);
    }
  }

  /** A write changes what no other I/O address reads. */
  lemma WriteLocal(s: IoState, o: Outside, a: u16, v: u8, b: u16)
    requires Valid(s) && a != b
    ensures Read(Write(s, a, v), o, b) == Read(s, o, b)
  {
    if PortOf(a) == LcdPort && PortOf(b) == LcdPort {
      Lcd.ReadAfterWrite(s.lcd, a, v, b);
    }
  }
}
