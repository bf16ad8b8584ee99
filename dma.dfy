/**
 * The OAM DMA engine of sources/dma.cpp: a write to 0xFF46 starts a copy of
 * 160 bytes from page `value` (value * 0x100 onwards) to OAM, one byte per
 * DMA tick after a start delay of two ticks.  The bus the bytes are read
 * from is a parameter: the engine sees it as a function from address to byte.
 */
module Dma {
  import opened Common

  /** OAM holds 40 entries of 4 bytes: 0xFE00-0xFE9F. */
  const OamSize: nat := 0xA0

  /** The ticks dma_start leaves before the first byte moves. */
  const StartDelay: u8 := 2

  /** The static dma_context. */
  datatype DmaState = DmaState(active: bool, byte: u8, value: u8, startDelay: u8)

  /** While a transfer runs, the next byte to copy is inside OAM. */
  predicate Valid(s: DmaState)
  {
    s.active ==> s.byte < 0xA0
  }

  /** The zero-initialised context before any transfer. */
  function Idle(): (s: DmaState)
    ensures Valid(s) && !s.active
  {
    DmaState(false, 0, 0, 0)
  }

  /** dma_start: active, from byte 0, after the start delay, from page `v`. */
  function Started(v: u8): (s: DmaState)
    ensures Valid(s) && s.active && s.byte == 0 && s.value == v && s.startDelay == StartDelay
  {
    DmaState(true, 0, v, StartDelay)
  }

  /** The bus address the next byte comes from: value * 0x100 + byte. */
  function SourceAddress(s: DmaState): u16
  {
    Word(s.value, s.byte)
  }

  /** Whether the next tick copies a byte: active and the delay run out. */
  predicate Copying(s: DmaState)
  {
    s.active && s.startDelay == 0
  }

  /**
   * dma_tick on the context: nothing while inactive; otherwise the delay
   * counts down first; a copying tick moves to the next byte and stays
   * active while that byte is still inside OAM.
   */
  function Next(s: DmaState): DmaState
  {
    if !s.active then s
    else if s.startDelay != 0 then s.(startDelay := s.startDelay - 1)
    else s.(byte := s.byte + 1, active := s.byte + 1 < 0xA0)
  }

  /** dma_tick on OAM: a copying tick stores the source byte at offset `byte`. */
  function NextOam(s: DmaState, oam: seq<u8>, read: u16 -> u8): seq<u8>
    requires Valid(s) && |oam| == OamSize
  {
    if Copying(s) then oam[s.byte := read(SourceAddress(s))] else oam
  }

  /** The engine together with the OAM bytes it writes. */
  datatype Transfer = Transfer(dma: DmaState, oam: seq<u8>)

  predicate TransferValid(t: Transfer)
  {
    Valid(t.dma) && |t.oam| == OamSize
  }

  /** One dma_tick. */
  function Step(t: Transfer, read: u16 -> u8): (t': Transfer)
    requires TransferValid(t)
    ensures TransferValid(t')
  {
    Transfer(Next(t.dma), NextOam(t.dma, t.oam, read))
  }

  /** n dma_ticks in a row, over a bus that does not change meanwhile. */
  function Run(t: Transfer, read: u16 -> u8, n: nat): (t': Transfer)
    requires TransferValid(t)
    ensures TransferValid(t')
  {
    if n == 0 then t else Step(Run(t, read, n - 1), read)
  }

  // ---------------------------------------------------------------------
  // The engine, updated in place

  /** dma_context with its three fields and the latched page. */
  class Controller {
    var active: bool
    var byte: u8
    var value: u8
    var startDelay: u8

    function State(): DmaState
      reads this
    {
      DmaState(active, byte, value, startDelay)
    }

    constructor()
      ensures State() == Idle()
    {
      active, byte, value, startDelay := false, 0, 0, 0;
    }

    /** dma_start; a start during a transfer begins again from byte 0. */
    method Start(v: u8)
      modifies this
      ensures State() == Started(v)
    {
      active := true;
      byte := 0;
      startDelay := StartDelay;
      value := v;
    }

    /** dma_tick: `oam` is the PPU's OAM, written at the raw offset `byte`. */
    method Tick(oam: array<u8>, read: u16 -> u8)
      requires Valid(State()) && oam.Length == OamSize
      modifies this, oam
      ensures State() == Next(old(State()))
      ensures oam[..] == NextOam(old(State()), old(oam[..]), read)
    {
      if !active {
        return;
      }
      if startDelay != 0 {
        startDelay := startDelay - 1;
        return;
      }
      oam[byte] := read(Word(value, byte));
      byte := byte + 1;
      active := byte < 0xA0;
    }

    /** dma_transferring. */
    function Transferring(): (r: bool)
      reads this
      ensures r <==> State().active
    {
      active
    }
  }

  // ---------------------------------------------------------------------
  // What the engine promises

  /** A tick keeps the next byte inside OAM while active. */
  lemma NextValid(s: DmaState)
    requires Valid(s)
    ensures Valid(Next(s))
  {
  }

  /** An inactive engine ignores ticks. */
  lemma IdleTick(t: Transfer, read: u16 -> u8)
    requires TransferValid(t) && !t.dma.active
    ensures Step(t, read) == t
  {
  }

  /** While the delay runs, a tick only counts it down and copies nothing. */
  lemma DelayTick(t: Transfer, read: u16 -> u8)
    requires TransferValid(t) && t.dma.active && t.dma.startDelay > 0
    ensures Step(t, read).oam == t.oam
    ensures Step(t, read).dma == t.dma.(startDelay := t.dma.startDelay - 1)
  {
  }

  /**
   * A copying tick stores the byte at the source address into OAM at
   * `byte` and leaves every other OAM byte alone.
   */
  lemma CopyTickOam(t: Transfer, read: u16 -> u8, i: u8)
    requires TransferValid(t) && Copying(t.dma) && i < 0xA0
    ensures Step(t, read).oam[i] == if i == t.dma.byte then read(SourceAddress(t.dma)) else t.oam[i]
  {
  }

  /** A copying tick moves to the next byte and stops exactly when that byte would be 0xA0. */
  lemma CopyTickDma(t: Transfer, read: u16 -> u8)
    requires TransferValid(t) && Copying(t.dma)
    ensures Step(t, read).dma == t.dma.(byte := t.dma.byte + 1, active := t.dma.byte + 1 < 0xA0)
  {
  }

  /** The source address is value * 0x100 + byte. */
  lemma SourceIsPageOffset(v: u8, b: u8)
    ensures Word(v, b) == v as u16 * 0x100 + b as u16
  {
  }

  /** Once stopped, the engine stays stopped and OAM stays as it is. */
  lemma {:induction false} StaysIdle(t: Transfer, read: u16 -> u8, n: nat)
    requires TransferValid(t) && !t.dma.active
    ensures Run(t, read, n) == t
  {
    if n > 0 {
      StaysIdle(t, read, n - 1);
      IdleTick(t, read);
    }
  }

  /** Runs compose: m ticks after n ticks are n + m ticks. */
  lemma {:induction false} RunAdd(t: Transfer, read: u16 -> u8, n: nat, m: nat)
    requires TransferValid(t)
    ensures Run(Run(t, read, n), read, m) == Run(t, read, n + m)
  {
    if m > 0 {
      RunAdd(t, read, n, m - 1);
    }
  }

  /** The two delay ticks after a start. */
  lemma DelayDone(v: u8, oam: seq<u8>, read: u16 -> u8)
    requires |oam| == OamSize
    ensures Run(Transfer(Started(v), oam), read, 1).dma.active
    ensures Run(Transfer(Started(v), oam), read, 2) == Transfer(Started(v).(startDelay := 0), oam)
  {
    var t := Transfer(Started(v), oam);
    assert Run(t, read, 1) == Step(t, read);
    DelayTick(t, read);
    assert Run(t, read, 2) == Step(Step(t, read), read);
    DelayTick(Step(t, read), read);
  }

  /** The byte counter steps without wrapping while inside OAM. */
  lemma ByteSucc(b: u8)
    requires b < 0xA0
    ensures (b + 1) as nat == b as nat + 1
    ensures b + 1 < 0xA0 <==> b as nat + 1 < OamSize
  {
  }

  /** Two bytes with the same value as naturals are the same byte. */
  lemma NatOfByteInjective(x: u8, y: u8)
    ensures x as nat == y as nat <==> x == y
  {
    assert x == (x as nat) as u8;
    assert y == (y as nat) as u8;
  }

  /** The engine k copying ticks after the delay: on byte k, active until k reaches 160. */
  lemma {:induction false} CopiedState(v: u8, oam: seq<u8>, read: u16 -> u8, k: nat)
    requires |oam| == OamSize && k <= OamSize
    ensures var d := Run(Transfer(Started(v).(startDelay := 0), oam), read, k).dma;
      d.active == (k < OamSize) && d.byte as nat == k && d.value == v && d.startDelay == 0
  {
    if k > 0 {
      CopiedState(v, oam, read, k - 1);
      var t := Run(Transfer(Started(v).(startDelay := 0), oam), read, k - 1);
      assert Run(Transfer(Started(v).(startDelay := 0), oam), read, k) == Step(t, read);
      ByteSucc(t.dma.byte);
      CopyTickDma(t, read);
    }
  }

  /**
   * k copying ticks after the delay: the first k OAM bytes hold the source
   * bytes and the rest are as they were.
   */
  lemma {:induction false} Copied(v: u8, oam: seq<u8>, read: u16 -> u8, k: nat, i: u8)
    requires |oam| == OamSize && k <= OamSize && i < 0xA0
    ensures Run(Transfer(Started(v).(startDelay := 0), oam), read, k).oam[i]
      == if (i as nat) < k then read(Word(v, i)) else oam[i]
  {
    if k > 0 {
      Copied(v, oam, read, k - 1, i);
      CopiedState(v, oam, read, k - 1);
      var t := Run(Transfer(Started(v).(startDelay := 0), oam), read, k - 1);
      CopyTickOam(t, read, i);
      NatOfByteInjective(i, t.dma.byte);
    }
  }

  /**
   * After a start, the engine reports a transfer for the first 161 ticks
   * and none from tick 162 on (2 delay ticks and 160 copies).
   */
  lemma TransferTiming(v: u8, oam: seq<u8>, read: u16 -> u8, n: nat)
    requires |oam| == OamSize
    ensures Run(Transfer(Started(v), oam), read, n).dma.active <==> n <= 161
  {
    var t := Transfer(Started(v), oam);
    DelayDone(v, oam, read);
    if n >= 2 && n <= 2 + OamSize {
      RunAdd(t, read, 2, n - 2);
      CopiedState(v, oam, read, n - 2);
    } else if n > 2 + OamSize {
      RunAdd(t, read, 2, OamSize);
      CopiedState(v, oam, read, OamSize);
      RunAdd(t, read, 2 + OamSize, n - 2 - OamSize);
      StaysIdle(Run(t, read, 2 + OamSize), read, n - 2 - OamSize);
    }
  }

  /** Once the transfer is over, OAM holds the 160 bytes from value * 0x100 on. */
  lemma TransferCopies(v: u8, oam: seq<u8>, read: u16 -> u8, i: u8)
    requires |oam| == OamSize && i < 0xA0
    ensures Run(Transfer(Started(v), oam), read, 2 + OamSize).oam[i] == read(v as u16 * 0x100 + i as u16)
  {
    var t := Transfer(Started(v), oam);
    DelayDone(v, oam, read);
    RunAdd(t, read, 2, OamSize);
    Copied(v, oam, read, OamSize, i);
    SourceIsPageOffset(v, i);
  }
}
