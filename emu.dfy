/**
 * emu_cycles of sources/main.cpp: every CPU machine cycle is four timer and
 * PPU ticks, interleaved, followed by one DMA tick.  The timer is not part
 * of this model; its ticks are recorded in the event trace together with
 * the PPU and DMA ticks, which are carried out.  The DMA engine reads the
 * bus through `read`, which does not change during the call.
 */
module Emu {
  import opened Common
  import Lcd
  import Dma
  import Ppu

  /** One call made by emu_cycles. */
  datatype Event = TimerTick | PpuTick | DmaTick

  /** The calls of one CPU cycle: (timer, PPU) four times, then DMA. */
  const Cycle: seq<Event> := [TimerTick, PpuTick, TimerTick, PpuTick, TimerTick, PpuTick, TimerTick, PpuTick, DmaTick]

  /** The calls of k CPU cycles in a row. */
  function Cycles(k: nat): (r: seq<Event>)
    ensures |r| == 9 * k
  {
    if k == 0 then [] else Cycles(k - 1) + Cycle
  }

  /** The number of times an event occurs in a trace. */
  function Count(t: seq<Event>, e: Event): nat
  {
    multiset(t)[e]
  }

  /** The number of CPU cycles emu_cycles runs: none for a count of 0 or less. */
  function CyclesRun(n: int): nat
  {
    if n <= 0 then 0 else n
  }

  /** The emulator context and the engines emu_cycles ticks. */
  class Emulator {
    /** ctx.ticks, counted without the 64-bit wrap. */
    var ticks: nat
    /** The calls made so far, in order. */
    var events: seq<Event>
    const ppu: Ppu.Controller
    const dma: Dma.Controller

    predicate Ready()
      reads this, ppu, ppu.lcd, ppu.lcd.regs, dma
    {
      ppu.Valid() && Dma.Valid(dma.State())
    }

    constructor(ppu: Ppu.Controller, dma: Dma.Controller)
      requires ppu.Valid() && Dma.Valid(dma.State())
      ensures Ready() && this.ppu == ppu && this.dma == dma && ticks == 0 && events == []
    {
      this.ppu := ppu;
      this.dma := dma;
      ticks := 0;
      events := [];
    }

    /**
     * emu_cycles(n): for each of the n cycles, four rounds of (ticks + 1,
     * timer tick, PPU tick), then one DMA tick over the PPU's OAM.
     */
    method RunCycles(n: int, read: u16 -> u8)
      requires Ready()
      modifies this, ppu, ppu.oam, ppu.lcd.regs, ppu.video, dma
      ensures Ready() && ppu.video == old(ppu.video)
      ensures ticks == old(ticks) + 4 * CyclesRun(n)
      ensures events == old(events) + Cycles(CyclesRun(n))
      ensures old(ppu.handled) <= ppu.handled && |ppu.handled| == |old(ppu.handled)| + 4 * CyclesRun(n)
      ensures Dma.Transfer(dma.State(), ppu.oam[..])
        == Dma.Run(Dma.Transfer(old(dma.State()), old(ppu.oam[..])), read, CyclesRun(n))
    {
      var i := 0;
      while i < n
        invariant 0 <= i <= CyclesRun(n)
        invariant Ready() && ppu.video == old(ppu.video)
        invariant ticks == old(ticks) + 4 * i
        invariant events == old(events) + Cycles(i)
        invariant old(ppu.handled) <= ppu.handled && |ppu.handled| == |old(ppu.handled)| + 4 * i
        invariant Dma.Transfer(dma.State(), ppu.oam[..])
          == Dma.Run(Dma.Transfer(old(dma.State()), old(ppu.oam[..])), read, i)
      {
        CpuCycle(read);
        i := i + 1;
      }
    }

    /** One CPU cycle of emu_cycles. */
    method CpuCycle(read: u16 -> u8)
      requires Ready()
      modifies this, ppu, ppu.oam, ppu.lcd.regs, ppu.video, dma
      ensures Ready() && ppu.video == old(ppu.video)
      ensures ticks == old(ticks) + 4
      ensures events == old(events) + Cycle
      ensures old(ppu.handled) <= ppu.handled && |ppu.handled| == |old(ppu.handled)| + 4
      ensures ppu.handled[|old(ppu.handled)|].mode == Lcd.ModeOf(old(ppu.lcd.regs[Lcd.StatAt]))
      ensures Dma.Transfer(dma.State(), ppu.oam[..])
        == Dma.Step(Dma.Transfer(old(dma.State()), old(ppu.oam[..])), read)
    {
      var n := 0;
      while n < 4
        invariant 0 <= n <= 4
        invariant Ready() && ppu.video == old(ppu.video)
        invariant ticks == old(ticks) + n
        invariant events == old(events) + Cycle[..2 * n]
        invariant old(ppu.handled) <= ppu.handled && |ppu.handled| == |old(ppu.handled)| + n
        invariant n == 0 ==> ppu.lcd.regs[Lcd.StatAt] == old(ppu.lcd.regs[Lcd.StatAt])
        invariant n > 0 ==> ppu.handled[|old(ppu.handled)|].mode == Lcd.ModeOf(old(ppu.lcd.regs[Lcd.StatAt]))
        invariant dma.State() == old(dma.State()) && ppu.oam[..] == old(ppu.oam[..])
      {
        ticks := ticks + 1;
        events := events + [TimerTick];
        ppu.Tick();
        events := events + [PpuTick];
        n := n + 1;
      }
      Dma.NextValid(dma.State());
      dma.Tick(ppu.oam, read);
      events := events + [DmaTick];
    }
  }

  // ---------------------------------------------------------------------
  // What the fan-out promises

  /** k cycles make 4k timer ticks, 4k PPU ticks and k DMA ticks. */
  lemma {:induction false} TickRatio(k: nat)
    ensures Count(Cycles(k), TimerTick) == 4 * k
    ensures Count(Cycles(k), PpuTick) == 4 * k
    ensures Count(Cycles(k), DmaTick) == k
  {
    if k > 0 {
      TickRatio(k - 1);
      CycleCounts();
      CountAppend(Cycles(k - 1), Cycle, TimerTick);
      CountAppend(Cycles(k - 1), Cycle, PpuTick);
      CountAppend(Cycles(k - 1), Cycle, DmaTick);
    }
  }

  /** One cycle has four timer ticks, four PPU ticks and one DMA tick. */
  lemma CycleCounts()
    ensures Count(Cycle, TimerTick) == 4 && Count(Cycle, PpuTick) == 4 && Count(Cycle, DmaTick) == 1
  {
  }

  /** Counts add up over concatenation. */
  lemma CountAppend(a: seq<Event>, b: seq<Event>, e: Event)
    ensures Count(a + b, e) == Count(a, e) + Count(b, e)
  {
    assert multiset(a + b) == multiset(a) + multiset(b);
  }

  /** Within a cycle, timer and PPU alternate four times and DMA comes last. */
  lemma CycleOrder(k: nat, i: nat)
    requires i < 9 * k
    ensures Cycles(k)[i] == if i % 9 == 8 then DmaTick else if i % 9 % 2 == 0 then TimerTick else PpuTick
  {
    CycleAt(k, i);
  }

  /** Event i of k cycles is event i mod 9 of a cycle. */
  lemma {:induction false} CycleAt(k: nat, i: nat)
    requires i < 9 * k
    ensures Cycles(k)[i] == Cycle[i % 9]
  {
    if i < 9 * (k - 1) {
      CycleAt(k - 1, i);
    } else {
      assert Cycles(k)[i] == Cycle[i - 9 * (k - 1)];
    }
  }

  /** A cycle count of zero or less runs nothing. */
  lemma NoCycles(n: int)
    requires n <= 0
    ensures Cycles(CyclesRun(n)) == [] && 4 * CyclesRun(n) == 0
  {
  }
}
