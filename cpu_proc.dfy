/**
 * The instruction handlers of the CPU.  The register file, the address space
 * the handlers read and write through the bus, and the interrupt latches are
 * the fields of class Cpu; every handler is a method whose postcondition ties
 * the new state to a pure step function of the old one, and the lemmas below
 * the step functions state what the handlers promise (PUSH then POP restores
 * the pair, CALL then RET returns, a condition that fails changes nothing).
 *
 * The register accessors (cpu_read_reg, cpu_set_reg, cpu_read_reg8,
 * cpu_set_reg8) and the stack (stack_push, stack_pop, stack_push16) live in
 * files that are not part of this model; they are given their conventional
 * meaning here: a pair is `hi << 8 | lo`, an 8-bit register keeps the low
 * byte of what is stored, the 8-bit operand (HL) is the byte HL points at,
 * and the stack grows downwards with SP pointing at the last byte pushed.
 */
module CpuProc {
  import opened Common
  import opened Isa
  import opened Alu

  // ---------------------------------------------------------------------
  // The register file

  /** cpu_registers: the eight 8-bit registers, SP and PC. */
  datatype Regs = Regs(a: u8, f: u8, b: u8, c: u8, d: u8, e: u8, h: u8, l: u8, sp: u16, pc: u16)

  /** cpu_read_reg: a pair reads as `hi << 8 | lo`, RT_NONE as 0. */
  function ReadReg(r: Regs, rt: Reg): u16
  {
    match rt
    case RtNone => 0
    case RtA => r.a as u16
    case RtF => r.f as u16
    case RtB => r.b as u16
    case RtC => r.c as u16
    case RtD => r.d as u16
    case RtE => r.e as u16
    case RtH => r.h as u16
    case RtL => r.l as u16
    case RtAF => Word(r.a, r.f)
    case RtBC => Word(r.b, r.c)
    case RtDE => Word(r.d, r.e)
    case RtHL => Word(r.h, r.l)
    case RtSP => r.sp
    case RtPC => r.pc
  }

  /** cpu_set_reg: an 8-bit register keeps the low byte, a pair takes both halves. */
  function WriteReg(r: Regs, rt: Reg, v: u16): (r': Regs)
  {
    match rt
    case RtNone => r
    case RtA => r.(a := Lo(v))
    case RtF => r.(f := Lo(v))
    case RtB => r.(b := Lo(v))
    case RtC => r.(c := Lo(v))
    case RtD => r.(d := Lo(v))
    case RtE => r.(e := Lo(v))
    case RtH => r.(h := Lo(v))
    case RtL => r.(l := Lo(v))
    case RtAF => r.(a := Hi(v), f := Lo(v))
    case RtBC => r.(b := Hi(v), c := Lo(v))
    case RtDE => r.(d := Hi(v), e := Lo(v))
    case RtHL => r.(h := Hi(v), l := Lo(v))
    case RtSP => r.(sp := v)
    case RtPC => r.(pc := v)
  }

  /** Writing any register other than F and AF leaves F as it was. */
  lemma WriteKeepsF(r: Regs, rt: Reg, v: u16)
    requires rt != RtF && rt != RtAF
    ensures WriteReg(r, rt, v).f == r.f
  {
    match rt
    case RtNone =>
    case RtA =>
    case RtB =>
    case RtC =>
    case RtD =>
    case RtE =>
    case RtH =>
    case RtL =>
    case RtBC =>
    case RtDE =>
    case RtHL =>
    case RtSP =>
    case RtPC =>
  }

  /** Reading a register back gives what was stored, cut to its width. */
  lemma ReadAfterWrite(r: Regs, rt: Reg, v: u16)
    requires rt != RtNone
    ensures ReadReg(WriteReg(r, rt, v), rt) == if Is16(rt) then v else Lo(v) as u16
  {
    match rt
    case RtAF => WordOfHalves(v);
    case RtBC => WordOfHalves(v);
    case RtDE => WordOfHalves(v);
    case RtHL => WordOfHalves(v);
    case _ =>
  }

  /** Reading a register is not affected by a new SP, unless it is SP. */
  lemma ReadIgnoresSp(r: Regs, rt: Reg, x: u16)
    requires rt != RtSP
    ensures ReadReg(r.(sp := x), rt) == ReadReg(r, rt)
  {
    match rt
    case RtNone =>
    case RtA =>
    case RtF =>
    case RtB =>
    case RtC =>
    case RtD =>
    case RtE =>
    case RtH =>
    case RtL =>
    case RtAF =>
    case RtBC =>
    case RtDE =>
    case RtHL =>
    case RtPC =>
  }

  /** Reading a register is not affected by a new F, unless it covers F. */
  lemma ReadIgnoresF(r: Regs, rt: Reg, x: u8)
    requires rt != RtF && rt != RtAF
    ensures ReadReg(r.(f := x), rt) == ReadReg(r, rt)
  {
    match rt
    case RtNone =>
    case RtA =>
    case RtB =>
    case RtC =>
    case RtD =>
    case RtE =>
    case RtH =>
    case RtL =>
    case RtBC =>
    case RtDE =>
    case RtHL =>
    case RtSP =>
    case RtPC =>
  }

  /** Storing the value a register already holds changes nothing. */
  lemma WriteBack(r: Regs, rt: Reg)
    ensures WriteReg(r, rt, ReadReg(r, rt)) == r
  {
    match rt
    case RtAF => WordOfHalves(ReadReg(r, rt));
    case RtBC => WordOfHalves(ReadReg(r, rt));
    case RtDE => WordOfHalves(ReadReg(r, rt));
    case RtHL => WordOfHalves(ReadReg(r, rt));
    case _ =>
  }

  /** WriteBack, for a register file and a value known equal to the original ones. */
  lemma RestoreRegs(r0: Regs, r: Regs, rt: Reg, w: u16)
    requires r0 == r && w == ReadReg(r, rt)
    ensures WriteReg(r0, rt, w) == r
  {
    WriteBack(r, rt);
  }

  /** F after a cpu_set_flags call. */
  function WithFlags(r: Regs, fl: FlagUpdate): Regs
  {
    r.(f := SetFlags(r.f, fl))
  }

  // ---------------------------------------------------------------------
  // The machine state the handlers see

  /**
   * What fetch and decode leave for a handler: the table entry, the opcode,
   * the fetched operand and the memory destination.
   */
  datatype Fetched = Fetched(inst: Instruction, opcode: u8, data: u16, memDest: u16, destIsMem: bool)

  /** The part of cpu_context a handler reads and writes, with the address space behind the bus. */
  datatype Machine = Machine(
    regs: Regs,
    mem: Memory,
    halted: bool,
    ime: bool,
    enablingIme: bool,
    cur: Fetched)

  /** A handler's effect: the new state and the machine cycles it reported with emu_cycles. */
  datatype Outcome = Outcome(m: Machine, cycles: nat)

  /** The flags of the state as cpu_set_flags leaves them. */
  function Flagged(s: Machine, fl: FlagUpdate): Machine
  {
    s.(regs := WithFlags(s.regs, fl))
  }

  /** cpu_read_reg8: (HL) is the byte HL addresses. */
  function Read8(s: Machine, rt: Reg): u8
    requires rt != RtNone && (rt == RtHL || !Is16(rt))
  {
    if rt == RtHL then s.mem(ReadReg(s.regs, RtHL)) else Lo(ReadReg(s.regs, rt))
  }

  /** cpu_set_reg8: (HL) stores to memory, anything else to the register. */
  function Write8(s: Machine, rt: Reg, v: u8): Machine
    requires rt != RtNone && (rt == RtHL || !Is16(rt))
  {
    if rt == RtHL then s.(mem := Store(s.mem, ReadReg(s.regs, RtHL), v))
    else s.(regs := WriteReg(s.regs, rt, v as u16))
  }

  lemma Read8AfterWrite8(s: Machine, rt: Reg, v: u8)
    requires rt != RtNone && (rt == RtHL || !Is16(rt))
    ensures Read8(Write8(s, rt, v), rt) == v
  {
    if rt != RtHL {
      ReadAfterWrite(s.regs, rt, v as u16);
    }
  }

  /** Storing a byte operand leaves F alone: no operand decodes to F. */
  lemma Write8KeepsF(s: Machine, rt: Reg, v: u8)
    requires rt != RtNone && rt != RtF && (rt == RtHL || !Is16(rt))
    ensures Write8(s, rt, v).regs.f == s.regs.f
  {
    match rt
    case RtA =>
    case RtB =>
    case RtC =>
    case RtD =>
    case RtE =>
    case RtH =>
    case RtL =>
    case RtHL =>
  }

  /** stack_push: SP is decremented, then the byte is stored where it points. */
  function Push(s: Machine, v: u8): (s': Machine)
    ensures s'.regs == s.regs.(sp := s.regs.sp - 1)
    ensures s'.mem(s'.regs.sp) == v
  {
    var sp := s.regs.sp - 1;
    s.(regs := s.regs.(sp := sp), mem := Store(s.mem, sp, v))
  }

  /** stack_pop reads the byte SP points at ... */
  function Top(s: Machine): u8
  {
    s.mem(s.regs.sp)
  }

  /** ... and then increments SP. */
  function Drop(s: Machine): (s': Machine)
    ensures s'.regs == s.regs.(sp := s.regs.sp + 1) && s'.mem == s.mem
  {
    s.(regs := s.regs.(sp := s.regs.sp + 1))
  }

  /** stack_push16: the high byte, then the low byte. */
  function Push16(s: Machine, w: u16): (s': Machine)
    ensures s'.regs == s.regs.(sp := s.regs.sp - 2)
  {
    Push(Push(s, Hi(w)), Lo(w))
  }

  /** The word POP or RET reads: the low byte at SP and the high byte above it. */
  function StackWord(s: Machine): u16
  {
    Word(Top(Drop(s)), Top(s))
  }

  /** After a 16-bit push, the word at the top of the stack is the one pushed. */
  lemma StackWordAfterPush16(s: Machine, w: u16)
    ensures StackWord(Push16(s, w)) == w
  {
    var sp := s.regs.sp;
    LoadAfterStore(Store(s.mem, sp - 1, Hi(w)), sp - 2, Lo(w), sp - 1);
    assert sp - 2 + 1 == sp - 1;
    WordOfHalves(w);
  }

  // ---------------------------------------------------------------------
  // The step function of each handler

  /** proc_nop and proc_stop change nothing (STOP only prints). */
  function StepNop(s: Machine): (o: Outcome)
    ensures o == Outcome(s, 0)
  {
    Outcome(s, 0)
  }

  /** proc_halt sets the halted latch. */
  function StepHalt(s: Machine): (o: Outcome)
    ensures o.m == s.(halted := true) && o.cycles == 0
  {
    Outcome(s.(halted := true), 0)
  }

  /**
   * proc_ld: a memory destination receives the operand (a 16-bit source
   * register writes the high byte at memDest + 1 first, as bus_write16 does);
   * LD HL,SP+e8 stores SP plus the signed operand with the flags of ADD SP;
   * every other form stores the operand in reg_1.
   */
  function StepLd(s: Machine): (o: Outcome)
  {
    var x := s.cur;
    if x.destIsMem then
      if Is16(x.inst.reg2) then
        Outcome(s.(mem := Store16(s.mem, x.memDest, x.data)), 2)
      else
        Outcome(s.(mem := Store(s.mem, x.memDest, Lo(x.data))), 1)
    else if x.inst.mode == AmHlSpr then
      var r := SpOffset(ReadReg(s.regs, x.inst.reg2), x.data);
      Outcome(s.(regs := WriteReg(WithFlags(s.regs, r.flags), x.inst.reg1, r.value)), 0)
    else
      Outcome(s.(regs := WriteReg(s.regs, x.inst.reg1, x.data)), 0)
  }

  /** LDH's address: the operand in the page 0xFF00-0xFFFF. */
  function HighPage(x: u16): u16
  {
    0xFF00 | x
  }

  /** proc_ldh: LDH A,(a8) reads 0xFF00 | operand; the other form stores A at memDest. */
  function StepLdh(s: Machine): (o: Outcome)
    ensures o.cycles == 1
  {
    var x := s.cur;
    if x.inst.reg1 == RtA then
      Outcome(s.(regs := WriteReg(s.regs, RtA, s.mem(HighPage(x.data)) as u16)), 1)
    else
      Outcome(s.(mem := Store(s.mem, x.memDest, s.regs.a)), 1)
  }

  /**
   * goto_addr: when the condition holds, PC becomes addr, after PC was
   * pushed if pushpc; when it fails nothing changes.
   */
  function Goto(s: Machine, addr: u16, pushpc: bool): (o: Outcome)
  {
    if CheckCond(s.cur.inst.cond, s.regs.f) then
      if pushpc then
        var s1 := Push16(s, s.regs.pc);
        Outcome(s1.(regs := s1.regs.(pc := addr)), 3)
      else
        Outcome(s.(regs := s.regs.(pc := addr)), 1)
    else
      Outcome(s, 0)
  }

  /** proc_jp, proc_jr, proc_call and proc_rst: the target of each. */
  function StepJp(s: Machine): Outcome { Goto(s, s.cur.data, false) }

  function StepJr(s: Machine): Outcome { Goto(s, RelativeTarget(s.regs.pc, s.cur.data), false) }

  /** JR's target: the low byte of the operand, read as a signed char, added to PC. */
  function RelativeTarget(pc: u16, data: u16): u16
  {
    pc + SignExtend(Lo(data))
  }

  function StepCall(s: Machine): Outcome { Goto(s, s.cur.data, true) }

  function StepRst(s: Machine): Outcome { Goto(s, s.cur.inst.param as u16, true) }

  /** proc_ret: a conditional RET costs a cycle even when not taken. */
  function StepRet(s: Machine): (o: Outcome)
  {
    var c0 := if s.cur.inst.cond != CondNone then 1 else 0;
    if CheckCond(s.cur.inst.cond, s.regs.f) then
      var s2 := Drop(Drop(s));
      Outcome(s2.(regs := s2.regs.(pc := StackWord(s))), c0 + 3)
    else
      Outcome(s, c0)
  }

  /** proc_reti: IME is set, then RET runs. */
  function StepReti(s: Machine): (o: Outcome)
  {
    StepRet(s.(ime := true))
  }

  /** proc_di and proc_ei: DI clears IME at once, EI only arms enabling_ime. */
  function StepDi(s: Machine): Outcome
  {
    Outcome(s.(ime := false), 0)
  }

  function StepEi(s: Machine): Outcome
  {
    Outcome(s.(enablingIme := true), 0)
  }

  /** POP AF's mask: the low nibble, where F has no flags, is cleared. */
  function ClearLowNibble(w: u16): u16
  {
    w & 0xFFF0
  }

  /** proc_pop: the word on the stack goes to reg_1; for AF the low nibble of F is cleared. */
  function StepPop(s: Machine): (o: Outcome)
  {
    var n := StackWord(s);
    var s2 := Drop(Drop(s));
    var rt := s.cur.inst.reg1;
    var r := WriteReg(s2.regs, rt, n);
    Outcome(s2.(regs := if rt == RtAF then WriteReg(r, rt, ClearLowNibble(n)) else r), 2)
  }

  /** proc_push: the high byte of reg_1, then the low byte, read again after the first push. */
  function StepPush(s: Machine): (o: Outcome)
  {
    var rt := s.cur.inst.reg1;
    var s1 := Push(s, Hi(ReadReg(s.regs, rt)));
    Outcome(Push(s1, Lo(ReadReg(s1.regs, rt))), 3)
  }

  /** Whether INC or DEC works on the byte HL addresses rather than on reg_1. */
  predicate OnMemory(x: Fetched)
  {
    x.inst.reg1 == RtHL && x.inst.mode == AmMr
  }

  /**
   * proc_inc: INC (HL) increments the byte in memory, anything else the
   * register; the flags come from the stored value, unless the opcode is one
   * of the 16-bit forms.
   */
  function StepInc(s: Machine): (o: Outcome)
  {
    Outcome(if OnMemory(s.cur) then IncAtHl(s) else IncInReg(s), if Is16(s.cur.inst.reg1) then 1 else 0)
  }

  /** INC (HL): the byte plus one, cut to 8 bits, is stored and gives the flags. */
  function IncAtHl(s: Machine): Machine
  {
    var hl := ReadReg(s.regs, RtHL);
    var val := (s.mem(hl) + 1) as u16;
    Flagged(s.(mem := Store(s.mem, hl, Lo(val))), IncFlags(val, s.cur.opcode))
  }

  /** INC r: the register plus one is stored, and the flags come from reading it back. */
  function IncInReg(s: Machine): Machine
  {
    var rt := s.cur.inst.reg1;
    var r := WriteReg(s.regs, rt, Succ(ReadReg(s.regs, rt)));
    s.(regs := WithFlags(r, IncFlags(ReadReg(r, rt), s.cur.opcode)))
  }

  /** proc_dec: as INC; the (HL) form takes its flags from the unmasked 16-bit difference. */
  function StepDec(s: Machine): (o: Outcome)
  {
    Outcome(if OnMemory(s.cur) then DecAtHl(s) else DecInReg(s), if Is16(s.cur.inst.reg1) then 1 else 0)
  }

  function DecAtHl(s: Machine): Machine
  {
    var hl := ReadReg(s.regs, RtHL);
    var val := s.mem(hl) as u16 - 1;
    Flagged(s.(mem := Store(s.mem, hl, Lo(val))), DecFlags(val, s.cur.opcode))
  }

  function DecInReg(s: Machine): Machine
  {
    var rt := s.cur.inst.reg1;
    var r := WriteReg(s.regs, rt, Pred(ReadReg(s.regs, rt)));
    s.(regs := WithFlags(r, DecFlags(ReadReg(r, rt), s.cur.opcode)))
  }

  /** proc_add: reg_1 receives the sum, then the flags are set; a 16-bit destination costs a cycle. */
  function StepAdd(s: Machine): (o: Outcome)
  {
    var rt := s.cur.inst.reg1;
    var r := Add(rt, ReadReg(s.regs, rt), s.cur.data);
    Outcome(s.(regs := WithFlags(WriteReg(s.regs, rt, r.value), r.flags)), if Is16(rt) then 1 else 0)
  }

  /** An 8-bit ALU result stored in A together with its flags. */
  function IntoA(s: Machine, r: Result8): (o: Outcome)
    ensures o.m.regs == s.regs.(a := r.value, f := SetFlags(s.regs.f, r.flags))
    ensures o.m.mem == s.mem && o.cycles == 0
  {
    Outcome(s.(regs := WithFlags(s.regs.(a := r.value), r.flags)), 0)
  }

  /** proc_adc, proc_and, proc_xor and proc_or: A op operand (with the carry for ADC). */
  function StepAdc(s: Machine): Outcome { IntoA(s, Adc(s.regs.a, s.cur.data, CarryFlag(s.regs.f))) }

  function StepAnd(s: Machine): Outcome { IntoA(s, And(s.regs.a, s.cur.data)) }

  function StepXor(s: Machine): Outcome { IntoA(s, Xor(s.regs.a, s.cur.data)) }

  function StepOr(s: Machine): Outcome { IntoA(s, Or(s.regs.a, s.cur.data)) }

  /** proc_sub and proc_sbc: reg_1 minus the operand (and the carry), then the flags. */
  function StepSub(s: Machine): (o: Outcome)
  {
    var rt := s.cur.inst.reg1;
    var r := Sub(ReadReg(s.regs, rt), s.cur.data);
    Outcome(s.(regs := WithFlags(WriteReg(s.regs, rt, r.value), r.flags)), 0)
  }

  function StepSbc(s: Machine): (o: Outcome)
  {
    var rt := s.cur.inst.reg1;
    var r := Sbc(ReadReg(s.regs, rt), s.cur.data, CarryFlag(s.regs.f));
    Outcome(s.(regs := WithFlags(WriteReg(s.regs, rt, r.value), r.flags)), 0)
  }

  /** proc_cp: only the flags of A - operand. */
  function StepCp(s: Machine): Outcome
  {
    Outcome(Flagged(s, Cp(s.regs.a, s.cur.data)), 0)
  }

  /**
   * proc_cb: the low byte of the operand is the CB opcode; its register (or
   * (HL)) is read, written back unless the class is BIT, and the flags set.
   * The (HL) operand costs two cycles more.
   */
  function StepCb(s: Machine): (o: Outcome)
  {
    var op := Lo(s.cur.data);
    var rt := CbReg(op);
    var r := CbStep(op, Read8(s, rt), CarryFlag(s.regs.f));
    var s1 := if r.write.Some? then Write8(s, rt, r.write.value) else s;
    Outcome(Flagged(s1, r.flags), if rt == RtHL then 3 else 1)
  }

  /** proc_rlca, proc_rrca, proc_rla, proc_rra, proc_daa and proc_cpl: results into A. */
  function StepRlca(s: Machine): Outcome { IntoA(s, Rlca(s.regs.a)) }

  function StepRrca(s: Machine): Outcome { IntoA(s, Rrca(s.regs.a)) }

  function StepRla(s: Machine): Outcome { IntoA(s, Rla(s.regs.a, CarryFlag(s.regs.f))) }

  function StepRra(s: Machine): Outcome { IntoA(s, Rra(s.regs.a, CarryFlag(s.regs.f))) }

  function StepDaa(s: Machine): Outcome
  {
    IntoA(s, Daa(s.regs.a, SubFlag(s.regs.f), HalfFlag(s.regs.f), CarryFlag(s.regs.f)))
  }

  function StepCpl(s: Machine): Outcome { IntoA(s, Cpl(s.regs.a)) }

  /** proc_scf and proc_ccf: flags only. */
  function StepScf(s: Machine): Outcome { Outcome(Flagged(s, Scf), 0) }

  function StepCcf(s: Machine): Outcome { Outcome(Flagged(s, Ccf(CarryFlag(s.regs.f))), 0) }

  /**
   * inst_get_proc: the kinds whose slot in the processor table holds
   * proc_none, which ends the emulator; JPHL and the CB sub-kinds are among
   * them.
   */
  predicate Fatal(k: InType)
  {
    match k
    case InNone | InJpHl | InErr => true
    case InRlc | InRrc | InRl | InRr | InSla | InSra | InSwap | InSrl | InBit | InRes | InSet => true
    case _ => false
  }

  /** One instruction through its processor; None where the processor is proc_none. */
  function Dispatch(s: Machine): Option<Outcome>
  {
    match s.cur.inst.kind
    case InNop => Some(StepNop(s))
    case InLd => Some(StepLd(s))
    case InInc => Some(StepInc(s))
    case InDec => Some(StepDec(s))
    case InRlca => Some(StepRlca(s))
    case InAdd => Some(StepAdd(s))
    case InRrca => Some(StepRrca(s))
    case InStop => Some(StepNop(s))
    case InRla => Some(StepRla(s))
    case InJr => Some(StepJr(s))
    case InRra => Some(StepRra(s))
    case InDaa => Some(StepDaa(s))
    case InCpl => Some(StepCpl(s))
    case InScf => Some(StepScf(s))
    case InCcf => Some(StepCcf(s))
    case InHalt => Some(StepHalt(s))
    case InAdc => Some(StepAdc(s))
    case InSub => Some(StepSub(s))
    case InSbc => Some(StepSbc(s))
    case InAnd => Some(StepAnd(s))
    case InXor => Some(StepXor(s))
    case InOr => Some(StepOr(s))
    case InCp => Some(StepCp(s))
    case InPop => Some(StepPop(s))
    case InJp => Some(StepJp(s))
    case InPush => Some(StepPush(s))
    case InRet => Some(StepRet(s))
    case InCb => Some(StepCb(s))
    case InCall => Some(StepCall(s))
    case InReti => Some(StepReti(s))
    case InLdh => Some(StepLdh(s))
    case InDi => Some(StepDi(s))
    case InEi => Some(StepEi(s))
    case InRst => Some(StepRst(s))
    case _ => None
  }

  // ---------------------------------------------------------------------
  // The handlers, updating the CPU context in place

  /**
   * cpu_context: the registers, the address space behind the bus and the
   * control flags the handlers update, with the cycles reported to
   * emu_cycles counted in a ghost field.
   */
  class Cpu {
    var regs: Regs
    var mem: Memory
    var halted: bool
    var ime: bool
    var enablingIme: bool
    var cur: Fetched
    ghost var cycles: nat

    /** The context as a value, for stating what a handler does. */
    function State(): Machine
      reads this
    {
      Machine(regs, mem, halted, ime, enablingIme, cur)
    }

    constructor (m: Machine)
      ensures State() == m && cycles == 0
    {
      regs := m.regs;
      mem := m.mem;
      halted := m.halted;
      ime := m.ime;
      enablingIme := m.enablingIme;
      cur := m.cur;
      cycles := 0;
    }

    /** cpu_set_flags: each argument other than Keep is stored with BIT_SET. */
    method SetFlagsOf(fl: FlagUpdate)
      modifies this
      ensures mem == Flagged(old(State()), fl).mem
      ensures regs == Flagged(old(State()), fl).regs
      ensures State() == Flagged(old(State()), fl) && cycles == old(cycles)
    {
      PutFlag(7, 0x80, fl.z);
      PutFlag(6, 0x40, fl.n);
      PutFlag(5, 0x20, fl.h);
      PutFlag(4, 0x10, fl.c);
    }

    /** One argument of cpu_set_flags: BIT_SET of bit n of F unless the argument is -1. */
    method PutFlag(n: u8, mask: u8, arg: FlagArg)
      requires 4 <= n < 8 && mask == 1 << n
      modifies this
      ensures regs == old(regs).(f := ApplyFlag(old(regs).f, mask, arg))
      ensures mem == old(mem)
      ensures State() == old(State()).(regs := regs) && cycles == old(cycles)
    {
      FlagBit(regs.f, n, arg);
      if arg.Put? {
        regs := regs.(f := BitSet(regs.f, n, arg.on));
      }
    }

    /** cpu_set_reg8: (HL) goes to memory, any other operand to its register. */
    method SetReg8(rt: Reg, v: u8)
      requires rt != RtNone && (rt == RtHL || !Is16(rt))
      modifies this
      ensures mem == Write8(old(State()), rt, v).mem
      ensures regs == Write8(old(State()), rt, v).regs
      ensures State() == Write8(old(State()), rt, v) && cycles == old(cycles)
    {
      if rt == RtHL {
        BusWrite(ReadReg(regs, RtHL), v);
      } else {
        SetReg(rt, v as u16);
      }
    }

    /** cpu_set_reg: the register (or pair) receives the value; memory is untouched. */
    method SetReg(rt: Reg, v: u16)
      modifies this
      ensures regs == WriteReg(old(regs), rt, v)
      ensures mem == old(mem)
      ensures State() == old(State()).(regs := WriteReg(old(regs), rt, v)) && cycles == old(cycles)
    {
      regs := WriteReg(regs, rt, v);
    }

    /** bus_write: one byte is stored at an address; the registers are untouched. */
    method BusWrite(at: u16, v: u8)
      modifies this
      ensures mem == Store(old(mem), at, v)
      ensures regs == old(regs)
      ensures State() == old(State()).(mem := Store(old(mem), at, v)) && cycles == old(cycles)
    {
      mem := Store(mem, at, v);
    }

    /** bus_write16: two bytes, the high one at the next address first. */
    method BusWrite16(at: u16, w: u16)
      modifies this
      ensures mem == Store16(old(mem), at, w)
      ensures regs == old(regs)
      ensures State() == old(State()).(mem := Store16(old(mem), at, w)) && cycles == old(cycles)
    {
      BusWrite(Succ(at), Hi(w));
      BusWrite(at, Lo(w));
    }

    /** stack_push: SP is decremented, then the byte is stored where it points. */
    method StackPush(v: u8)
      modifies this
      ensures mem == Push(old(State()), v).mem
      ensures regs == Push(old(State()), v).regs
      ensures State() == Push(old(State()), v) && cycles == old(cycles)
    {
      regs := regs.(sp := regs.sp - 1);
      mem := Store(mem, regs.sp, v);
    }

    /** stack_push16: the high byte, then the low byte. */
    method StackPush16(w: u16)
      modifies this
      ensures mem == Push16(old(State()), w).mem
      ensures regs == Push16(old(State()), w).regs
      ensures State() == Push16(old(State()), w) && cycles == old(cycles)
    {
      StackPush(Hi(w));
      StackPush(Lo(w));
    }

    /** stack_pop: the byte at SP, then SP is incremented. */
    method StackPop() returns (v: u8)
      modifies this
      ensures v == Top(old(State()))
      ensures mem == Drop(old(State())).mem
      ensures regs == Drop(old(State())).regs
      ensures State() == Drop(old(State())) && cycles == old(cycles)
    {
      v := mem(regs.sp);
      regs := regs.(sp := regs.sp + 1);
    }

    method ProcNop()
      modifies this
      ensures State() == StepNop(old(State())).m
      ensures cycles == old(cycles) + StepNop(old(State())).cycles
    {
    }

    /** proc_stop only reports on stderr: the context is left as it is. */
    method ProcStop()
      modifies this
      ensures State() == StepNop(old(State())).m
      ensures cycles == old(cycles) + StepNop(old(State())).cycles
    {
    }

    method ProcHalt()
      modifies this
      ensures State() == StepHalt(old(State())).m
      ensures cycles == old(cycles) + StepHalt(old(State())).cycles
    {
      halted := true;
    }

    method ProcLd()
      modifies this
      ensures State() == StepLd(old(State())).m
      ensures cycles == old(cycles) + StepLd(old(State())).cycles
    {
      if cur.destIsMem {
        if Is16(cur.inst.reg2) {
          cycles := cycles + 1;
          BusWrite16(cur.memDest, cur.data);
        } else {
          BusWrite(cur.memDest, Lo(cur.data));
        }
        cycles := cycles + 1;
        return;
      }
      if cur.inst.mode == AmHlSpr {
        var r := SpOffset(ReadReg(regs, cur.inst.reg2), cur.data);
        SetFlagsOf(r.flags);
        SetReg(cur.inst.reg1, r.value);
        return;
      }
      SetReg(cur.inst.reg1, cur.data);
    }

    method ProcLdh()
      modifies this
      ensures State() == StepLdh(old(State())).m
      ensures cycles == old(cycles) + StepLdh(old(State())).cycles
    {
      if cur.inst.reg1 == RtA {
        SetReg(RtA, mem(HighPage(cur.data)) as u16);
      } else {
        BusWrite(cur.memDest, regs.a);
      }
      cycles := cycles + 1;
    }

    method GotoAddr(addr: u16, pushpc: bool)
      modifies this
      ensures mem == Goto(old(State()), addr, pushpc).m.mem
      ensures regs == Goto(old(State()), addr, pushpc).m.regs
      ensures State() == Goto(old(State()), addr, pushpc).m
      ensures cycles == old(cycles) + Goto(old(State()), addr, pushpc).cycles
    {
      if CheckCond(cur.inst.cond, regs.f) {
        if pushpc {
          cycles := cycles + 2;
          StackPush16(regs.pc);
        }
        regs := regs.(pc := addr);
        cycles := cycles + 1;
      }
    }

    method ProcJp()
      modifies this
      ensures State() == StepJp(old(State())).m
      ensures cycles == old(cycles) + StepJp(old(State())).cycles
    {
      GotoAddr(cur.data, false);
    }

    method ProcJr()
      modifies this
      ensures State() == StepJr(old(State())).m
      ensures cycles == old(cycles) + StepJr(old(State())).cycles
    {
      GotoAddr(RelativeTarget(regs.pc, cur.data), false);
    }

    method ProcCall()
      modifies this
      ensures State() == StepCall(old(State())).m
      ensures cycles == old(cycles) + StepCall(old(State())).cycles
    {
      GotoAddr(cur.data, true);
    }

    method ProcRst()
      modifies this
      ensures State() == StepRst(old(State())).m
      ensures cycles == old(cycles) + StepRst(old(State())).cycles
    {
      GotoAddr(cur.inst.param as u16, true);
    }

    method ProcRet()
      modifies this
      ensures State() == StepRet(old(State())).m
      ensures cycles == old(cycles) + StepRet(old(State())).cycles
    {
      if cur.inst.cond != CondNone {
        cycles := cycles + 1;
      }
      if CheckCond(cur.inst.cond, regs.f) {
        var lo := StackPop();
        cycles := cycles + 1;
        var hi := StackPop();
        cycles := cycles + 1;
        regs := regs.(pc := Word(hi, lo));
        cycles := cycles + 1;
      }
    }

    method ProcReti()
      modifies this
      ensures State() == StepReti(old(State())).m
      ensures cycles == old(cycles) + StepReti(old(State())).cycles
    {
      ime := true;
      ProcRet();
    }

    method ProcDi()
      modifies this
      ensures State() == StepDi(old(State())).m
      ensures cycles == old(cycles) + StepDi(old(State())).cycles
    {
      ime := false;
    }

    method ProcEi()
      modifies this
      ensures State() == StepEi(old(State())).m
      ensures cycles == old(cycles) + StepEi(old(State())).cycles
    {
      enablingIme := true;
    }

    method ProcPop()
      modifies this
      ensures State() == StepPop(old(State())).m
      ensures cycles == old(cycles) + StepPop(old(State())).cycles
    {
      var lo := StackPop();
      cycles := cycles + 1;
      var hi := StackPop();
      cycles := cycles + 1;
      var n := Word(hi, lo);
      SetReg(cur.inst.reg1, n);
      if cur.inst.reg1 == RtAF {
        SetReg(cur.inst.reg1, ClearLowNibble(n));
      }
    }

    method ProcPush()
      modifies this
      ensures State() == StepPush(old(State())).m
      ensures cycles == old(cycles) + StepPush(old(State())).cycles
    {
      var hi := Hi(ReadReg(regs, cur.inst.reg1));
      cycles := cycles + 1;
      StackPush(hi);
      var lo := Lo(ReadReg(regs, cur.inst.reg1));
      cycles := cycles + 1;
      StackPush(lo);
      cycles := cycles + 1;
    }

    method ProcInc()
      modifies this
      ensures State() == StepInc(old(State())).m
      ensures cycles == old(cycles) + StepInc(old(State())).cycles
    {
      if Is16(cur.inst.reg1) {
        cycles := cycles + 1;
      }
      if OnMemory(cur) {
        ProcIncAtHl();
      } else {
        ProcIncInReg();
      }
    }

    method ProcIncAtHl()
      modifies this
      ensures State() == IncAtHl(old(State())) && cycles == old(cycles)
    {
      var hl := ReadReg(regs, RtHL);
      var val := (mem(hl) + 1) as u16;
      BusWrite(hl, Lo(val));
      if cur.opcode & 3 == 3 {
        SetFlagsKeepAll(regs.f);
      } else {
        SetFlagsOf(IncFlags(val, cur.opcode));
      }
    }

    method ProcIncInReg()
      modifies this
      ensures State() == IncInReg(old(State())) && cycles == old(cycles)
    {
      var rt := cur.inst.reg1;
      SetReg(rt, Succ(ReadReg(regs, rt)));
      var val := ReadReg(regs, rt);
      if cur.opcode & 3 == 3 {
        SetFlagsKeepAll(regs.f);
      } else {
        SetFlagsOf(IncFlags(val, cur.opcode));
      }
    }

    method ProcDec()
      modifies this
      ensures State() == StepDec(old(State())).m
      ensures cycles == old(cycles) + StepDec(old(State())).cycles
    {
      if Is16(cur.inst.reg1) {
        cycles := cycles + 1;
      }
      if OnMemory(cur) {
        ProcDecAtHl();
      } else {
        ProcDecInReg();
      }
    }

    method ProcDecAtHl()
      modifies this
      ensures State() == DecAtHl(old(State())) && cycles == old(cycles)
    {
      var hl := ReadReg(regs, RtHL);
      var val := mem(hl) as u16 - 1;
      BusWrite(hl, Lo(val));
      if cur.opcode & 0x0B == 0x0B {
        SetFlagsKeepAll(regs.f);
      } else {
        SetFlagsOf(DecFlags(val, cur.opcode));
      }
    }

    method ProcDecInReg()
      modifies this
      ensures State() == DecInReg(old(State())) && cycles == old(cycles)
    {
      var rt := cur.inst.reg1;
      SetReg(rt, Pred(ReadReg(regs, rt)));
      var val := ReadReg(regs, rt);
      if cur.opcode & 0x0B == 0x0B {
        SetFlagsKeepAll(regs.f);
      } else {
        SetFlagsOf(DecFlags(val, cur.opcode));
      }
    }

    method ProcAdd()
      modifies this
      ensures State() == StepAdd(old(State())).m
      ensures cycles == old(cycles) + StepAdd(old(State())).cycles
    {
      var rt := cur.inst.reg1;
      var r := Add(rt, ReadReg(regs, rt), cur.data);
      if Is16(rt) {
        cycles := cycles + 1;
      }
      SetReg(rt, r.value);
      SetFlagsOf(r.flags);
    }

    /** The tail of the A-only ALU handlers: A receives the value, then the flags are set. */
    method StoreA(r: Result8)
      modifies this
      ensures mem == IntoA(old(State()), r).m.mem
      ensures regs == IntoA(old(State()), r).m.regs
      ensures State() == IntoA(old(State()), r).m && cycles == old(cycles)
    {
      regs := regs.(a := r.value);
      SetFlagsOf(r.flags);
    }

    method ProcAdc()
      modifies this
      ensures State() == StepAdc(old(State())).m
      ensures cycles == old(cycles) + StepAdc(old(State())).cycles
    {
      StoreA(Adc(regs.a, cur.data, CarryFlag(regs.f)));
    }

    method ProcSub()
      modifies this
      ensures State() == StepSub(old(State())).m
      ensures cycles == old(cycles) + StepSub(old(State())).cycles
    {
      var rt := cur.inst.reg1;
      var r := Sub(ReadReg(regs, rt), cur.data);
      SetReg(rt, r.value);
      SetFlagsOf(r.flags);
    }

    method ProcSbc()
      modifies this
      ensures State() == StepSbc(old(State())).m
      ensures cycles == old(cycles) + StepSbc(old(State())).cycles
    {
      var rt := cur.inst.reg1;
      var r := Sbc(ReadReg(regs, rt), cur.data, CarryFlag(regs.f));
      SetReg(rt, r.value);
      SetFlagsOf(r.flags);
    }

    method ProcAnd()
      modifies this
      ensures State() == StepAnd(old(State())).m
      ensures cycles == old(cycles) + StepAnd(old(State())).cycles
    {
      StoreA(And(regs.a, cur.data));
    }

    method ProcXor()
      modifies this
      ensures State() == StepXor(old(State())).m
      ensures cycles == old(cycles) + StepXor(old(State())).cycles
    {
      StoreA(Xor(regs.a, cur.data));
    }

    method ProcOr()
      modifies this
      ensures State() == StepOr(old(State())).m
      ensures cycles == old(cycles) + StepOr(old(State())).cycles
    {
      StoreA(Or(regs.a, cur.data));
    }

    method ProcCp()
      modifies this
      ensures State() == StepCp(old(State())).m
      ensures cycles == old(cycles) + StepCp(old(State())).cycles
    {
      SetFlagsOf(Cp(regs.a, cur.data));
    }

    method ProcCb()
      modifies this
      ensures State() == StepCb(old(State())).m
      ensures cycles == old(cycles) + StepCb(old(State())).cycles
    {
      var op := Lo(cur.data);
      var rt := CbReg(op);
      var r := CbStep(op, Read8(State(), rt), CarryFlag(regs.f));
      cycles := cycles + 1;
      if rt == RtHL {
        cycles := cycles + 2;
      }
      if r.write.Some? {
        SetReg8(rt, r.write.value);
      }
      SetFlagsOf(r.flags);
    }

    method ProcRlca()
      modifies this
      ensures State() == StepRlca(old(State())).m
      ensures cycles == old(cycles) + StepRlca(old(State())).cycles
    {
      StoreA(Rlca(regs.a));
    }

    method ProcRrca()
      modifies this
      ensures State() == StepRrca(old(State())).m
      ensures cycles == old(cycles) + StepRrca(old(State())).cycles
    {
      StoreA(Rrca(regs.a));
    }

    method ProcRla()
      modifies this
      ensures State() == StepRla(old(State())).m
      ensures cycles == old(cycles) + StepRla(old(State())).cycles
    {
      StoreA(Rla(regs.a, CarryFlag(regs.f)));
    }

    method ProcRra()
      modifies this
      ensures State() == StepRra(old(State())).m
      ensures cycles == old(cycles) + StepRra(old(State())).cycles
    {
      StoreA(Rra(regs.a, CarryFlag(regs.f)));
    }

    method ProcDaa()
      modifies this
      ensures State() == StepDaa(old(State())).m
      ensures cycles == old(cycles) + StepDaa(old(State())).cycles
    {
      StoreA(Daa(regs.a, SubFlag(regs.f), HalfFlag(regs.f), CarryFlag(regs.f)));
    }

    method ProcCpl()
      modifies this
      ensures State() == StepCpl(old(State())).m
      ensures cycles == old(cycles) + StepCpl(old(State())).cycles
    {
      StoreA(Cpl(regs.a));
    }

    method ProcScf()
      modifies this
      ensures State() == StepScf(old(State())).m
      ensures cycles == old(cycles) + StepScf(old(State())).cycles
    {
      SetFlagsOf(Scf);
    }

    method ProcCcf()
      modifies this
      ensures State() == StepCcf(old(State())).m
      ensures cycles == old(cycles) + StepCcf(old(State())).cycles
    {
      SetFlagsOf(Ccf(CarryFlag(regs.f)));
    }

    /**
     * inst_get_proc and the call of the handler: false where the handler is
     * proc_none, which ends the program, and the context is then untouched.
     */
    method Execute() returns (ok: bool)
      modifies this
      ensures ok == Dispatch(old(State())).Some?
      ensures !ok ==> State() == old(State()) && cycles == old(cycles)
      ensures ok ==> State() == Dispatch(old(State())).value.m
      ensures ok ==> cycles == old(cycles) + Dispatch(old(State())).value.cycles
    {
      ok := true;
      match cur.inst.kind
      case InNop => ProcNop();
      case InLd => ProcLd();
      case InInc => ProcInc();
      case InDec => ProcDec();
      case InRlca => ProcRlca();
      case InAdd => ProcAdd();
      case InRrca => ProcRrca();
      case InStop => ProcStop();
      case InRla => ProcRla();
      case InJr => ProcJr();
      case InRra => ProcRra();
      case InDaa => ProcDaa();
      case InCpl => ProcCpl();
      case InScf => ProcScf();
      case InCcf => ProcCcf();
      case InHalt => ProcHalt();
      case InAdc => ProcAdc();
      case InSub => ProcSub();
      case InSbc => ProcSbc();
      case InAnd => ProcAnd();
      case InXor => ProcXor();
      case InOr => ProcOr();
      case InCp => ProcCp();
      case InPop => ProcPop();
      case InJp => ProcJp();
      case InPush => ProcPush();
      case InRet => ProcRet();
      case InCb => ProcCb();
      case InCall => ProcCall();
      case InReti => ProcReti();
      case InLdh => ProcLdh();
      case InDi => ProcDi();
      case InEi => ProcEi();
      case InRst => ProcRst();
      case _ => ok := false;
    }
  }

  // ---------------------------------------------------------------------
  // What the handlers promise

  /** Exactly the kinds that dispatch to proc_none, or that no table entry produces, stop the emulator. */
  lemma DispatchFails(s: Machine)
    ensures Dispatch(s).None? <==> Fatal(s.cur.inst.kind)
  {
  }

  /** A branch whose condition fails changes nothing and costs nothing beyond the fetch. */
  lemma GotoNotTaken(s: Machine, addr: u16, pushpc: bool)
    requires !CheckCond(s.cur.inst.cond, s.regs.f)
    ensures Goto(s, addr, pushpc) == Outcome(s, 0)
  {
  }

  /** A taken jump lands on its target and touches nothing but PC. */
  lemma GotoTaken(s: Machine, addr: u16, pushpc: bool)
    requires CheckCond(s.cur.inst.cond, s.regs.f)
    ensures Goto(s, addr, pushpc).m.regs.pc == addr
    ensures !pushpc ==> Goto(s, addr, pushpc).m == s.(regs := s.regs.(pc := addr))
    ensures pushpc ==> Goto(s, addr, pushpc).m.regs.sp == s.regs.sp - 2
  {
  }

  /** JR adds the operand's low byte as a signed offset to PC. */
  lemma JrTarget(s: Machine)
    requires CheckCond(s.cur.inst.cond, s.regs.f)
    ensures StepJr(s).m.regs.pc == s.regs.pc + SignExtend(Lo(s.cur.data))
  {
  }

  /**
   * CALL followed by an unconditional RET comes back to the address after
   * the CALL with SP where it was, and RST behaves the same.
   */
  lemma RetAfterCall(s: Machine, ret: Fetched)
    requires CheckCond(s.cur.inst.cond, s.regs.f) && ret.inst.cond == CondNone
    ensures var s1 := StepCall(s).m.(cur := ret);
            StepRet(s1).m.regs == s.regs
            && StepRet(s1).m.halted == s.halted && StepRet(s1).m.ime == s.ime
  {
    var s1 := StepCall(s).m.(cur := ret);
    StackWordAfterPush16(s, s.regs.pc);
    assert StackWord(s1) == s.regs.pc;
  }

  lemma RetAfterRst(s: Machine, ret: Fetched)
    requires CheckCond(s.cur.inst.cond, s.regs.f) && ret.inst.cond == CondNone
    ensures var s1 := StepRst(s).m.(cur := ret);
            StepRet(s1).m.regs == s.regs
  {
    var s1 := StepRst(s).m.(cur := ret);
    StackWordAfterPush16(s, s.regs.pc);
    assert StackWord(s1) == s.regs.pc;
  }

  /** RETI is RET with IME set. */
  lemma RetiSetsIme(s: Machine)
    ensures StepReti(s).m.ime
    ensures StepReti(s).m.regs == StepRet(s).m.regs
  {
    var t := s.(ime := true);
    assert Drop(Drop(t)).regs == Drop(Drop(s)).regs;
    assert StackWord(t) == StackWord(s);
    assert CheckCond(t.cur.inst.cond, t.regs.f) == CheckCond(s.cur.inst.cond, s.regs.f);
  }

  /** The register pairs PUSH and POP name. */
  predicate StackPair(rt: Reg)
  {
    rt == RtBC || rt == RtDE || rt == RtHL || rt == RtAF
  }

  /** PUSH moves SP down by two and leaves every other register alone. */
  lemma PushMovesSp(s: Machine)
    requires StackPair(s.cur.inst.reg1)
    ensures StepPush(s).m.regs == s.regs.(sp := s.regs.sp - 2)
  {
  }

  /** PUSH stores the pair with its high byte above its low byte: the stacked word is the pair. */
  lemma PushStoresPair(s: Machine)
    requires StackPair(s.cur.inst.reg1)
    ensures StackWord(StepPush(s).m) == ReadReg(s.regs, s.cur.inst.reg1)
  {
    var rt := s.cur.inst.reg1;
    var w := ReadReg(s.regs, rt);
    var s1 := Push(s, Hi(w));
    ReadIgnoresSp(s.regs, rt, s.regs.sp - 1);
    assert StepPush(s).m == Push16(s, w);
    StackWordAfterPush16(s, w);
  }

  /** The stacked word depends on memory and SP only. */
  lemma StackWordIgnoresCur(s: Machine, x: Fetched)
    ensures StackWord(s.(cur := x)) == StackWord(s)
  {
  }

  /** POP BC, DE or HL: the pair receives the stacked word, SP moves up by two, nothing else changes. */
  lemma PopPair(t: Machine)
    requires t.cur.inst.reg1 in {RtBC, RtDE, RtHL}
    ensures StepPop(t).m.regs == WriteReg(t.regs.(sp := t.regs.sp + 2), t.cur.inst.reg1, StackWord(t))
  {
  }

  /** POP AF: as POP of a pair, with the low nibble of F cleared. */
  lemma PopAf(t: Machine)
    requires t.cur.inst.reg1 == RtAF
    ensures StepPop(t).m.regs == WriteReg(t.regs.(sp := t.regs.sp + 2), RtAF, StackWord(t) & 0xFFF0)
  {
  }

  /**
   * LDH (a8),A then LDH A,(a8) with the same operand leaves every register
   * as it was: A gets back the byte it stored in the 0xFF00 page.
   */
  lemma LdhLoadAfterStore(s: Machine, load: Fetched)
    requires s.cur.inst.reg1 != RtA && load.inst.reg1 == RtA
    requires s.cur.memDest == HighPage(load.data)
    ensures StepLdh(StepLdh(s).m.(cur := load)).m.regs == s.regs
    ensures StepLdh(StepLdh(s).m.(cur := load)).m.mem == Store(s.mem, HighPage(load.data), s.regs.a)
  {
  }

  /** PUSH rr then POP rr restores BC, DE and HL, and SP, exactly. */
  lemma PopAfterPush(s: Machine, pop: Fetched)
    requires s.cur.inst.reg1 in {RtBC, RtDE, RtHL} && pop.inst.reg1 == s.cur.inst.reg1
    ensures StepPop(StepPush(s).m.(cur := pop)).m.regs == s.regs
  {
    var s1 := StepPush(s).m.(cur := pop);
    PushMovesSp(s);
    PushStoresPair(s);
    StackWordIgnoresCur(StepPush(s).m, pop);
    PopPair(s1);
    var r0 := s1.regs.(sp := s1.regs.sp + 2);
    assert r0 == s.regs;
    RestoreRegs(r0, s.regs, s.cur.inst.reg1, StackWord(s1));
  }

  /** PUSH AF then POP AF restores A and SP and gives F back with its low nibble cleared. */
  lemma PopAfterPushAf(s: Machine, pop: Fetched)
    requires s.cur.inst.reg1 == RtAF && pop.inst.reg1 == RtAF
    ensures StepPop(StepPush(s).m.(cur := pop)).m.regs == s.regs.(f := s.regs.f & 0xF0)
  {
    var s1 := StepPush(s).m.(cur := pop);
    PushMovesSp(s);
    PushStoresPair(s);
    StackWordIgnoresCur(StepPush(s).m, pop);
    PopAf(s1);
    assert s1.regs.(sp := s1.regs.sp + 2) == s.regs;
    WordOfHalves(ReadReg(s.regs, RtAF) & 0xFFF0);
  }

  /** The registers after INC r are those WriteReg gives, F aside. */
  lemma IncForm(s: Machine)
    requires s.cur.inst.mode == AmR
    ensures var rt := s.cur.inst.reg1;
            var r1 := WriteReg(s.regs, rt, Succ(ReadReg(s.regs, rt)));
            StepInc(s).m.regs == r1.(f := StepInc(s).m.regs.f)
  {
  }

  /** The registers after DEC r are those WriteReg gives, F aside. */
  lemma DecForm(s: Machine)
    requires s.cur.inst.mode == AmR
    ensures var rt := s.cur.inst.reg1;
            var r1 := WriteReg(s.regs, rt, Pred(ReadReg(s.regs, rt)));
            StepDec(s).m.regs == r1.(f := StepDec(s).m.regs.f)
  {
  }

  /** INC r: reading r back gives what storing r + 1 into it gives. */
  lemma IncRead(s: Machine)
    requires s.cur.inst.mode == AmR && s.cur.inst.reg1 != RtF && s.cur.inst.reg1 != RtAF
    ensures var rt := s.cur.inst.reg1;
            ReadReg(StepInc(s).m.regs, rt) == ReadReg(WriteReg(s.regs, rt, Succ(ReadReg(s.regs, rt))), rt)
  {
    var rt := s.cur.inst.reg1;
    IncForm(s);
    ReadIgnoresF(WriteReg(s.regs, rt, Succ(ReadReg(s.regs, rt))), rt, StepInc(s).m.regs.f);
  }

  /** DEC r: reading r back gives what storing r - 1 into it gives. */
  lemma DecRead(s: Machine)
    requires s.cur.inst.mode == AmR && s.cur.inst.reg1 != RtF && s.cur.inst.reg1 != RtAF
    ensures var rt := s.cur.inst.reg1;
            ReadReg(StepDec(s).m.regs, rt) == ReadReg(WriteReg(s.regs, rt, Pred(ReadReg(s.regs, rt))), rt)
  {
    var rt := s.cur.inst.reg1;
    DecForm(s);
    ReadIgnoresF(WriteReg(s.regs, rt, Pred(ReadReg(s.regs, rt))), rt, StepDec(s).m.regs.f);
  }

  /** INC of a 16-bit register adds one modulo 2^16. */
  lemma IncWide(s: Machine)
    requires s.cur.inst.mode == AmR && Is16(s.cur.inst.reg1) && s.cur.inst.reg1 != RtAF
    ensures ReadReg(StepInc(s).m.regs, s.cur.inst.reg1) == ReadReg(s.regs, s.cur.inst.reg1) + 1
  {
    IncRead(s);
    ReadAfterWrite(s.regs, s.cur.inst.reg1, ReadReg(s.regs, s.cur.inst.reg1) + 1);
  }

  /** INC of an 8-bit register adds one modulo 2^8. */
  lemma IncByte(s: Machine)
    requires s.cur.inst.mode == AmR && !Is16(s.cur.inst.reg1) && s.cur.inst.reg1 !in {RtNone, RtF}
    ensures Lo(ReadReg(StepInc(s).m.regs, s.cur.inst.reg1)) == Lo(ReadReg(s.regs, s.cur.inst.reg1)) + 1
  {
    IncRead(s);
    ReadAfterWrite(s.regs, s.cur.inst.reg1, ReadReg(s.regs, s.cur.inst.reg1) + 1);
  }

  /** DEC of a 16-bit register subtracts one modulo 2^16. */
  lemma DecWide(s: Machine)
    requires s.cur.inst.mode == AmR && Is16(s.cur.inst.reg1) && s.cur.inst.reg1 != RtAF
    ensures ReadReg(StepDec(s).m.regs, s.cur.inst.reg1) == ReadReg(s.regs, s.cur.inst.reg1) - 1
  {
    DecRead(s);
    ReadAfterWrite(s.regs, s.cur.inst.reg1, ReadReg(s.regs, s.cur.inst.reg1) - 1);
  }

  /** DEC of an 8-bit register subtracts one modulo 2^8. */
  lemma DecByte(s: Machine)
    requires s.cur.inst.mode == AmR && !Is16(s.cur.inst.reg1) && s.cur.inst.reg1 !in {RtNone, RtF}
    ensures Lo(ReadReg(StepDec(s).m.regs, s.cur.inst.reg1)) == Lo(ReadReg(s.regs, s.cur.inst.reg1)) - 1
  {
    DecRead(s);
    ReadAfterWrite(s.regs, s.cur.inst.reg1, ReadReg(s.regs, s.cur.inst.reg1) - 1);
  }

  /** INC rr then DEC rr gives a 16-bit register back. */
  lemma DecAfterIncWide(s: Machine, dec: Fetched)
    requires s.cur.inst.mode == AmR && dec.inst.mode == AmR && dec.inst.reg1 == s.cur.inst.reg1
    requires Is16(s.cur.inst.reg1) && s.cur.inst.reg1 != RtAF
    ensures ReadReg(StepDec(StepInc(s).m.(cur := dec)).m.regs, s.cur.inst.reg1) == ReadReg(s.regs, s.cur.inst.reg1)
  {
    IncWide(s);
    DecWide(StepInc(s).m.(cur := dec));
  }

  /** INC r then DEC r gives an 8-bit register back. */
  lemma DecAfterIncByte(s: Machine, dec: Fetched)
    requires s.cur.inst.mode == AmR && dec.inst.mode == AmR && dec.inst.reg1 == s.cur.inst.reg1
    requires !Is16(s.cur.inst.reg1) && s.cur.inst.reg1 !in {RtNone, RtF}
    ensures ReadReg(StepDec(StepInc(s).m.(cur := dec)).m.regs, s.cur.inst.reg1) == ReadReg(s.regs, s.cur.inst.reg1)
  {
    IncByte(s);
    DecByte(StepInc(s).m.(cur := dec));
  }

  /** INC (HL) stores the byte plus one, wrapping at 0xFF, in one extra cycle ... */
  lemma IncAtHlStores(s: Machine)
    requires s.cur.inst.reg1 == RtHL && s.cur.inst.mode == AmMr
    ensures StepInc(s).m.mem(ReadReg(s.regs, RtHL)) == s.mem(ReadReg(s.regs, RtHL)) + 1
    ensures StepInc(s).cycles == 1
  {
    var hl := ReadReg(s.regs, RtHL);
    assert StepInc(s).m.mem == Store(s.mem, hl, Lo((s.mem(hl) + 1) as u16));
  }

  /** ... and sets Z exactly when it wrapped, clears N, and keeps C. */
  lemma IncAtHlFlags(s: Machine)
    requires s.cur.inst.reg1 == RtHL && s.cur.inst.mode == AmMr && s.cur.opcode & 3 != 3
    ensures var x := s.mem(ReadReg(s.regs, RtHL));
            var f := StepInc(s).m.regs.f;
            (ZeroFlag(f) <==> x == 0xFF) && !SubFlag(f) && CarryFlag(f) == CarryFlag(s.regs.f)
  {
    var x := s.mem(ReadReg(s.regs, RtHL));
    var fl := IncFlags((x + 1) as u16, s.cur.opcode);
    assert StepInc(s).m.regs.f == SetFlags(s.regs.f, fl);
    IncByteFlags(x, s.cur.opcode);
    SetFlagsBits(s.regs.f, fl);
  }

  /** DEC (HL) stores the byte minus one, wrapping at 0x00 ... */
  lemma DecAtHlStores(s: Machine)
    requires s.cur.inst.reg1 == RtHL && s.cur.inst.mode == AmMr
    ensures StepDec(s).m.mem(ReadReg(s.regs, RtHL)) == s.mem(ReadReg(s.regs, RtHL)) - 1
  {
    var hl := ReadReg(s.regs, RtHL);
    assert StepDec(s).m.mem == Store(s.mem, hl, Lo(s.mem(hl) as u16 - 1));
  }

  /** ... and sets Z exactly when the byte was 1, sets N, and keeps C. */
  lemma DecAtHlFlags(s: Machine)
    requires s.cur.inst.reg1 == RtHL && s.cur.inst.mode == AmMr && s.cur.opcode & 0x0B != 0x0B
    ensures var x := s.mem(ReadReg(s.regs, RtHL));
            var f := StepDec(s).m.regs.f;
            (ZeroFlag(f) <==> x == 1) && SubFlag(f) && CarryFlag(f) == CarryFlag(s.regs.f)
  {
    var x := s.mem(ReadReg(s.regs, RtHL));
    var fl := DecFlags(x as u16 - 1, s.cur.opcode);
    assert StepDec(s).m.regs.f == SetFlags(s.regs.f, fl);
    DecByteFlags(x, s.cur.opcode);
    SetFlagsBits(s.regs.f, fl);
  }

  /** INC rr, whose opcodes all match 3 under mask 3, leaves F alone ... */
  lemma WideIncKeepsFlags(s: Machine)
    requires s.cur.inst.mode == AmR && Is16(s.cur.inst.reg1) && s.cur.inst.reg1 != RtAF
    requires s.cur.opcode & 3 == 3
    ensures StepInc(s).m.regs.f == s.regs.f
  {
    var rt := s.cur.inst.reg1;
    WriteKeepsF(s.regs, rt, ReadReg(s.regs, rt) + 1);
    SetFlagsKeepAll(s.regs.f);
  }

  /** ... and DEC rr, whose opcodes all match 0x0B under that mask, likewise. */
  lemma WideDecKeepsFlags(s: Machine)
    requires s.cur.inst.mode == AmR && Is16(s.cur.inst.reg1) && s.cur.inst.reg1 != RtAF
    requires s.cur.opcode & 0x0B == 0x0B
    ensures StepDec(s).m.regs.f == s.regs.f
  {
    var rt := s.cur.inst.reg1;
    WriteKeepsF(s.regs, rt, ReadReg(s.regs, rt) - 1);
    SetFlagsKeepAll(s.regs.f);
  }

  /** CP sets the flags SUB would set and writes nothing else. */
  lemma CpKeepsA(s: Machine)
    requires s.cur.inst.reg1 == RtA
    ensures StepCp(s).m.regs == s.regs.(f := StepSub(s).m.regs.f)
  {
    CpIsSubFlags(s.regs.a, s.cur.data);
  }

  /** BIT changes only F: neither the register nor memory is written, and Z is the complement of the bit. */
  lemma CbBitWritesNothing(s: Machine)
    requires CbClass(Lo(s.cur.data)) == 1
    ensures var op := Lo(s.cur.data);
            var o := StepCb(s);
            o.m == s.(regs := s.regs.(f := o.m.regs.f))
            && (ZeroFlag(o.m.regs.f) <==> !Bit(Read8(s, CbReg(op)), CbBit(op)))
            && CarryFlag(o.m.regs.f) == CarryFlag(s.regs.f)
  {
    var op := Lo(s.cur.data);
    CbBitTest(op, Read8(s, CbReg(op)), CarryFlag(s.regs.f));
  }

  /** RES and SET store the operand with exactly one bit changed ... */
  lemma CbResSetWrites(s: Machine)
    requires CbClass(Lo(s.cur.data)) >= 2
    ensures var op := Lo(s.cur.data);
            var rt := CbReg(op);
            Read8(StepCb(s).m, rt) == BitSet(Read8(s, rt), CbBit(op), CbClass(op) == 3)
  {
    var op := Lo(s.cur.data);
    var rt := CbReg(op);
    var w := BitSet(Read8(s, rt), CbBit(op), CbClass(op) == 3);
    CbResSetIsWrite(s);
    Read8AfterWrite8(s, rt, w);
  }

  /** ... and leave every flag as it was. */
  lemma CbResSetKeepsFlags(s: Machine)
    requires CbClass(Lo(s.cur.data)) >= 2
    ensures StepCb(s).m.regs.f == s.regs.f
  {
    var op := Lo(s.cur.data);
    var rt := CbReg(op);
    var w := BitSet(Read8(s, rt), CbBit(op), CbClass(op) == 3);
    CbResSetIsWrite(s);
    Write8KeepsF(s, rt, w);
  }

  /** RES and SET are one cpu_set_reg8 of the changed byte and nothing more. */
  lemma CbResSetIsWrite(s: Machine)
    requires CbClass(Lo(s.cur.data)) >= 2
    ensures var op := Lo(s.cur.data);
            var rt := CbReg(op);
            var s1 := Write8(s, rt, BitSet(Read8(s, rt), CbBit(op), CbClass(op) == 3));
            StepCb(s).m.regs == s1.regs && StepCb(s).m.mem == s1.mem
  {
    var op := Lo(s.cur.data);
    var rt := CbReg(op);
    var v := Read8(s, rt);
    var w := BitSet(v, CbBit(op), CbClass(op) == 3);
    CbResSet(op, v, CarryFlag(s.regs.f));
    SetFlagsKeepAll(Write8(s, rt, w).regs.f);
  }
}
