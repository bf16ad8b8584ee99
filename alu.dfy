/**
 * The flag register and the arithmetic of the SM83 instruction handlers, as
 * pure functions of the operands: what each handler computes before it stores
 * the result and calls cpu_set_flags with its four flag arguments.  The
 * lemmas state what the results mean (the carry out of a wider sum, the
 * borrow of a difference, the bit that was shifted out) and relate the
 * operations to each other.
 */
module Alu {
  import opened Common
  import opened Isa

  // ---------------------------------------------------------------------
  // The flag register

  /** An argument of cpu_set_flags: -1 keeps the bit, any other value stores it. */
  datatype FlagArg = Keep | Put(on: bool)

  /** The four arguments z, n, h, c of one cpu_set_flags call. */
  datatype FlagUpdate = Flags(z: FlagArg, n: FlagArg, h: FlagArg, c: FlagArg)

  /** A handler that does not call cpu_set_flags. */
  const NoChange := Flags(Keep, Keep, Keep, Keep)

  predicate ZeroFlag(f: u8) { Bit(f, 7) }
  predicate SubFlag(f: u8) { Bit(f, 6) }
  predicate HalfFlag(f: u8) { Bit(f, 5) }
  predicate CarryFlag(f: u8) { Bit(f, 4) }

  /** BIT_SET of the bit selected by mask, or nothing for Keep. */
  function ApplyFlag(x: u8, mask: u8, arg: FlagArg): u8
  {
    match arg
    case Keep => x
    case Put(on) => if on then x | mask else x & !mask
  }

  /**
   * cpu_set_flags: z, n, h and c go to bits 7, 6, 5 and 4 of F; Keep leaves
   * its bit alone, and the low nibble of F is never touched.
   */
  function SetFlags(f: u8, fl: FlagUpdate): u8
  {
    ApplyFlag(ApplyFlag(ApplyFlag(ApplyFlag(f, 0x80, fl.z), 0x40, fl.n), 0x20, fl.h), 0x10, fl.c)
  }

  /** Each flag of the result is the argument when one was given and the old flag otherwise. */
  lemma SetFlagsBits(f: u8, fl: FlagUpdate)
    ensures ZeroFlag(SetFlags(f, fl)) == (if fl.z.Put? then fl.z.on else ZeroFlag(f))
    ensures SubFlag(SetFlags(f, fl)) == (if fl.n.Put? then fl.n.on else SubFlag(f))
    ensures HalfFlag(SetFlags(f, fl)) == (if fl.h.Put? then fl.h.on else HalfFlag(f))
    ensures CarryFlag(SetFlags(f, fl)) == (if fl.c.Put? then fl.c.on else CarryFlag(f))
    ensures SetFlags(f, fl) & 0x0F == f & 0x0F
  {
    SetFlagsZ(f, fl);
    SetFlagsN(f, fl);
    SetFlagsH(f, fl);
    SetFlagsC(f, fl);
    SetFlagsLow(f, fl);
  }

  lemma SetFlagsZ(f: u8, fl: FlagUpdate)
    ensures ZeroFlag(SetFlags(f, fl)) == (if fl.z.Put? then fl.z.on else ZeroFlag(f))
  {
  }

  lemma SetFlagsN(f: u8, fl: FlagUpdate)
    ensures SubFlag(SetFlags(f, fl)) == (if fl.n.Put? then fl.n.on else SubFlag(f))
  {
  }

  lemma SetFlagsH(f: u8, fl: FlagUpdate)
    ensures HalfFlag(SetFlags(f, fl)) == (if fl.h.Put? then fl.h.on else HalfFlag(f))
  {
  }

  lemma SetFlagsC(f: u8, fl: FlagUpdate)
    ensures CarryFlag(SetFlags(f, fl)) == (if fl.c.Put? then fl.c.on else CarryFlag(f))
  {
  }

  /** The low nibble of F is never touched. */
  lemma SetFlagsLow(f: u8, fl: FlagUpdate)
    ensures SetFlags(f, fl) & 0x0F == f & 0x0F
  {
  }

  /** One argument of cpu_set_flags is one BIT_SET of bit n, or nothing for Keep. */
  lemma FlagBit(x: u8, n: u8, arg: FlagArg)
    requires 4 <= n < 8
    ensures ApplyFlag(x, 1 << n, arg) == if arg.Put? then BitSet(x, n, arg.on) else x
  {
  }

  /** A call with every argument -1 changes nothing. */
  lemma SetFlagsKeepAll(f: u8)
    ensures SetFlags(f, NoChange) == f
  {
  }

  /** check_cond: whether a branch with this condition is taken under flags f. */
  function CheckCond(cond: Cond, f: u8): (taken: bool)
    ensures cond == CondNone ==> taken
    ensures cond == CondZ ==> (taken <==> ZeroFlag(f))
    ensures cond == CondC ==> (taken <==> CarryFlag(f))
  {
    match cond
    case CondNone => true
    case CondC => CarryFlag(f)
    case CondNC => !CarryFlag(f)
    case CondZ => ZeroFlag(f)
    case CondNZ => !ZeroFlag(f)
  }

  /** Each negated condition is taken exactly when its positive form is not. */
  lemma CheckCondComplements(f: u8)
    ensures CheckCond(CondNZ, f) == !CheckCond(CondZ, f)
    ensures CheckCond(CondNC, f) == !CheckCond(CondC, f)
  {
  }

  /** The value a handler stores and the flag arguments it passes. */
  datatype Result8 = Result8(value: u8, flags: FlagUpdate)
  datatype Result16 = Result16(value: u16, flags: FlagUpdate)

  /** A flag as the number 0 or 1 (CPU_FLAG_C in an arithmetic expression). */
  function Bit01(b: bool): (x: u8)
    ensures x <= 1 && (x == 1 <==> b)
  {
    if b then 1 else 0
  }

  /** 0x100 when the flag argument stores 1: a carry or borrow weighted as bit 8. */
  function Carry8(arg: FlagArg): (w: u16)
    ensures w == 0 || w == 0x100
  {
    if arg == Put(true) then 0x100 else 0
  }

  // ---------------------------------------------------------------------
  // 8-bit arithmetic

  /**
   * proc_adc.  The source adds in int, so C is set whenever the operand alone
   * exceeds a byte; below that the 16-bit sum cannot wrap.
   */
  function Adc(a: u8, u: u16, cf: bool): (r: Result8)
    ensures r.flags.z == Put(r.value == 0) && r.flags.n == Put(false)
    ensures r.flags.h.Put? && r.flags.c.Put?
  {
    var c := Bit01(cf);
    var sum := a as u16 + u + c as u16;
    var v := Lo(sum);
    Result8(v, Flags(Put(v == 0), Put(false),
                     Put((a & 0xF) + (Lo(u) & 0xF) + c > 0xF),
                     Put(u > 0xFF || sum > 0xFF)))
  }

  /** With an 8-bit operand, the new C and A form the 9-bit sum A + u + carry. */
  lemma AdcSum(a: u8, u: u16, cf: bool)
    requires u < 0x100
    ensures a as u16 + u + Bit01(cf) as u16 == Carry8(Adc(a, u, cf).flags.c) | Adc(a, u, cf).value as u16
  {
    NineBits(a as u16 + u + Bit01(cf) as u16);
  }

  /** A sum below 0x200 is its carry bit and its low byte. */
  lemma NineBits(s: u16)
    requires s < 0x200
    ensures s == (if s > 0xFF then 0x100 else 0) | Lo(s) as u16
  {
  }

  /** A word below 0x100 is its low byte. */
  lemma ByteWord(u: u16)
    requires u < 0x100
    ensures Lo(u) as u16 == u && u & 0xF == (Lo(u) & 0xF) as u16
  {
  }

  /** H is the carry into bit 4: bit 4 of the sum differs from the operands' bit-4 parity. */
  lemma AdcHalfCarry(a: u8, u: u16, cf: bool)
    requires u < 0x100
    ensures Adc(a, u, cf).flags.h.on <==> ((a ^ Lo(u) ^ Adc(a, u, cf).value) & 0x10) != 0
  {
  }

  /** proc_sub on the value v of its register: Z from the 16-bit difference, N set. */
  function Sub(v: u16, u: u16): (r: Result16)
    ensures r.flags.z == Put(r.value == 0) && r.flags.n == Put(true)
    ensures r.flags.h.Put? && r.flags.c.Put?
  {
    var val := v - u;
    Result16(val, Flags(Put(val == 0), Put(true), Put((v & 0xF) < (u & 0xF)), Put(v < u)))
  }

  /**
   * For 8-bit operands the low byte of SUB's result plus the operand gives
   * back v, plus 0x100 exactly when C (the borrow) is set.
   */
  lemma SubBorrow(v: u16, u: u16)
    requires v < 0x100 && u < 0x100
    ensures (Sub(v, u).value & 0xFF) + u == v + Carry8(Sub(v, u).flags.c)
  {
  }

  /** H is the borrow out of bit 4. */
  lemma SubHalfBorrow(v: u16, u: u16)
    requires v < 0x100 && u < 0x100
    ensures Sub(v, u).flags.h.on <==> ((v ^ u ^ Sub(v, u).value) & 0x10) != 0
  {
  }

  /** proc_sbc: SUB of the operand and of the incoming carry; N is set. */
  function Sbc(v: u16, u: u16, cf: bool): (r: Result16)
    ensures r.flags.n == Put(true)
    ensures r.flags.z.Put? && r.flags.h.Put? && r.flags.c.Put?
  {
    var c := Bit01(cf);
    var val := Lo(u) + c;
    Result16(v - val as u16,
             Flags(Put(v == val as u16), Put(true),
                   Put((v & 0xF) < (u & 0xF) + c as u16),
                   Put(v < u || (cf && v == u))))
  }

  /** For 8-bit operands: result + operand + carry-in = v + 0x100 * borrow. */
  lemma SbcBorrow(v: u16, u: u16, cf: bool)
    requires v < 0x100 && u < 0x100
    ensures (Sbc(v, u, cf).value & 0xFF) + u + Bit01(cf) as u16 == v + Carry8(Sbc(v, u, cf).flags.c)
  {
  }

  /** For 8-bit operands Z tells whether the stored byte is zero. */
  lemma SbcZero(v: u16, u: u16, cf: bool)
    requires v < 0x100 && u < 0x100
    ensures Sbc(v, u, cf).flags.z.on <==> Sbc(v, u, cf).value & 0xFF == 0
  {
  }

  lemma SbcHalfBorrow(v: u16, u: u16, cf: bool)
    requires v < 0x100 && u < 0x100
    ensures Sbc(v, u, cf).flags.h.on <==> ((v ^ u ^ Sbc(v, u, cf).value) & 0x10) != 0
  {
  }

  /** v - w == v - u when w == u, stated so the solver need not re-derive it inside a larger term. */
  lemma SameDifference(v: u16, w: u16, u: u16)
    requires w == u
    ensures v - w == v - u
  {
  }

  /** SBC with the carry clear is SUB. */
  lemma SbcWithoutCarryIsSub(v: u16, u: u16)
    requires u < 0x100
    ensures Sbc(v, u, false) == Sub(v, u)
  {
    SbcWithoutCarryValue(v, u);
    SbcWithoutCarryZero(v, u);
  }

  lemma SbcWithoutCarryValue(v: u16, u: u16)
    requires u < 0x100
    ensures Sbc(v, u, false).value == Sub(v, u).value
  {
    ByteWord(u);
    SameDifference(v, (Lo(u) + Bit01(false)) as u16, u);
  }

  lemma SbcWithoutCarryZero(v: u16, u: u16)
    requires u < 0x100
    ensures Sbc(v, u, false).flags.z == Sub(v, u).flags.z
  {
    ByteWord(u);
  }

  /** proc_cp: the flags of A - u; A itself is not written. */
  function Cp(a: u8, u: u16): (fl: FlagUpdate)
    ensures fl.z == Put(a as u16 == u) && fl.n == Put(true)
    ensures fl.h.Put? && fl.c.Put?
  {
    Flags(Put(a as u16 == u), Put(true), Put((a & 0xF) as u16 < (u & 0xF)), Put((a as u16) < u))
  }

  /** CP passes exactly the flags SUB would pass. */
  lemma CpIsSubFlags(a: u8, u: u16)
    ensures Cp(a, u) == Sub(a as u16, u).flags
  {
  }

  /** proc_and: A & u, with H set and N, C clear. */
  function And(a: u8, u: u16): (r: Result8)
    ensures r.value & !a == 0 && r.value & !Lo(u) == 0 && (a & Lo(u)) & !r.value == 0
    ensures r.flags == Flags(Put(r.value == 0), Put(false), Put(true), Put(false))
  {
    var v := a & Lo(u);
    Result8(v, Flags(Put(v == 0), Put(false), Put(true), Put(false)))
  }

  /** proc_xor: A ^ (u & 0xFF), with N, H and C clear. */
  function Xor(a: u8, u: u16): (r: Result8)
    ensures r.value ^ Lo(u) == a
    ensures r.flags == Flags(Put(r.value == 0), Put(false), Put(false), Put(false))
  {
    var v := a ^ Lo(u);
    Result8(v, Flags(Put(v == 0), Put(false), Put(false), Put(false)))
  }

  /** proc_or: A | u, with N, H and C clear. */
  function Or(a: u8, u: u16): (r: Result8)
    ensures a & !r.value == 0 && Lo(u) & !r.value == 0 && r.value & !(a | Lo(u)) == 0
    ensures r.flags == Flags(Put(r.value == 0), Put(false), Put(false), Put(false))
  {
    var v := a | Lo(u);
    Result8(v, Flags(Put(v == 0), Put(false), Put(false), Put(false)))
  }

  /** XOR A with itself zeroes A and sets Z. */
  lemma XorSelfClears(a: u8)
    ensures Xor(a, a as u16).value == 0 && Xor(a, a as u16).flags.z == Put(true)
  {
  }

  // ---------------------------------------------------------------------
  // ADD in its three shapes, and LD HL,SP+e8

  /** proc_add for an 8-bit destination: Z from the low byte of the sum, N clear. */
  function AddByte(v: u16, u: u16): (r: Result16)
    ensures r.flags.z == Put(r.value & 0xFF == 0) && r.flags.n == Put(false)
    ensures r.flags.h.Put? && r.flags.c.Put?
  {
    var val := v + u;
    var h := (v & 0xF) + (u & 0xF) >= 0x10;
    var c := (v & 0xFF) + (u & 0xFF) >= 0x100;
    Result16(val, Flags(Put(val & 0xFF == 0), Put(false), Put(h), Put(c)))
  }

  /** With 8-bit operands the new C and the result's low byte form the 9-bit sum; H is the carry into bit 4. */
  lemma AddByteSum(v: u16, u: u16)
    requires v < 0x100 && u < 0x100
    ensures v + u == Carry8(AddByte(v, u).flags.c) | (AddByte(v, u).value & 0xFF)
    ensures AddByte(v, u).flags.h.on <==> ((v ^ u ^ AddByte(v, u).value) & 0x10) != 0
  {
  }

  /** proc_add for ADD HL,rr: Z is kept and N cleared. */
  function AddWord(v: u16, u: u16): (r: Result16)
    ensures r.flags.z == Keep && r.flags.n == Put(false)
    ensures r.flags.h.Put? && r.flags.c.Put?
  {
    var h := (v & 0xFFF) + (u & 0xFFF) >= 0x1000;
    var c := v as u32 + u as u32 >= 0x10000;
    Result16(v + u, Flags(Keep, Put(false), Put(h), Put(c)))
  }

  /** ADD HL,rr: the new C and HL form the 17-bit sum, and H is the carry out of bit 11. */
  lemma AddWordSum(v: u16, u: u16)
    ensures v as u32 + u as u32
            == (if AddWord(v, u).flags.c.on then 0x10000 else 0) | AddWord(v, u).value as u32
    ensures AddWord(v, u).flags.h.on <==> ((v ^ u ^ AddWord(v, u).value) & 0x1000) != 0
  {
  }

  /** proc_add for ADD SP,e8: the sign-extended low byte is added; Z and N are cleared. */
  function AddSp(v: u16, u: u16): (r: Result16)
    ensures r.value == v + SignExtend(Lo(u))
    ensures r.flags.z == Put(false) && r.flags.n == Put(false)
    ensures r.flags.h.Put? && r.flags.c.Put?
  {
    var h := (v & 0xF) + (u & 0xF) >= 0x10;
    var c := (v & 0xFF) + (u & 0xFF) >= 0x100;
    Result16(v + SignExtend(Lo(u)), Flags(Put(false), Put(false), Put(h), Put(c)))
  }

  /**
   * ADD SP,e8: although the operand is added sign-extended, H and C are the
   * carries out of bits 3 and 7 of that signed addition, which equal those of
   * the unsigned low bytes.
   */
  lemma AddSpCarries(v: u16, u: u16)
    ensures var r := AddSp(v, u);
      (r.flags.h.on <==> ((v ^ SignExtend(Lo(u)) ^ r.value) & 0x10) != 0)
      && (r.flags.c.on <==> ((v ^ SignExtend(Lo(u)) ^ r.value) & 0x100) != 0)
  {
  }

  /** proc_add on register r1 holding v: one of the three shapes above. */
  function Add(r1: Reg, v: u16, u: u16): (r: Result16)
    ensures r.flags.n == Put(false)
  {
    if r1 == RtSP then AddSp(v, u)
    else if Is16(r1) then AddWord(v, u)
    else AddByte(v, u)
  }

  /** ADC with the carry clear is ADD A. */
  lemma AdcWithoutCarryIsAdd(a: u8, u: u16)
    requires u < 0x100
    ensures Adc(a, u, false).value == Lo(Add(RtA, a as u16, u).value)
    ensures Adc(a, u, false).flags == Add(RtA, a as u16, u).flags
  {
    ByteWord(u);
    AdcWithoutCarryHalf(a, u);
    AdcWithoutCarryCarry(a, u);
  }

  lemma AdcWithoutCarryCarry(a: u8, u: u16)
    requires u < 0x100
    ensures Adc(a, u, false).flags.c == Add(RtA, a as u16, u).flags.c
  {
    ByteWord(u);
  }

  lemma AdcWithoutCarryHalf(a: u8, u: u16)
    requires u < 0x100
    ensures Adc(a, u, false).flags.h == Add(RtA, a as u16, u).flags.h
  {
    ByteWord(u);
  }

  /** The value and flag arguments of LD HL,SP+e8 (proc_ld in mode HL_SPR). */
  function SpOffset(sp: u16, u: u16): (r: Result16)
    ensures r.value == sp + SignExtend(Lo(u))
    ensures r.flags.z == Put(false) && r.flags.n == Put(false)
  {
    var h := (sp & 0xF) + (u & 0xF) >= 0x10;
    var c := (sp & 0xFF) + (u & 0xFF) >= 0x100;
    Result16(sp + SignExtend(Lo(u)), Flags(Put(false), Put(false), Put(h), Put(c)))
  }

  /** LD HL,SP+e8 computes exactly what ADD SP,e8 computes. */
  lemma SpOffsetIsAddSp(sp: u16, u: u16)
    ensures SpOffset(sp, u) == Add(RtSP, sp, u)
  {
  }

  // ---------------------------------------------------------------------
  // INC and DEC

  /**
   * The flag arguments of proc_inc for the value after the increment; opcodes
   * with both low bits set (the 16-bit forms) make no call.
   */
  function IncFlags(val: u16, opcode: u8): (fl: FlagUpdate)
    ensures opcode & 3 == 3 <==> fl == NoChange
    ensures fl.c == Keep
  {
    if opcode & 3 == 3 then NoChange
    else Flags(Put(val == 0), Put(false), Put(val & 0xF == 0), Keep)
  }

  /** The flag arguments of proc_dec; no call when opcode & 0x0B == 0x0B. */
  function DecFlags(val: u16, opcode: u8): (fl: FlagUpdate)
    ensures opcode & 0x0B == 0x0B <==> fl == NoChange
    ensures fl.c == Keep
  {
    if opcode & 0x0B == 0x0B then NoChange
    else Flags(Put(val == 0), Put(true), Put(val & 0xF == 0xF), Keep)
  }

  /** INC of a byte x: Z when it wraps to 0, H when the low nibble wraps, N clear, C kept. */
  lemma IncByteFlags(x: u8, opcode: u8)
    requires opcode & 3 != 3
    ensures IncFlags((x + 1) as u16, opcode) == Flags(Put(x == 0xFF), Put(false), Put(x & 0xF == 0xF), Keep)
  {
  }

  /**
   * DEC of a byte x.  The register form sees the stored byte; the (HL) form
   * sees the 16-bit difference, which wraps to 0xFFFF for x == 0: both give
   * Z when x was 1 and H when the low nibble borrows.
   */
  lemma DecByteFlags(x: u8, opcode: u8)
    requires opcode & 0x0B != 0x0B
    ensures DecFlags((x - 1) as u16, opcode) == DecFlags(x as u16 - 1, opcode)
    ensures DecFlags((x - 1) as u16, opcode) == Flags(Put(x == 1), Put(true), Put(x & 0xF == 0), Keep)
  {
  }

  // ---------------------------------------------------------------------
  // Rotates and shifts

  /** A byte after a shift or rotate, and the bit that went into C. */
  datatype Shifted = Shifted(value: u8, carry: bool)

  function Rlc(v: u8): (r: Shifted)
    ensures r.value == v.RotateLeft(1) && r.carry == Bit(v, 7)
  {
    var res := v << 1;
    if v & 0x80 != 0 then Shifted(res | 1, true) else Shifted(res, false)
  }

  function Rrc(v: u8): (r: Shifted)
    ensures r.value == v.RotateRight(1) && r.carry == Bit(v, 0)
  {
    Shifted((v >> 1) | (v << 7), v & 1 == 1)
  }

  /** RL: a rotation left through the carry; bit 7 goes to C, C to bit 0. */
  function Rl(v: u8, cin: bool): (r: Shifted)
    ensures Bit(r.value, 0) == cin && r.carry == Bit(v, 7)
    ensures forall i: u8 :: 0 < i < 8 ==> Bit(r.value, i) == Bit(v, i - 1)
  {
    Shifted((v << 1) | Bit01(cin), v & 0x80 != 0)
  }

  /** RR: a rotation right through the carry; bit 0 goes to C, C to bit 7. */
  function Rr(v: u8, cin: bool): (r: Shifted)
    ensures Bit(r.value, 7) == cin && r.carry == Bit(v, 0)
    ensures forall i: u8 :: i < 7 ==> Bit(r.value, i) == Bit(v, i + 1)
  {
    Shifted((v >> 1) | (Bit01(cin) << 7), v & 1 == 1)
  }

  function Sla(v: u8): (r: Shifted)
    ensures !Bit(r.value, 0) && r.carry == Bit(v, 7)
    ensures forall i: u8 :: 0 < i < 8 ==> Bit(r.value, i) == Bit(v, i - 1)
  {
    Shifted(v << 1, v & 0x80 != 0)
  }

  /** SRA: the signed shift of proc_cb, which keeps bit 7. */
  function Sra(v: u8): (r: Shifted)
    ensures Bit(r.value, 7) == Bit(v, 7) && r.carry == Bit(v, 0)
    ensures forall i: u8 :: i < 7 ==> Bit(r.value, i) == Bit(v, i + 1)
  {
    Shifted(if v & 0x80 != 0 then (v >> 1) | 0x80 else v >> 1, v & 1 == 1)
  }

  /** SRL: the unsigned shift, which clears bit 7. */
  function Srl(v: u8): (r: Shifted)
    ensures !Bit(r.value, 7) && r.carry == Bit(v, 0)
    ensures forall i: u8 :: i < 7 ==> Bit(r.value, i) == Bit(v, i + 1)
  {
    Shifted(v >> 1, v & 1 == 1)
  }

  /** SWAP exchanges the nibbles and always clears C. */
  function Swap(v: u8): (r: Shifted)
    ensures r.value & 0xF == v >> 4 && r.value >> 4 == v & 0xF
    ensures !r.carry
  {
    Shifted(((v & 0xF0) >> 4) | ((v & 0xF) << 4), false)
  }

  lemma SwapSwap(v: u8)
    ensures Swap(Swap(v).value).value == v
  {
  }

  lemma RrcUndoesRlc(v: u8)
    ensures Rrc(Rlc(v).value).value == v && Rlc(Rrc(v).value).value == v
  {
  }

  /** Rotating right through the carry undoes rotating left through it. */
  lemma RrUndoesRl(v: u8, cin: bool)
    ensures var s := Rl(v, cin); Rr(s.value, s.carry) == Shifted(v, cin)
  {
  }

  /** SRL after SLA clears only bit 7. */
  lemma SrlAfterSla(v: u8)
    ensures Srl(Sla(v).value).value == v & 0x7F
  {
  }

  /** The eight shift subtypes of CB class 0, chosen by bits 3-5 of the opcode. */
  function CbShift(sub: u8, v: u8, cin: bool): (r: Shifted)
    requires sub < 8
    ensures sub == 6 ==> !r.carry
  {
    match sub
    case 0 => Rlc(v)
    case 1 => Rrc(v)
    case 2 => Rl(v, cin)
    case 3 => Rr(v, cin)
    case 4 => Sla(v)
    case 5 => Sra(v)
    case 6 => Swap(v)
    case 7 => Srl(v)
  }

  /** The register field, the bit field and the class of a CB opcode. */
  function CbReg(op: u8): (r: Reg)
    ensures r != RtNone
  {
    DecodeReg(op & 7)
  }

  function CbBit(op: u8): (n: u8)
    ensures n < 8
  {
    (op >> 3) & 7
  }

  function CbClass(op: u8): (k: u8)
    ensures k < 4
  {
    (op >> 6) & 3
  }

  /** What a CB instruction writes back (None for BIT) and the flag arguments it passes. */
  datatype CbResult = CbResult(write: Option<u8>, flags: FlagUpdate)

  /**
   * proc_cb after the operand is read: BIT tests, RES clears and SET sets
   * bit CbBit(op); class 0 runs the shift subtype and sets Z from its result.
   * Only BIT leaves the operand unwritten, and RES and SET pass no flags.
   */
  function CbStep(op: u8, v: u8, cf: bool): (r: CbResult)
    ensures r.write == None <==> CbClass(op) == 1
    ensures r.flags == NoChange <==> CbClass(op) >= 2
  {
    var bit := CbBit(op);
    var mask: u8 := 1 << bit;
    match CbClass(op)
    case 1 => CbResult(None, Flags(Put(v & mask == 0), Put(false), Put(true), Keep))
    case 2 => CbResult(Some(v & !mask), NoChange)
    case 3 => CbResult(Some(v | mask), NoChange)
    case 0 =>
      var s := CbShift(bit, v, cf);
      CbResult(Some(s.value), Flags(Put(s.value == 0), Put(false), Put(false), Put(s.carry)))
  }

  /** BIT n: Z is the complement of bit n, N clear, H set, C kept. */
  lemma CbBitTest(op: u8, v: u8, cf: bool)
    requires CbClass(op) == 1
    ensures CbStep(op, v, cf).flags == Flags(Put(!Bit(v, CbBit(op))), Put(false), Put(true), Keep)
  {
  }

  /** RES n and SET n change exactly bit n. */
  lemma CbResSet(op: u8, v: u8, cf: bool)
    requires CbClass(op) >= 2
    ensures CbStep(op, v, cf).write == Some(BitSet(v, CbBit(op), CbClass(op) == 3))
  {
  }

  /** The shift class stores the subtype's result, Z from it and C from the bit shifted out. */
  lemma CbShiftFlags(op: u8, v: u8, cf: bool)
    requires CbClass(op) == 0
    ensures var s := CbShift(CbBit(op), v, cf);
      CbStep(op, v, cf) == CbResult(Some(s.value), Flags(Put(s.value == 0), Put(false), Put(false), Put(s.carry)))
  {
  }

  /** SET then RES of the same bit restores a byte that had the bit clear. */
  lemma ResUndoesSet(op: u8, v: u8, cf: bool)
    requires CbClass(op) == 3 && !Bit(v, CbBit(op))
    ensures CbStep(op - 0x40, CbStep(op, v, cf).write.value, cf).write == Some(v)
  {
  }

  // ---------------------------------------------------------------------
  // Rotates of A

  /** RLCA, RRCA, RLA and RRA: the CB rotations applied to A, with Z always cleared. */
  function Rlca(a: u8): (r: Result8)
    ensures r.value == Rlc(a).value
    ensures r.flags == Flags(Put(false), Put(false), Put(false), Put(Rlc(a).carry))
  {
    var c := (a >> 7) & 1;
    Result8((a << 1) | c, Flags(Put(false), Put(false), Put(false), Put(c == 1)))
  }

  function Rrca(a: u8): (r: Result8)
    ensures r.value == Rrc(a).value
    ensures r.flags == Flags(Put(false), Put(false), Put(false), Put(Rrc(a).carry))
  {
    var b := a & 1;
    Result8((a >> 1) | (b << 7), Flags(Put(false), Put(false), Put(false), Put(b == 1)))
  }

  function Rla(a: u8, cf: bool): (r: Result8)
    ensures r.value == Rl(a, cf).value
    ensures r.flags == Flags(Put(false), Put(false), Put(false), Put(Rl(a, cf).carry))
  {
    var c := (a >> 7) & 1;
    Result8((a << 1) | Bit01(cf), Flags(Put(false), Put(false), Put(false), Put(c == 1)))
  }

  function Rra(a: u8, cf: bool): (r: Result8)
    ensures r.value == Rr(a, cf).value
    ensures r.flags == Flags(Put(false), Put(false), Put(false), Put(Rr(a, cf).carry))
  {
    var newC := a & 1;
    Result8((a >> 1) | (Bit01(cf) << 7), Flags(Put(false), Put(false), Put(false), Put(newC == 1)))
  }

  /** RRA after RLA restores A and the carry. */
  lemma RraUndoesRla(a: u8, cf: bool)
    ensures var r := Rla(a, cf); var s := Rra(r.value, r.flags.c.on);
      s.value == a && s.flags.c == Put(cf)
  {
  }

  // ---------------------------------------------------------------------
  // DAA

  /**
   * The correction of proc_daa: 0x06 applies when h is set or, after an
   * addition, the low nibble exceeds 9; 0x60 applies when c is set or, after
   * an addition, a exceeds 0x99.  It is subtracted after a subtraction (n),
   * and the carry reports whether 0x60 applied.
   */
  function DaaAdjust(a: u8, n: bool, h: bool, c: bool): (r: Shifted)
    ensures r.carry <==> c || (!n && a > 0x99)
  {
    var u: u8 := if h || (!n && (a & 0xF) > 9) then 6 else 0;
    var fc := c || (!n && a > 0x99);
    var u' := if fc then u | 0x60 else u;
    Shifted(if n then a - u' else a + u', fc)
  }

  /** proc_daa: A is corrected, C reports the 0x60 correction, H is cleared and N kept. */
  function Daa(a: u8, n: bool, h: bool, c: bool): (r: Result8)
    ensures r.flags.n == Keep && r.flags.h == Put(false)
    ensures r.flags.z == Put(r.value == 0)
    ensures r.flags.c == Put(c || (!n && a > 0x99))
  {
    var d := DaaAdjust(a, n, h, c);
    Result8(d.value, Flags(Put(d.value == 0), Keep, Put(false), Put(d.carry)))
  }

  lemma DaaExample()
    ensures Daa(0x9A, false, false, false) == Result8(0x00, Flags(Put(true), Keep, Put(false), Put(true)))
  {
  }

  /** A byte whose two nibbles are decimal digits. */
  predicate IsBcd(x: u8) { x & 0xF <= 9 && x >> 4 <= 9 }

  /** Schoolbook decimal addition of two BCD bytes, digit by digit: the two digits and the carry out. */
  function BcdAdd(x: u8, y: u8): (r: Shifted)
    requires IsBcd(x) && IsBcd(y)
    ensures IsBcd(r.value)
  {
    var lo := (x & 0xF) + (y & 0xF);
    var c0 := lo > 9;
    var hi := (x >> 4) + (y >> 4) + Bit01(c0);
    var c1 := hi > 9;
    Shifted(((if c1 then hi - 10 else hi) << 4) | (if c0 then lo - 10 else lo), c1)
  }

  /** Schoolbook decimal subtraction of two BCD bytes: the two digits and the borrow out. */
  function BcdSub(x: u8, y: u8): (r: Shifted)
    requires IsBcd(x) && IsBcd(y)
    ensures IsBcd(r.value)
  {
    var b0 := (x & 0xF) < (y & 0xF);
    var lo := (x & 0xF) - (y & 0xF);
    var hi := (x >> 4) - (y >> 4) - Bit01(b0);
    var b1 := (x >> 4) < (y >> 4) + Bit01(b0);
    Shifted((((if b1 then hi + 10 else hi) & 0xF) << 4) | ((if b0 then lo + 10 else lo) & 0xF), b1)
  }

  // DAA after a binary addition, one lemma per combination of decimal carries.

  lemma DaaAddNoCarry(x: u8, y: u8)
    requires IsBcd(x) && IsBcd(y) && (x & 0xF) + (y & 0xF) <= 9 && (x >> 4) + (y >> 4) <= 9
    ensures DaaAdjust(x + y, false, (x & 0xF) + (y & 0xF) >= 0x10, x as u16 + y as u16 >= 0x100) == BcdAdd(x, y)
  {
  }

  lemma DaaAddHighCarry(x: u8, y: u8)
    requires IsBcd(x) && IsBcd(y) && (x & 0xF) + (y & 0xF) <= 9 && (x >> 4) + (y >> 4) > 9
    ensures DaaAdjust(x + y, false, (x & 0xF) + (y & 0xF) >= 0x10, x as u16 + y as u16 >= 0x100) == BcdAdd(x, y)
  {
  }

  lemma DaaAddLowCarry(x: u8, y: u8)
    requires IsBcd(x) && IsBcd(y) && (x & 0xF) + (y & 0xF) > 9 && (x >> 4) + (y >> 4) + 1 <= 9
    ensures DaaAdjust(x + y, false, (x & 0xF) + (y & 0xF) >= 0x10, x as u16 + y as u16 >= 0x100) == BcdAdd(x, y)
  {
  }

  lemma DaaAddBothCarries(x: u8, y: u8)
    requires IsBcd(x) && IsBcd(y) && (x & 0xF) + (y & 0xF) > 9 && (x >> 4) + (y >> 4) + 1 > 9
    ensures DaaAdjust(x + y, false, (x & 0xF) + (y & 0xF) >= 0x10, x as u16 + y as u16 >= 0x100) == BcdAdd(x, y)
  {
  }

  // DAA after a binary subtraction, one lemma per combination of decimal borrows.

  lemma DaaSubNoBorrow(x: u8, y: u8)
    requires IsBcd(x) && IsBcd(y) && (x & 0xF) >= (y & 0xF) && (x >> 4) >= (y >> 4)
    ensures DaaAdjust(x - y, true, (x & 0xF) < (y & 0xF), x < y) == BcdSub(x, y)
  {
  }

  lemma DaaSubHighBorrow(x: u8, y: u8)
    requires IsBcd(x) && IsBcd(y) && (x & 0xF) >= (y & 0xF) && (x >> 4) < (y >> 4)
    ensures DaaAdjust(x - y, true, (x & 0xF) < (y & 0xF), x < y) == BcdSub(x, y)
  {
  }

  lemma DaaSubLowBorrow(x: u8, y: u8)
    requires IsBcd(x) && IsBcd(y) && (x & 0xF) < (y & 0xF) && (x >> 4) >= (y >> 4) + 1
    ensures DaaAdjust(x - y, true, (x & 0xF) < (y & 0xF), x < y) == BcdSub(x, y)
  {
  }

  lemma DaaSubBothBorrows(x: u8, y: u8)
    requires IsBcd(x) && IsBcd(y) && (x & 0xF) < (y & 0xF) && (x >> 4) < (y >> 4) + 1
    ensures DaaAdjust(x - y, true, (x & 0xF) < (y & 0xF), x < y) == BcdSub(x, y)
  {
  }

  /** What ADD A,r leaves for DAA: the byte sum, N clear, and the nibble and byte carries. */
  lemma AddOfBcdOperands(x: u8, y: u8)
    ensures var s := Add(RtA, x as u16, y as u16);
      Lo(s.value) == x + y
      && s.flags.n == Put(false)
      && s.flags.h == Put((x & 0xF) + (y & 0xF) >= 0x10)
      && s.flags.c == Put(x as u16 + y as u16 >= 0x100)
  {
  }

  /** What SUB leaves for DAA: the byte difference, N set, and the nibble and byte borrows. */
  lemma SubOfBcdOperands(x: u8, y: u8)
    ensures var s := Sub(x as u16, y as u16);
      Lo(s.value) == x - y
      && s.flags.n == Put(true)
      && s.flags.h == Put((x & 0xF) < (y & 0xF))
      && s.flags.c == Put(x < y)
  {
  }

  /**
   * ADD A,r on two BCD bytes, then DAA on the flags it left in F: A holds
   * their decimal sum and C the decimal carry.
   */
  lemma DaaAfterAdd(x: u8, y: u8, f: u8)
    requires IsBcd(x) && IsBcd(y)
    ensures var s := Add(RtA, x as u16, y as u16);
            var f' := SetFlags(f, s.flags);
            Daa(Lo(s.value), SubFlag(f'), HalfFlag(f'), CarryFlag(f')).value == BcdAdd(x, y).value
            && Daa(Lo(s.value), SubFlag(f'), HalfFlag(f'), CarryFlag(f')).flags.c == Put(BcdAdd(x, y).carry)
  {
    AddOfBcdOperands(x, y);
    if (x & 0xF) + (y & 0xF) <= 9 {
      if (x >> 4) + (y >> 4) <= 9 { DaaAddNoCarry(x, y); } else { DaaAddHighCarry(x, y); }
    } else {
      if (x >> 4) + (y >> 4) + 1 <= 9 { DaaAddLowCarry(x, y); } else { DaaAddBothCarries(x, y); }
    }
  }

  /**
   * SUB of two BCD bytes, then DAA on the flags it left in F: A holds their
   * decimal difference and C the decimal borrow.
   */
  lemma DaaAfterSub(x: u8, y: u8, f: u8)
    requires IsBcd(x) && IsBcd(y)
    ensures var s := Sub(x as u16, y as u16);
            var f' := SetFlags(f, s.flags);
            Daa(Lo(s.value), SubFlag(f'), HalfFlag(f'), CarryFlag(f')).value == BcdSub(x, y).value
            && Daa(Lo(s.value), SubFlag(f'), HalfFlag(f'), CarryFlag(f')).flags.c == Put(BcdSub(x, y).carry)
  {
    SubOfBcdOperands(x, y);
    if (x & 0xF) >= (y & 0xF) {
      if (x >> 4) >= (y >> 4) { DaaSubNoBorrow(x, y); } else { DaaSubHighBorrow(x, y); }
    } else {
      if (x >> 4) >= (y >> 4) + 1 { DaaSubLowBorrow(x, y); } else { DaaSubBothBorrows(x, y); }
    }
  }

  // ---------------------------------------------------------------------
  // The flag instructions

  /** proc_cpl: A is complemented; N and H are set, Z and C kept. */
  function Cpl(a: u8): (r: Result8)
    ensures r.value ^ a == 0xFF
    ensures r.flags == Flags(Keep, Put(true), Put(true), Keep)
  {
    Result8(!a, Flags(Keep, Put(true), Put(true), Keep))
  }

  /** proc_scf: C set, N and H cleared, Z kept. */
  const Scf := Flags(Keep, Put(false), Put(false), Put(true))

  /** proc_ccf: C inverted, N and H cleared, Z kept. */
  function Ccf(cf: bool): (fl: FlagUpdate)
    ensures fl.c == Put(!cf)
    ensures fl.z == Keep && fl.n == Put(false) && fl.h == Put(false)
  {
    Flags(Keep, Put(false), Put(false), Put(!cf))
  }

  lemma CplCpl(a: u8)
    ensures Cpl(Cpl(a).value).value == a
  {
  }

  /** Two CCFs restore F except that N and H end up clear. */
  lemma CcfCcf(f: u8)
    ensures var f1 := SetFlags(f, Ccf(CarryFlag(f)));
            SetFlags(f1, Ccf(CarryFlag(f1))) == SetFlags(f, Flags(Keep, Put(false), Put(false), Keep))
  {
  }

  /** SCF and then CCF clear the carry, whatever it was. */
  lemma CcfAfterScf(f: u8)
    ensures var f1 := SetFlags(f, Scf); !CarryFlag(SetFlags(f1, Ccf(CarryFlag(f1))))
  {
  }
}
