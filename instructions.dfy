/**
 * The opcode table of the SM83 and its disassembler: the 256 entries
 * init_instructions fills in, the lookup by opcode, the mnemonic and register
 * names, and the text inst_to_str produces for one decoded instruction.
 */
module Instructions {
  import opened Common
  import opened Isa
  import CpuProc

  // ---------------------------------------------------------------------
  // The table as written

  /** An entry whose condition and parameter keep their zero defaults. */
  function I(k: InType, m: AddrMode, r1: Reg, r2: Reg): Instruction
  {
    Instruction(k, m, r1, r2, CondNone, 0)
  }

  /** An entry that names only its kind: implied operands, no registers. */
  function Op(k: InType): Instruction
  {
    I(k, AmImp, RtNone, RtNone)
  }

  /**
   * The entries init_instructions assigns after blanking the table, one per
   * assignment and with the same fields, grouped by the high nibble of the
   * opcode as the initialiser groups them; None for the opcodes it never
   * assigns.  Entry 0xFC is kept as written (CALL with AM_R_A16 and RT_C),
   * although that opcode does nothing on the hardware.
   */
  function Assigned(op: u8): Option<Instruction>
  {
    var lo := op & 0xF;
    match op >> 4
    case 0x0 => Row0(lo)
    case 0x1 => Row1(lo)
    case 0x2 => Row2(lo)
    case 0x3 => Row3(lo)
    case 0x4 => Row4(lo)
    case 0x5 => Row5(lo)
    case 0x6 => Row6(lo)
    case 0x7 => Row7(lo)
    case 0x8 => Row8(lo)
    case 0x9 => Row9(lo)
    case 0xA => RowA(lo)
    case 0xB => RowB(lo)
    case 0xC => RowC(lo)
    case 0xD => RowD(lo)
    case 0xE => RowE(lo)
    case 0xF => RowF(lo)
    case _ => None
  }

  /** Opcodes 0x00-0x0F, by their low nibble. */
  function Row0(lo: u8): Option<Instruction>
  {
    match lo
    case 0x0 => Some(Op(InNop))
    case 0x1 => Some(I(InLd, AmRD16, RtBC, RtNone))
    case 0x2 => Some(I(InLd, AmMrR, RtBC, RtA))
    case 0x3 => Some(I(InInc, AmR, RtBC, RtNone))
    case 0x4 => Some(I(InInc, AmR, RtB, RtNone))
    case 0x5 => Some(I(InDec, AmR, RtB, RtNone))
    case 0x6 => Some(I(InLd, AmRD8, RtB, RtNone))
    case 0x7 => Some(Op(InRlca))
    case 0x8 => Some(I(InLd, AmA16R, RtNone, RtSP))
    case 0x9 => Some(I(InAdd, AmRR, RtHL, RtBC))
    case 0xA => Some(I(InLd, AmRMr, RtA, RtBC))
    case 0xB => Some(I(InDec, AmR, RtBC, RtNone))
    case 0xC => Some(I(InInc, AmR, RtC, RtNone))
    case 0xD => Some(I(InDec, AmR, RtC, RtNone))
    case 0xE => Some(I(InLd, AmRD8, RtC, RtNone))
    case 0xF => Some(Op(InRrca))
    case _ => None
  }

  /** Opcodes 0x10-0x1F, by their low nibble. */
  function Row1(lo: u8): Option<Instruction>
  {
    match lo
    case 0x0 => Some(Op(InStop))
    case 0x1 => Some(I(InLd, AmRD16, RtDE, RtNone))
    case 0x2 => Some(I(InLd, AmMrR, RtDE, RtA))
    case 0x3 => Some(I(InInc, AmR, RtDE, RtNone))
    case 0x4 => Some(I(InInc, AmR, RtD, RtNone))
    case 0x5 => Some(I(InDec, AmR, RtD, RtNone))
    case 0x6 => Some(I(InLd, AmRD8, RtD, RtNone))
    case 0x7 => Some(Op(InRla))
    case 0x8 => Some(I(InJr, AmD8, RtNone, RtNone))
    case 0x9 => Some(I(InAdd, AmRR, RtHL, RtDE))
    case 0xA => Some(I(InLd, AmRMr, RtA, RtDE))
    case 0xB => Some(I(InDec, AmR, RtDE, RtNone))
    case 0xC => Some(I(InInc, AmR, RtE, RtNone))
    case 0xD => Some(I(InDec, AmR, RtE, RtNone))
    case 0xE => Some(I(InLd, AmRD8, RtE, RtNone))
    case 0xF => Some(Op(InRra))
    case _ => None
  }

  /** Opcodes 0x20-0x2F, by their low nibble. */
  function Row2(lo: u8): Option<Instruction>
  {
    match lo
    case 0x0 => Some(Instruction(InJr, AmD8, RtNone, RtNone, CondNZ, 0))
    case 0x1 => Some(I(InLd, AmRD16, RtHL, RtNone))
    case 0x2 => Some(I(InLd, AmHliR, RtHL, RtA))
    case 0x3 => Some(I(InInc, AmR, RtHL, RtNone))
    case 0x4 => Some(I(InInc, AmR, RtH, RtNone))
    case 0x5 => Some(I(InDec, AmR, RtH, RtNone))
    case 0x6 => Some(I(InLd, AmRD8, RtH, RtNone))
    case 0x7 => Some(Op(InDaa))
    case 0x8 => Some(Instruction(InJr, AmD8, RtNone, RtNone, CondZ, 0))
    case 0x9 => Some(I(InAdd, AmRR, RtHL, RtHL))
    case 0xA => Some(I(InLd, AmRHli, RtA, RtHL))
    case 0xB => Some(I(InDec, AmR, RtHL, RtNone))
    case 0xC => Some(I(InInc, AmR, RtL, RtNone))
    case 0xD => Some(I(InDec, AmR, RtL, RtNone))
    case 0xE => Some(I(InLd, AmRD8, RtL, RtNone))
    case 0xF => Some(Op(InCpl))
    case _ => None
  }

  /** Opcodes 0x30-0x3F, by their low nibble. */
  function Row3(lo: u8): Option<Instruction>
  {
    match lo
    case 0x0 => Some(Instruction(InJr, AmD8, RtNone, RtNone, CondNC, 0))
    case 0x1 => Some(I(InLd, AmRD16, RtSP, RtNone))
    case 0x2 => Some(I(InLd, AmHldR, RtHL, RtA))
    case 0x3 => Some(I(InInc, AmR, RtSP, RtNone))
    case 0x4 => Some(I(InInc, AmMr, RtHL, RtNone))
    case 0x5 => Some(I(InDec, AmMr, RtHL, RtNone))
    case 0x6 => Some(I(InLd, AmMrD8, RtHL, RtNone))
    case 0x7 => Some(Op(InScf))
    case 0x8 => Some(Instruction(InJr, AmD8, RtNone, RtNone, CondC, 0))
    case 0x9 => Some(I(InAdd, AmRR, RtHL, RtSP))
    case 0xA => Some(I(InLd, AmRHld, RtA, RtHL))
    case 0xB => Some(I(InDec, AmR, RtSP, RtNone))
    case 0xC => Some(I(InInc, AmR, RtA, RtNone))
    case 0xD => Some(I(InDec, AmR, RtA, RtNone))
    case 0xE => Some(I(InLd, AmRD8, RtA, RtNone))
    case 0xF => Some(Op(InCcf))
    case _ => None
  }

  /** Opcodes 0x40-0x4F, by their low nibble. */
  function Row4(lo: u8): Option<Instruction>
  {
    match lo
    case 0x0 => Some(I(InLd, AmRR, RtB, RtB))
    case 0x1 => Some(I(InLd, AmRR, RtB, RtC))
    case 0x2 => Some(I(InLd, AmRR, RtB, RtD))
    case 0x3 => Some(I(InLd, AmRR, RtB, RtE))
    case 0x4 => Some(I(InLd, AmRR, RtB, RtH))
    case 0x5 => Some(I(InLd, AmRR, RtB, RtL))
    case 0x6 => Some(I(InLd, AmRMr, RtB, RtHL))
    case 0x7 => Some(I(InLd, AmRR, RtB, RtA))
    case 0x8 => Some(I(InLd, AmRR, RtC, RtB))
    case 0x9 => Some(I(InLd, AmRR, RtC, RtC))
    case 0xA => Some(I(InLd, AmRR, RtC, RtD))
    case 0xB => Some(I(InLd, AmRR, RtC, RtE))
    case 0xC => Some(I(InLd, AmRR, RtC, RtH))
    case 0xD => Some(I(InLd, AmRR, RtC, RtL))
    case 0xE => Some(I(InLd, AmRMr, RtC, RtHL))
    case 0xF => Some(I(InLd, AmRR, RtC, RtA))
    case _ => None
  }

  /** Opcodes 0x50-0x5F, by their low nibble. */
  function Row5(lo: u8): Option<Instruction>
  {
    match lo
    case 0x0 => Some(I(InLd, AmRR, RtD, RtB))
    case 0x1 => Some(I(InLd, AmRR, RtD, RtC))
    case 0x2 => Some(I(InLd, AmRR, RtD, RtD))
    case 0x3 => Some(I(InLd, AmRR, RtD, RtE))
    case 0x4 => Some(I(InLd, AmRR, RtD, RtH))
    case 0x5 => Some(I(InLd, AmRR, RtD, RtL))
    case 0x6 => Some(I(InLd, AmRMr, RtD, RtHL))
    case 0x7 => Some(I(InLd, AmRR, RtD, RtA))
    case 0x8 => Some(I(InLd, AmRR, RtE, RtB))
    case 0x9 => Some(I(InLd, AmRR, RtE, RtC))
    case 0xA => Some(I(InLd, AmRR, RtE, RtD))
    case 0xB => Some(I(InLd, AmRR, RtE, RtE))
    case 0xC => Some(I(InLd, AmRR, RtE, RtH))
    case 0xD => Some(I(InLd, AmRR, RtE, RtL))
    case 0xE => Some(I(InLd, AmRMr, RtE, RtHL))
    case 0xF => Some(I(InLd, AmRR, RtE, RtA))
    case _ => None
  }

  /** Opcodes 0x60-0x6F, by their low nibble. */
  function Row6(lo: u8): Option<Instruction>
  {
    match lo
    case 0x0 => Some(I(InLd, AmRR, RtH, RtB))
    case 0x1 => Some(I(InLd, AmRR, RtH, RtC))
    case 0x2 => Some(I(InLd, AmRR, RtH, RtD))
    case 0x3 => Some(I(InLd, AmRR, RtH, RtE))
    case 0x4 => Some(I(InLd, AmRR, RtH, RtH))
    case 0x5 => Some(I(InLd, AmRR, RtH, RtL))
    case 0x6 => Some(I(InLd, AmRMr, RtH, RtHL))
    case 0x7 => Some(I(InLd, AmRR, RtH, RtA))
    case 0x8 => Some(I(InLd, AmRR, RtL, RtB))
    case 0x9 => Some(I(InLd, AmRR, RtL, RtC))
    case 0xA => Some(I(InLd, AmRR, RtL, RtD))
    case 0xB => Some(I(InLd, AmRR, RtL, RtE))
    case 0xC => Some(I(InLd, AmRR, RtL, RtH))
    case 0xD => Some(I(InLd, AmRR, RtL, RtL))
    case 0xE => Some(I(InLd, AmRMr, RtL, RtHL))
    case 0xF => Some(I(InLd, AmRR, RtL, RtA))
    case _ => None
  }

  /** Opcodes 0x70-0x7F, by their low nibble. */
  function Row7(lo: u8): Option<Instruction>
  {
    match lo
    case 0x0 => Some(I(InLd, AmMrR, RtHL, RtB))
    case 0x1 => Some(I(InLd, AmMrR, RtHL, RtC))
    case 0x2 => Some(I(InLd, AmMrR, RtHL, RtD))
    case 0x3 => Some(I(InLd, AmMrR, RtHL, RtE))
    case 0x4 => Some(I(InLd, AmMrR, RtHL, RtH))
    case 0x5 => Some(I(InLd, AmMrR, RtHL, RtL))
    case 0x6 => Some(Op(InHalt))
    case 0x7 => Some(I(InLd, AmMrR, RtHL, RtA))
    case 0x8 => Some(I(InLd, AmRR, RtA, RtB))
    case 0x9 => Some(I(InLd, AmRR, RtA, RtC))
    case 0xA => Some(I(InLd, AmRR, RtA, RtD))
    case 0xB => Some(I(InLd, AmRR, RtA, RtE))
    case 0xC => Some(I(InLd, AmRR, RtA, RtH))
    case 0xD => Some(I(InLd, AmRR, RtA, RtL))
    case 0xE => Some(I(InLd, AmRMr, RtA, RtHL))
    case 0xF => Some(I(InLd, AmRR, RtA, RtA))
    case _ => None
  }

  /** Opcodes 0x80-0x8F, by their low nibble. */
  function Row8(lo: u8): Option<Instruction>
  {
    match lo
    case 0x0 => Some(I(InAdd, AmRR, RtA, RtB))
    case 0x1 => Some(I(InAdd, AmRR, RtA, RtC))
    case 0x2 => Some(I(InAdd, AmRR, RtA, RtD))
    case 0x3 => Some(I(InAdd, AmRR, RtA, RtE))
    case 0x4 => Some(I(InAdd, AmRR, RtA, RtH))
    case 0x5 => Some(I(InAdd, AmRR, RtA, RtL))
    case 0x6 => Some(I(InAdd, AmRMr, RtA, RtHL))
    case 0x7 => Some(I(InAdd, AmRR, RtA, RtA))
    case 0x8 => Some(I(InAdc, AmRR, RtA, RtB))
    case 0x9 => Some(I(InAdc, AmRR, RtA, RtC))
    case 0xA => Some(I(InAdc, AmRR, RtA, RtD))
    case 0xB => Some(I(InAdc, AmRR, RtA, RtE))
    case 0xC => Some(I(InAdc, AmRR, RtA, RtH))
    case 0xD => Some(I(InAdc, AmRR, RtA, RtL))
    case 0xE => Some(I(InAdc, AmRMr, RtA, RtHL))
    case 0xF => Some(I(InAdc, AmRR, RtA, RtA))
    case _ => None
  }

  /** Opcodes 0x90-0x9F, by their low nibble. */
  function Row9(lo: u8): Option<Instruction>
  {
    match lo
    case 0x0 => Some(I(InSub, AmRR, RtA, RtB))
    case 0x1 => Some(I(InSub, AmRR, RtA, RtC))
    case 0x2 => Some(I(InSub, AmRR, RtA, RtD))
    case 0x3 => Some(I(InSub, AmRR, RtA, RtE))
    case 0x4 => Some(I(InSub, AmRR, RtA, RtH))
    case 0x5 => Some(I(InSub, AmRR, RtA, RtL))
    case 0x6 => Some(I(InSub, AmRMr, RtA, RtHL))
    case 0x7 => Some(I(InSub, AmRR, RtA, RtA))
    case 0x8 => Some(I(InSbc, AmRR, RtA, RtB))
    case 0x9 => Some(I(InSbc, AmRR, RtA, RtC))
    case 0xA => Some(I(InSbc, AmRR, RtA, RtD))
    case 0xB => Some(I(InSbc, AmRR, RtA, RtE))
    case 0xC => Some(I(InSbc, AmRR, RtA, RtH))
    case 0xD => Some(I(InSbc, AmRR, RtA, RtL))
    case 0xE => Some(I(InSbc, AmRMr, RtA, RtHL))
    case 0xF => Some(I(InSbc, AmRR, RtA, RtA))
    case _ => None
  }

  /** Opcodes 0xA0-0xAF, by their low nibble. */
  function RowA(lo: u8): Option<Instruction>
  {
    match lo
    case 0x0 => Some(I(InAnd, AmRR, RtA, RtB))
    case 0x1 => Some(I(InAnd, AmRR, RtA, RtC))
    case 0x2 => Some(I(InAnd, AmRR, RtA, RtD))
    case 0x3 => Some(I(InAnd, AmRR, RtA, RtE))
    case 0x4 => Some(I(InAnd, AmRR, RtA, RtH))
    case 0x5 => Some(I(InAnd, AmRR, RtA, RtL))
    case 0x6 => Some(I(InAnd, AmRMr, RtA, RtHL))
    case 0x7 => Some(I(InAnd, AmRR, RtA, RtA))
    case 0x8 => Some(I(InXor, AmRR, RtA, RtB))
    case 0x9 => Some(I(InXor, AmRR, RtA, RtC))
    case 0xA => Some(I(InXor, AmRR, RtA, RtD))
    case 0xB => Some(I(InXor, AmRR, RtA, RtE))
    case 0xC => Some(I(InXor, AmRR, RtA, RtH))
    case 0xD => Some(I(InXor, AmRR, RtA, RtL))
    case 0xE => Some(I(InXor, AmRMr, RtA, RtHL))
    case 0xF => Some(I(InXor, AmRR, RtA, RtA))
    case _ => None
  }

  /** Opcodes 0xB0-0xBF, by their low nibble. */
  function RowB(lo: u8): Option<Instruction>
  {
    match lo
    case 0x0 => Some(I(InOr, AmRR, RtA, RtB))
    case 0x1 => Some(I(InOr, AmRR, RtA, RtC))
    case 0x2 => Some(I(InOr, AmRR, RtA, RtD))
    case 0x3 => Some(I(InOr, AmRR, RtA, RtE))
    case 0x4 => Some(I(InOr, AmRR, RtA, RtH))
    case 0x5 => Some(I(InOr, AmRR, RtA, RtL))
    case 0x6 => Some(I(InOr, AmRMr, RtA, RtHL))
    case 0x7 => Some(I(InOr, AmRR, RtA, RtA))
    case 0x8 => Some(I(InCp, AmRR, RtA, RtB))
    case 0x9 => Some(I(InCp, AmRR, RtA, RtC))
    case 0xA => Some(I(InCp, AmRR, RtA, RtD))
    case 0xB => Some(I(InCp, AmRR, RtA, RtE))
    case 0xC => Some(I(InCp, AmRR, RtA, RtH))
    case 0xD => Some(I(InCp, AmRR, RtA, RtL))
    case 0xE => Some(I(InCp, AmRMr, RtA, RtHL))
    case 0xF => Some(I(InCp, AmRR, RtA, RtA))
    case _ => None
  }

  /** Opcodes 0xC0-0xCF, by their low nibble. */
  function RowC(lo: u8): Option<Instruction>
  {
    match lo
    case 0x0 => Some(Instruction(InRet, AmImp, RtNone, RtNone, CondNZ, 0))
    case 0x1 => Some(I(InPop, AmR, RtBC, RtNone))
    case 0x2 => Some(Instruction(InJp, AmD16, RtNone, RtNone, CondNZ, 0))
    case 0x3 => Some(I(InJp, AmD16, RtNone, RtNone))
    case 0x4 => Some(Instruction(InCall, AmD16, RtNone, RtNone, CondNZ, 0))
    case 0x5 => Some(I(InPush, AmR, RtBC, RtNone))
    case 0x6 => Some(I(InAdd, AmRD8, RtA, RtNone))
    case 0x7 => Some(Instruction(InRst, AmImp, RtNone, RtNone, CondNone, 0x00))
    case 0x8 => Some(Instruction(InRet, AmImp, RtNone, RtNone, CondZ, 0))
    case 0x9 => Some(Op(InRet))
    case 0xA => Some(Instruction(InJp, AmD16, RtNone, RtNone, CondZ, 0))
    case 0xB => Some(I(InCb, AmD8, RtNone, RtNone))
    case 0xC => Some(Instruction(InCall, AmD16, RtNone, RtNone, CondZ, 0))
    case 0xD => Some(I(InCall, AmD16, RtNone, RtNone))
    case 0xE => Some(I(InAdc, AmRD8, RtA, RtNone))
    case 0xF => Some(Instruction(InRst, AmImp, RtNone, RtNone, CondNone, 0x08))
    case _ => None
  }

  /** Opcodes 0xD0-0xDF, by their low nibble. */
  function RowD(lo: u8): Option<Instruction>
  {
    match lo
    case 0x0 => Some(Instruction(InRet, AmImp, RtNone, RtNone, CondNC, 0))
    case 0x1 => Some(I(InPop, AmR, RtDE, RtNone))
    case 0x2 => Some(Instruction(InJp, AmD16, RtNone, RtNone, CondNC, 0))
    case 0x4 => Some(Instruction(InCall, AmD16, RtNone, RtNone, CondNC, 0))
    case 0x5 => Some(I(InPush, AmR, RtDE, RtNone))
    case 0x6 => Some(I(InSub, AmRD8, RtA, RtNone))
    case 0x7 => Some(Instruction(InRst, AmImp, RtNone, RtNone, CondNone, 0x10))
    case 0x8 => Some(Instruction(InRet, AmImp, RtNone, RtNone, CondC, 0))
    case 0x9 => Some(Op(InReti))
    case 0xA => Some(Instruction(InJp, AmD16, RtNone, RtNone, CondC, 0))
    case 0xC => Some(Instruction(InCall, AmD16, RtNone, RtNone, CondC, 0))
    case 0xE => Some(I(InSbc, AmRD8, RtA, RtNone))
    case 0xF => Some(Instruction(InRst, AmImp, RtNone, RtNone, CondNone, 0x18))
    case _ => None
  }

  /** Opcodes 0xE0-0xEF, by their low nibble. */
  function RowE(lo: u8): Option<Instruction>
  {
    match lo
    case 0x0 => Some(I(InLdh, AmA8R, RtNone, RtA))
    case 0x1 => Some(I(InPop, AmR, RtHL, RtNone))
    case 0x2 => Some(I(InLd, AmMrR, RtC, RtA))
    case 0x5 => Some(I(InPush, AmR, RtHL, RtNone))
    case 0x6 => Some(I(InAnd, AmRD8, RtA, RtNone))
    case 0x7 => Some(Instruction(InRst, AmImp, RtNone, RtNone, CondNone, 0x20))
    case 0x8 => Some(I(InAdd, AmRD8, RtSP, RtNone))
    case 0x9 => Some(I(InJp, AmR, RtHL, RtNone))
    case 0xA => Some(I(InLd, AmA16R, RtNone, RtA))
    case 0xE => Some(I(InXor, AmRD8, RtA, RtNone))
    case 0xF => Some(Instruction(InRst, AmImp, RtNone, RtNone, CondNone, 0x28))
    case _ => None
  }

  /** Opcodes 0xF0-0xFF, by their low nibble. */
  function RowF(lo: u8): Option<Instruction>
  {
    match lo
    case 0x0 => Some(I(InLdh, AmRA8, RtA, RtNone))
    case 0x1 => Some(I(InPop, AmR, RtAF, RtNone))
    case 0x2 => Some(I(InLd, AmRMr, RtA, RtC))
    case 0x3 => Some(Op(InDi))
    case 0x5 => Some(I(InPush, AmR, RtAF, RtNone))
    case 0x6 => Some(I(InOr, AmRD8, RtA, RtNone))
    case 0x7 => Some(Instruction(InRst, AmImp, RtNone, RtNone, CondNone, 0x30))
    case 0x8 => Some(I(InLd, AmHlSpr, RtHL, RtSP))
    case 0x9 => Some(I(InLd, AmRR, RtSP, RtHL))
    case 0xA => Some(I(InLd, AmRA16, RtA, RtNone))
    case 0xB => Some(Op(InEi))
    case 0xC => Some(I(InCall, AmRA16, RtC, RtNone))
    case 0xE => Some(I(InCp, AmRD8, RtA, RtNone))
    case 0xF => Some(Instruction(InRst, AmImp, RtNone, RtNone, CondNone, 0x38))
    case _ => None
  }

  /** What slot `op` holds once init_instructions has run. */
  function Entry(op: u8): Instruction
  {
    match Assigned(op)
    case Some(e) => e
    case None => Blank
  }

  /** The static `instructions` array: 256 slots indexed by opcode. */
  class OpcodeTable {
    const entries: array<Instruction>

    /** Static storage before init_instructions: all zero, which is the blank entry. */
    constructor ()
      ensures entries.Length == 256 && fresh(entries)
      ensures forall i :: 0 <= i < 256 ==> entries[i] == Blank
    {
      entries := new Instruction[256](_ => Blank);
    }

    /** Every slot holds the entry init_instructions gives its opcode. */
    ghost predicate Ready()
      reads this, entries
    {
      entries.Length == 256 && forall i :: 0 <= i < 256 ==> entries[i] == Entry(i as u8)
    }

    /**
     * init_instructions: blank every slot, then assign the entries of the
     * table; the opcodes never assigned stay blank.
     */
    method Init()
      requires entries.Length == 256
      modifies entries
      ensures Ready()
    {
      var i := 0;
      while i < 256
        invariant 0 <= i <= 256
        invariant forall j :: 0 <= j < i ==> entries[j] == Blank
      {
        entries[i] := Blank;
        i := i + 1;
      }
      i := 0;
      while i < 256
        invariant 0 <= i <= 256
        invariant forall j :: 0 <= j < i ==> entries[j] == Entry(j as u8)
        invariant forall j :: i <= j < 256 ==> entries[j] == Blank
      {
        var slot := Assigned(i as u8);
        if slot.Some? {
          entries[i] := slot.value;
        }
        assert entries[i] == Entry(i as u8);
        i := i + 1;
      }
    }

    /** instruction_by_opcode: defined for every byte, the slot's initialised entry. */
    function ByOpcode(op: u8): (e: Instruction)
      reads this, entries
      requires Ready()
      ensures e == Entry(op)
    {
      entries[op as int]
    }
  }

  // ---------------------------------------------------------------------
  // What the table promises

  /** The opcodes init_instructions never assigns. */
  predicate IsHole(op: u8)
  {
    op == 0xD3 || op == 0xDB || op == 0xDD || op == 0xE3 || op == 0xE4
    || op == 0xEB || op == 0xEC || op == 0xED || op == 0xF4 || op == 0xFD
  }

  /** The ten holes keep the blank entry, which dispatches to proc_none. */
  lemma HolesAreBlank(op: u8)
    requires IsHole(op)
    ensures Entry(op) == Blank
  {
  }

  /** Fetching a hole and dispatching it reaches proc_none, which ends the emulator. */
  lemma HolesAreFatal(op: u8, s: CpuProc.Machine)
    requires IsHole(op) && s.cur.inst == Entry(op)
    ensures CpuProc.Dispatch(s).None?
  {
    HolesAreBlank(op);
    CpuProc.DispatchFails(s);
  }

  /** Below 0xD0 every opcode is assigned an entry of a real kind. */
  lemma LowRowsAssigned(op: u8)
    requires op < 0xD0
    ensures Entry(op).kind != InNone
  {
  }

  /** From 0xD0 on, only the holes keep kind IN_NONE. */
  lemma HighRowsAssigned(op: u8)
    requires 0xD0 <= op && !IsHole(op)
    ensures Entry(op).kind != InNone
  {
  }

  /** Exactly the ten holes have kind IN_NONE. */
  lemma Holes(op: u8)
    ensures Entry(op).kind == InNone <==> IsHole(op)
  {
    if IsHole(op) {
      HolesAreBlank(op);
    } else if op < 0xD0 {
      LowRowsAssigned(op);
    } else {
      HighRowsAssigned(op);
    }
  }

  /** 0x40-0x7F, HALT aside, are all unconditional LDs. */
  lemma LoadBlock(op: u8)
    requires 0x40 <= op < 0x80 && op != 0x76
    ensures Entry(op).kind == InLd && Entry(op).cond == CondNone && Entry(op).param == 0
  {
  }

  /**
   * The LDs of 0x40-0x7F copy the register in bits 0-2 into the register in
   * bits 3-5, through memory when either of them is (HL).
   */
  lemma LoadOperands(op: u8)
    requires 0x40 <= op < 0x80 && op != 0x76
    ensures Entry(op).reg1 == DecodeReg((op >> 3) & 7)
    ensures Entry(op).reg2 == DecodeReg(op & 7)
    ensures Entry(op).mode == if (op >> 3) & 7 == 6 then AmMrR else if op & 7 == 6 then AmRMr else AmRR
  {
  }

  /** The one exception in that block: 0x76 is HALT. */
  lemma LoadBlockHalt()
    ensures Entry(0x76) == Op(InHalt)
  {
  }

  /** The operation bits 3-5 select in 0x80-0xBF: ADD, ADC, SUB, SBC, AND, XOR, OR, CP. */
  function AluKind(k: u8): InType
  {
    match k
    case 0 => InAdd
    case 1 => InAdc
    case 2 => InSub
    case 3 => InSbc
    case 4 => InAnd
    case 5 => InXor
    case 6 => InOr
    case _ => InCp
  }

  /** 0x80-0xBF: the operation in bits 3-5, unconditional. */
  lemma AluBlock(op: u8)
    requires 0x80 <= op < 0xC0
    ensures Entry(op).kind == AluKind((op >> 3) & 7)
    ensures Entry(op).cond == CondNone && Entry(op).param == 0
  {
  }

  /**
   * The operations of 0x80-0xBF combine A with the register in bits 0-2,
   * through memory when that register is (HL).
   */
  lemma AluOperands(op: u8)
    requires 0x80 <= op < 0xC0
    ensures Entry(op).reg1 == RtA && Entry(op).reg2 == DecodeReg(op & 7)
    ensures Entry(op).mode == if op & 7 == 6 then AmRMr else AmRR
  {
  }

  /** The condition the k-th form of a conditional branch tests: NZ, Z, NC, C. */
  function CondOf(k: u8): Cond
  {
    match k
    case 0 => CondNZ
    case 1 => CondZ
    case 2 => CondNC
    case _ => CondC
  }

  /** JR cc at 0x20 + 8k and JP cc at 0xC2 + 8k test NZ, Z, NC, C in turn. */
  lemma ConditionalJumps(k: u8)
    requires k < 4
    ensures Entry(0x20 + 8 * k) == Instruction(InJr, AmD8, RtNone, RtNone, CondOf(k), 0)
    ensures Entry(0xC2 + 8 * k) == Instruction(InJp, AmD16, RtNone, RtNone, CondOf(k), 0)
  {
  }

  /** RET cc at 0xC0 + 8k and CALL cc at 0xC4 + 8k test NZ, Z, NC, C in turn. */
  lemma ConditionalCalls(k: u8)
    requires k < 4
    ensures Entry(0xC0 + 8 * k) == Instruction(InRet, AmImp, RtNone, RtNone, CondOf(k), 0)
    ensures Entry(0xC4 + 8 * k) == Instruction(InCall, AmD16, RtNone, RtNone, CondOf(k), 0)
  {
  }

  /** The unconditional JR, RET, JP and CALL carry no condition. */
  lemma UnconditionalBranches()
    ensures Entry(0x18) == Instruction(InJr, AmD8, RtNone, RtNone, CondNone, 0)
    ensures Entry(0xC9) == Instruction(InRet, AmImp, RtNone, RtNone, CondNone, 0)
    ensures Entry(0xC3) == Instruction(InJp, AmD16, RtNone, RtNone, CondNone, 0)
    ensures Entry(0xCD) == Instruction(InCall, AmD16, RtNone, RtNone, CondNone, 0)
  {
  }

  /** RST at 0xC7 + 8k restarts at address 8k. */
  lemma RestartVectors(k: u8)
    requires k < 8
    ensures Entry(0xC7 + 8 * k) == Instruction(InRst, AmImp, RtNone, RtNone, CondNone, 8 * k)
  {
  }

  /** INC and DEC entries occur only in the first quarter of the table. */
  lemma IncDecInFirstQuarter(op: u8)
    requires Entry(op).kind == InInc || Entry(op).kind == InDec
    ensures op < 0x40
  {
    if 0x40 <= op < 0x80 {
      MiddleRowsNotIncDec(op);
    } else if 0x80 <= op {
      HighHalfNotIncDec(op);
    }
  }

  lemma MiddleRowsNotIncDec(op: u8)
    requires 0x40 <= op < 0x80
    ensures Entry(op).kind != InInc && Entry(op).kind != InDec
  {
  }

  lemma HighHalfNotIncDec(op: u8)
    requires 0x80 <= op
    ensures Entry(op).kind != InInc && Entry(op).kind != InDec
  {
  }

  /**
   * Among the register forms of INC, the opcodes proc_inc recognises by
   * `op & 0x03 == 0x03` are exactly those of a 16-bit register; the memory
   * form INC (HL) has a 16-bit reg_1 but fails the test, and proc_inc tells
   * it apart by its addressing mode first.
   */
  lemma IncMask(op: u8)
    requires Entry(op).kind == InInc
    ensures Entry(op).mode == AmR ==> (op & 3 == 3 <==> Is16(Entry(op).reg1))
    ensures Entry(op).mode != AmR ==> op == 0x34 && Entry(op).mode == AmMr && Entry(op).reg1 == RtHL
  {
    IncDecInFirstQuarter(op);
  }

  /** The same for DEC and the test `op & 0x0B == 0x0B` of proc_dec. */
  lemma DecMask(op: u8)
    requires Entry(op).kind == InDec
    ensures Entry(op).mode == AmR ==> (op & 0x0B == 0x0B <==> Is16(Entry(op).reg1))
    ensures Entry(op).mode != AmR ==> op == 0x35 && Entry(op).mode == AmMr && Entry(op).reg1 == RtHL
  {
    IncDecInFirstQuarter(op);
  }

  // ---------------------------------------------------------------------
  // Names

  /** The kinds inst_lookup spells with an "IN_" prefix: IN_ERR and the CB sub-kinds. */
  predicate SpelledWithPrefix(t: InType)
  {
    t.InErr? || t.InRlc? || t.InRrc? || t.InRl? || t.InRr? || t.InSla? || t.InSra?
    || t.InSwap? || t.InSrl? || t.InBit? || t.InRes? || t.InSet?
  }

  /** instruction_name: the mnemonic inst_lookup stores for a kind. */
  function InstructionName(t: InType): (name: string)
    ensures |name| >= 2
  {
    match t
    case InNone => "<NONE>"
    case InNop => "NOP"
    case InLd => "LD"
    case InInc => "INC"
    case InDec => "DEC"
    case InRlca => "RLCA"
    case InAdd => "ADD"
    case InRrca => "RRCA"
    case InStop => "STOP"
    case InRla => "RLA"
    case InJr => "JR"
    case InRra => "RRA"
    case InDaa => "DAA"
    case InCpl => "CPL"
    case InScf => "SCF"
    case InCcf => "CCF"
    case InHalt => "HALT"
    case InAdc => "ADC"
    case InSub => "SUB"
    case InSbc => "SBC"
    case InAnd => "AND"
    case InXor => "XOR"
    case InOr => "OR"
    case InCp => "CP"
    case InPop => "POP"
    case InJp => "JP"
    case InPush => "PUSH"
    case InRet => "RET"
    case InCb => "CB"
    case InCall => "CALL"
    case InReti => "RETI"
    case InLdh => "LDH"
    case InJpHl => "JPHL"
    case InDi => "DI"
    case InEi => "EI"
    case InRst => "RST"
    case InErr => "IN_ERR"
    case InRlc => "IN_RLC"
    case InRrc => "IN_RRC"
    case InRl => "IN_RL"
    case InRr => "IN_RR"
    case InSla => "IN_SLA"
    case InSra => "IN_SRA"
    case InSwap => "IN_SWAP"
    case InSrl => "IN_SRL"
    case InBit => "IN_BIT"
    case InRes => "IN_RES"
    case InSet => "IN_SET"
  }

  /**
   * IN_ERR and the CB sub-kinds keep their enumerator spelling ("IN_RLC"),
   * and no other mnemonic has an underscore after two letters.
   */
  lemma PrefixedNames(t: InType)
    ensures |InstructionName(t)| > 2 && InstructionName(t)[2] == '_' <==> SpelledWithPrefix(t)
  {
  }

  /** rt_lookup: one letter for an 8-bit register, two for a pair, SP or PC. */
  function RegName(r: Reg): (name: string)
    ensures r != RtNone ==> |name| == if Is16(r) then 2 else 1
    ensures r == RtNone <==> name == "<NONE>"
  {
    match r
    case RtNone => "<NONE>"
    case RtA => "A"
    case RtF => "F"
    case RtB => "B"
    case RtC => "C"
    case RtD => "D"
    case RtE => "E"
    case RtH => "H"
    case RtL => "L"
    case RtAF => "AF"
    case RtBC => "BC"
    case RtDE => "DE"
    case RtHL => "HL"
    case RtSP => "SP"
    case RtPC => "PC"
  }

  // ---------------------------------------------------------------------
  // The number formats of the disassembly: %X, %02X, %04X and %d

  /** The digit %X prints for a nibble: 0-9, then upper-case A-F. */
  function HexDigit(n: u8): char
    requires n < 16
  {
    "0123456789ABCDEF"[n as int]
  }

  /** The nibble a hexadecimal digit stands for; None for any other character. */
  function HexValue(c: char): Option<u8>
  {
    if '0' <= c <= '9' then Some((c as int - '0' as int) as u8)
    else if 'A' <= c <= 'F' then Some((c as int - 'A' as int + 10) as u8)
    else None
  }

  /** Reading a printed digit back gives the nibble. */
  lemma HexDigitValue(n: u8)
    requires n < 16
    ensures HexValue(HexDigit(n)) == Some(n)
  {
  }

  /** %02X: two digits, the high nibble first. */
  function Hex2(b: u8): (s: string)
    ensures |s| == 2
  {
    [HexDigit(b >> 4), HexDigit(b & 0xF)]
  }

  /** %04X: four digits, the high byte first. */
  function Hex4(w: u16): (s: string)
    ensures |s| == 4
  {
    Hex2(Hi(w)) + Hex2(Lo(w))
  }

  /** The byte two hexadecimal digits stand for. */
  function ParseHex2(s: string): Option<u8>
    requires |s| == 2
  {
    match (HexValue(s[0]), HexValue(s[1]))
    case (Some(hi), Some(lo)) => Some((hi << 4) | lo)
    case _ => None
  }

  /** The word four hexadecimal digits stand for. */
  function ParseHex4(s: string): Option<u16>
    requires |s| == 4
  {
    match (ParseHex2(s[..2]), ParseHex2(s[2..]))
    case (Some(hi), Some(lo)) => Some(Word(hi, lo))
    case _ => None
  }

  /** A byte printed with %02X reads back as itself. */
  lemma Hex2RoundTrip(b: u8)
    ensures ParseHex2(Hex2(b)) == Some(b)
  {
    HexDigitValue(b >> 4);
    HexDigitValue(b & 0xF);
  }

  /** A word printed with %04X reads back as itself. */
  lemma Hex4RoundTrip(w: u16)
    ensures ParseHex4(Hex4(w)) == Some(w)
  {
    var s := Hex4(w);
    assert s[..2] == Hex2(Hi(w));
    assert s[2..] == Hex2(Lo(w));
    Hex2RoundTrip(Hi(w));
    Hex2RoundTrip(Lo(w));
    WordOfHalves(w);
  }

  /** The decimal digit of a number below ten. */
  function DecimalDigit(n: nat): char
    requires n < 10
  {
    "0123456789"[n]
  }

  /** %d of a non-negative number: its decimal digits, most significant first. */
  function Decimal(n: nat): (s: string)
    ensures 1 <= |s|
    decreases n
  {
    if n < 10 then [DecimalDigit(n)] else Decimal(n / 10) + [DecimalDigit(n % 10)]
  }

  /** The number a string of decimal digits stands for (a non-digit counts as 0). */
  function DecimalValue(s: string): nat
  {
    if |s| == 0 then 0
    else
      var c := s[|s| - 1];
      DecimalValue(s[..|s| - 1]) * 10 + (if '0' <= c <= '9' then c as int - '0' as int else 0)
  }

  /** A number printed with %d reads back as itself. */
  lemma {:induction false} DecimalRoundTrip(n: nat)
    ensures DecimalValue(Decimal(n)) == n
    decreases n
  {
    if n >= 10 {
      var s := Decimal(n);
      assert s[..|s| - 1] == Decimal(n / 10);
      DecimalRoundTrip(n / 10);
    }
  }

  // ---------------------------------------------------------------------
  // inst_to_str

  /**
   * inst_to_str: the text for the current instruction, given the fetched
   * operand and the byte just before PC (which the AM_A8_R form reads from
   * the bus).  None where the addressing mode has no format (AM_D16_R, which
   * no table entry uses) and inst_to_str ends the emulator.
   */
  function InstToStr(inst: Instruction, data: u16, a8: u8): (text: Option<string>)
  {
    var name := InstructionName(inst.kind);
    var r1 := RegName(inst.reg1);
    var r2 := RegName(inst.reg2);
    match inst.mode
    case AmImp => Some(name + " ")
    case AmRD16 => Some(name + " " + r1 + ",$" + Hex4(data))
    case AmRA16 => Some(name + " " + r1 + ",$" + Hex4(data))
    case AmR => Some(name + " " + r1)
    case AmRR => Some(name + " " + r1 + "," + r2)
    case AmMrR => Some(name + " (" + r1 + ")," + r2)
    case AmMr => Some(name + " (" + r1 + ")")
    case AmRMr => Some(name + " " + r1 + ",(" + r2 + ")")
    case AmRD8 => Some(name + " " + r1 + ",$" + Hex2(Lo(data)))
    case AmRA8 => Some(name + " " + r1 + ",$" + Hex2(Lo(data)))
    case AmRHli => Some(name + " " + r1 + ",(" + r2 + "+)")
    case AmRHld => Some(name + " " + r1 + ",(" + r2 + "-)")
    case AmHliR => Some(name + " (" + r1 + "+)," + r2)
    case AmHldR => Some(name + " (" + r1 + "-)," + r2)
    case AmA8R => Some(name + " $" + Hex2(a8) + "," + r2)
    case AmHlSpr => Some(name + " (" + r1 + "),SP+" + Decimal(Lo(data) as nat))
    case AmD8 => Some(name + " $" + Hex2(Lo(data)))
    case AmD16 => Some(name + " $" + Hex4(data))
    case AmMrD8 => Some(name + " (" + r1 + "),$" + Hex2(Lo(data)))
    case AmA16R => Some(name + " ($" + Hex4(data) + ")," + r2)
    case AmD16R => None
  }

  /** Only AM_D16_R has no format; every text starts with the mnemonic and a space. */
  lemma ToStrShape(inst: Instruction, data: u16, a8: u8)
    ensures InstToStr(inst, data, a8).None? <==> inst.mode == AmD16R
    ensures InstToStr(inst, data, a8).Some? ==>
      InstructionName(inst.kind) + " " <= InstToStr(inst, data, a8).value
  {
  }

  /** No entry of the first half of the table uses AM_D16_R. */
  lemma LowHalfModes(op: u8)
    requires op < 0x80
    ensures Entry(op).mode != AmD16R
  {
  }

  /** No entry of the second half of the table uses AM_D16_R. */
  lemma HighHalfModes(op: u8)
    requires 0x80 <= op
    ensures Entry(op).mode != AmD16R
  {
  }

  /** Every entry of the table has a format, so disassembling it never ends the emulator. */
  lemma TableFormats(op: u8, data: u16, a8: u8)
    ensures InstToStr(Entry(op), data, a8).Some?
  {
    if op < 0x80 {
      LowHalfModes(op);
    } else {
      HighHalfModes(op);
    }
    ToStrShape(Entry(op), data, a8);
  }

  /** AM_IMP prints the mnemonic and one space, AM_R_R "NAME R1,R2", AM_MR "NAME (R1)". */
  lemma ToStrForms(inst: Instruction, data: u16, a8: u8)
    ensures inst.mode == AmImp ==> InstToStr(inst, data, a8) == Some(InstructionName(inst.kind) + " ")
    ensures inst.mode == AmRR ==>
      InstToStr(inst, data, a8) == Some(InstructionName(inst.kind) + " " + RegName(inst.reg1) + "," + RegName(inst.reg2))
    ensures inst.mode == AmMr ==>
      InstToStr(inst, data, a8) == Some(InstructionName(inst.kind) + " (" + RegName(inst.reg1) + ")")
  {
  }

  /** The 16-bit immediate of a JP, CALL or LD nn is the last four characters, in hexadecimal. */
  lemma ToStrShowsWord(inst: Instruction, data: u16, a8: u8)
    requires inst.mode == AmD16 || inst.mode == AmRD16 || inst.mode == AmRA16
    ensures var t := InstToStr(inst, data, a8).value;
      |t| >= 4 && ParseHex4(t[|t| - 4..]) == Some(data)
  {
    var t := InstToStr(inst, data, a8).value;
    assert t[|t| - 4..] == Hex4(data);
    Hex4RoundTrip(data);
  }

  /** The 8-bit immediate of an AM_D8, AM_R_D8 or AM_R_A8 form is the last two characters. */
  lemma ToStrShowsByte(inst: Instruction, data: u16, a8: u8)
    requires inst.mode == AmD8 || inst.mode == AmRD8 || inst.mode == AmRA8
    ensures var t := InstToStr(inst, data, a8).value;
      |t| >= 2 && ParseHex2(t[|t| - 2..]) == Some(Lo(data))
  {
    var t := InstToStr(inst, data, a8).value;
    assert t[|t| - 2..] == Hex2(Lo(data));
    Hex2RoundTrip(Lo(data));
  }

  /** LD HL,SP+e8 prints the offset as an unsigned decimal after "SP+". */
  lemma ToStrShowsOffset(inst: Instruction, data: u16, a8: u8)
    requires inst.mode == AmHlSpr
    ensures var t := InstToStr(inst, data, a8).value;
      var d := Decimal(Lo(data) as nat);
      |t| >= |d| && DecimalValue(t[|t| - |d|..]) == Lo(data) as nat
  {
    var t := InstToStr(inst, data, a8).value;
    var d := Decimal(Lo(data) as nat);
    assert t[|t| - |d|..] == d;
    DecimalRoundTrip(Lo(data) as nat);
  }
}
