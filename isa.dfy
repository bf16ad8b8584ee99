/**
 * The vocabulary of the SM83 instruction table: instruction kinds, addressing
 * modes, register names and branch conditions, in the order the emulator's
 * enumerations declare them, and one decoded table entry.
 */
module Isa {
  import opened Common

  /** in_type: IN_NONE, IN_NOP, ... in declaration order. */
  datatype InType =
    | InNone | InNop | InLd | InInc | InDec | InRlca | InAdd | InRrca | InStop
    | InRla | InJr | InRra | InDaa | InCpl | InScf | InCcf | InHalt | InAdc
    | InSub | InSbc | InAnd | InXor | InOr | InCp | InPop | InJp | InPush
    | InRet | InCb | InCall | InReti | InLdh | InJpHl | InDi | InEi | InRst
    | InErr
    // the CB-prefixed kinds, which only the CB handler decodes itself
    | InRlc | InRrc | InRl | InRr | InSla | InSra | InSwap | InSrl | InBit
    | InRes | InSet

  /** addr_mode: AM_IMP, AM_R_D16, ... */
  datatype AddrMode =
    | AmImp | AmRD16 | AmRR | AmMrR | AmR | AmRD8 | AmRMr | AmRHli | AmRHld
    | AmHliR | AmHldR | AmRA8 | AmA8R | AmHlSpr | AmD16 | AmD8 | AmD16R
    | AmMrD8 | AmMr | AmA16R | AmRA16

  /** reg_type: RT_NONE, RT_A, ..., RT_PC. */
  datatype Reg =
    | RtNone | RtA | RtF | RtB | RtC | RtD | RtE | RtH | RtL
    | RtAF | RtBC | RtDE | RtHL | RtSP | RtPC

  /** cond_type: CT_NONE, CT_NZ, CT_Z, CT_NC, CT_C. */
  datatype Cond = CondNone | CondNZ | CondZ | CondNC | CondC

  /** One entry of the opcode table. */
  datatype Instruction = Instruction(
    kind: InType,
    mode: AddrMode,
    reg1: Reg,
    reg2: Reg,
    cond: Cond,
    param: u8)

  /** The entry every table slot holds before it is assigned. */
  const Blank := Instruction(InNone, AmImp, RtNone, RtNone, CondNone, 0)

  /** is_16_bit: the register names declared from RT_AF onwards. */
  predicate Is16(r: Reg)
  {
    r.RtAF? || r.RtBC? || r.RtDE? || r.RtHL? || r.RtSP? || r.RtPC?
  }

  /** The 3-bit register field of an opcode: B, C, D, E, H, L, (HL), A. */
  function DecodeReg(code: u8): (r: Reg)
    ensures r == RtNone <==> code > 7
    ensures r != RtNone ==> r == RtHL || !Is16(r)
    ensures r != RtF
  {
    if code > 7 then RtNone
    else [RtB, RtC, RtD, RtE, RtH, RtL, RtHL, RtA][code]
  }

  /** The 3-bit field that names an 8-bit operand (the inverse of DecodeReg). */
  function RegCode(r: Reg): (code: u8)
    requires r == RtHL || (r != RtNone && !Is16(r) && r != RtF)
    ensures code < 8
  {
    match r
    case RtB => 0
    case RtC => 1
    case RtD => 2
    case RtE => 3
    case RtH => 4
    case RtL => 5
    case RtHL => 6
    case RtA => 7
  }

  lemma DecodeRegCode(r: Reg)
    requires r == RtHL || (r != RtNone && !Is16(r) && r != RtF)
    ensures DecodeReg(RegCode(r)) == r
  {
  }

  lemma RegCodeDecode(code: u8)
    requires code < 8
    ensures RegCode(DecodeReg(code)) == code
  {
  }
}
