# Emu-Boy core, modelled in Dafny

This project models the deterministic hardware logic of the Emu-Boy Game Boy
emulator and proves properties of it:

- the SM83 instruction handlers of `cpu_proc.cpp`: flag packing, conditions,
  the 8- and 16-bit ALU, DAA, the stack instructions and the CB prefix;
- the 256-entry opcode table of `instructions.cpp` and its disassembler;
- the cartridge controller of `cart.cpp`: ROM only, MBC1 and MBC3, the RAM
  banks, the battery file name and the header checksum;
- the memory map of `bus.cpp` and the I/O dispatch of `io.cpp`;
- the OAM DMA engine of `dma.cpp`;
- the LCD register block and palettes of `lcd.cpp` and `lcd.hpp`;
- the PPU memories and tick entry of `ppu.cpp`;
- the joypad register of `gamepad.cpp`;
- the cycle fan-out `emu_cycles` of `main.cpp`;
- the pure helpers of `ui.cpp`: the letterbox rectangle, the background
  choice, the ROM basename and the ROM picker's selection.

Each module follows one source file:

| module | source |
|---|---|
| `Common` (`common.dfy`) | the bit helpers of `common.hpp`, bytes and words |
| `Isa` (`isa.dfy`) | the register, condition and addressing-mode enumerations and `decode_reg` |
| `Alu` (`alu.dfy`) | the flag formulas of `cpu_proc.cpp`, as pure functions |
| `CpuProc` (`cpu_proc.dfy`) | the `proc_*` handlers |
| `Instructions` (`instructions.dfy`) | `instructions.cpp` |
| `Cart` (`cart.dfy`) | `cart.cpp` |
| `Dma` (`dma.dfy`) | `dma.cpp` |
| `Lcd` (`lcd.dfy`) | `lcd.cpp` and `lcd.hpp` |
| `Ppu` (`ppu.dfy`) | `ppu.cpp` |
| `Gamepad` (`gamepad.dfy`) | `gamepad.cpp` |
| `Io` (`io.dfy`) | `io.cpp` |
| `Bus` (`bus.dfy`) | `bus.cpp` |
| `Emu` (`emu.dfy`) | `emu_cycles` of `main.cpp` |
| `Ui` (`ui.dfy`) | the pure parts of `ui.cpp` |

State the source changes in place is modelled with classes:

- the CPU context and the opcode table;
- the cartridge, DMA, LCD, PPU and joypad contexts;
- the I/O and bus dispatchers;
- the emulator's tick counter;
- the display rectangle and the picker.

Each class's methods are proved against pure functions of the old state:
`State() == F(old(State()))`. The lemmas then state what the source promises
about those functions.

The CPU's memory is the 64 KiB address space as a total function from
addresses to bytes. Collaborators whose code is not part of this model enter
in one of two ways:

- what they answer is a parameter of the model, such as the timer's reads,
  the interrupt-flag register, and WRAM/HRAM;
- what they receive is recorded in order, in a trace such as the forwarded
  writes, the PPU mode handlers dispatched to, and the battery saves;
- what they do to state the model shares is left open: a PPU mode handler
  may set STAT, LY, the PPU's counters and pipeline and the frame buffer's
  pixels to any values.

Machine words are bit-vectors (`bv8`, `bv16`, `bv32`), so 8- and 16-bit
wrap-around is exact. Register pairs are `hi << 8 | lo`. CPU cycles spent
inside a handler are counted in a ghost counter.

Where the code departs from the hardware or does something unexpected, the
model does what the code does:

- The MBC1 code turns a raw 0 into 1 before masking to five bits, so 0x20,
  0x40 and 0x60 select ROM bank 0 for the 0x4000-0x7FFF window
  (`Cart.Mbc1BankZero`). The real controller applies the 0-to-1 rule after
  masking.
- Entry 0xFC of the opcode table is `CALL` with `AM_R_A16`/`RT_C`, as written.
  The real CPU has no instruction there. No hardware property is claimed
  about this entry.
- The masks `op & 0x03 == 0x03` (INC) and `op & 0x0B == 0x0B` (DEC) pick out
  exactly the 16-bit forms only among the `AM_R` entries. INC (HL) at 0x34 and
  DEC (HL) at 0x35 name HL but fail the mask, so they set flags
  (`Instructions.IncMask`, `Instructions.DecMask`).
- The battery file is read into and written from the active RAM bank, not
  the whole cartridge RAM.
- The header checksum is computed and its verdict printed, but it is never
  compared with the stored checksum and never stops loading.
- `cart_load` overwrites `title[15]` (offset 0x143) of the image with 0.
- The accented Pokemon needle in `pick_background` is, byte for byte, the
  five characters E2 88 9A C2 A9 between "pok" and "mon". That is how the
  file stores it. It is modelled as those characters.

## Model

| member | source | states |
|---|---|---|
| Common.BitSetBits | sources/cpu_proc.cpp:8-21 | BIT_SET gives bit n the requested value and leaves the other seven bits unchanged |
| Common.Word | sources/bus.cpp:131-136 | a word built from two bytes has the first as its high byte and the second as its low byte |
| Common.SignExtendHalves | sources/cpu_proc.cpp:148-153 | the `(char)` sign extension keeps the low byte and fills the high byte with bit 7 |
| Common.WordOfHalves | sources/bus.cpp:131-140 | a word split into its high and low bytes and rebuilt is the same word |
| Common.Store | sources/bus.cpp:72-129 | a stored byte is at its address afterwards |
| Common.LoadAfterStore | sources/bus.cpp:72-129 | a store changes the byte at its own address and no other |
| Common.Load16AfterStore16 | sources/bus.cpp:131-140 | a word written high byte first at a + 1, then low byte at a, reads back whole little-endian |
| Isa.DecodeReg | sources/cpu_proc.cpp:53-59 | exactly the codes above 7 give RT_NONE; codes 0-7 give an 8-bit register or (HL), and never F |
| Isa.RegCode | sources/cpu_proc.cpp:53-59 | every 8-bit operand has a 3-bit code |
| Isa.DecodeRegCode | sources/cpu_proc.cpp:53-59 | decoding the code of an operand gives the operand back |
| Isa.RegCodeDecode | sources/cpu_proc.cpp:53-59 | the code of a decoded 3-bit field is that field |
| Alu.SetFlagsBits | sources/cpu_proc.cpp:8-21 | each of Z, N, H, C after cpu_set_flags is the argument when one is given and the old flag for -1 |
| Alu.SetFlagsZ | sources/cpu_proc.cpp:8-21 | Z is bit 7: set from the z argument, kept for -1 |
| Alu.SetFlagsN | sources/cpu_proc.cpp:8-21 | N is bit 6: set from the n argument, kept for -1 |
| Alu.SetFlagsH | sources/cpu_proc.cpp:8-21 | H is bit 5: set from the h argument, kept for -1 |
| Alu.SetFlagsC | sources/cpu_proc.cpp:8-21 | C is bit 4: set from the c argument, kept for -1 |
| Alu.SetFlagsLow | sources/cpu_proc.cpp:8-21 | the low nibble of F is never changed |
| Alu.FlagBit | sources/cpu_proc.cpp:8-21 | each argument is one BIT_SET of its bit, and -1 changes nothing |
| Alu.SetFlagsKeepAll | sources/cpu_proc.cpp:8-21 | a call with all four arguments -1 leaves F unchanged |
| Alu.CheckCond | sources/cpu_proc.cpp:27-40 | CT_NONE is always taken; CT_Z is taken iff Z is set and CT_C iff C is set |
| Alu.CheckCondComplements | sources/cpu_proc.cpp:27-40 | CT_NZ is taken exactly when CT_Z is not, and CT_NC exactly when CT_C is not |
| Alu.Adc | sources/cpu_proc.cpp:314-323 | ADC sets Z from the stored byte, clears N, and always sets H and C |
| Alu.AdcSum | sources/cpu_proc.cpp:314-323 | with a byte operand, C followed by the new A is the 9-bit sum A + u + carry |
| Alu.AdcHalfCarry | sources/cpu_proc.cpp:314-323 | H is the carry into bit 4 of A + u + carry |
| Alu.AdcWithoutCarryIsAdd | sources/cpu_proc.cpp:280-323 | ADC with C clear stores the value and passes the flags ADD A does |
| Alu.AdcWithoutCarryCarry | sources/cpu_proc.cpp:280-323 | ADC with C clear sets C as ADD A does |
| Alu.AdcWithoutCarryHalf | sources/cpu_proc.cpp:280-323 | ADC with C clear sets H as ADD A does |
| Alu.Sub | sources/cpu_proc.cpp:325-335 | SUB sets N, sets Z iff the 16-bit difference is 0, and always sets H and C |
| Alu.SubBorrow | sources/cpu_proc.cpp:325-335 | with byte operands, the stored byte plus the operand gives v back, plus 0x100 exactly when C (the borrow) is set |
| Alu.SubHalfBorrow | sources/cpu_proc.cpp:325-335 | H is the borrow out of the low nibble |
| Alu.Sbc | sources/cpu_proc.cpp:337-351 | SBC sets N and always sets Z, H and C |
| Alu.SbcBorrow | sources/cpu_proc.cpp:337-351 | result + operand + carry-in = v + 0x100 times the borrow C |
| Alu.SbcZero | sources/cpu_proc.cpp:337-351 | with byte operands Z tells exactly whether the stored byte is 0 |
| Alu.SbcHalfBorrow | sources/cpu_proc.cpp:337-351 | H is the borrow out of the low nibble, counting the carry-in |
| Alu.SbcWithoutCarryIsSub | sources/cpu_proc.cpp:325-351 | SBC with C clear gives exactly the value and flags of SUB |
| Alu.SbcWithoutCarryValue | sources/cpu_proc.cpp:325-351 | SBC with C clear stores SUB's value |
| Alu.SbcWithoutCarryZero | sources/cpu_proc.cpp:325-351 | SBC with C clear sets Z as SUB does |
| Alu.Cp | sources/cpu_proc.cpp:370-375 | CP sets Z iff A equals the operand, sets N, and always sets H and C |
| Alu.CpIsSubFlags | sources/cpu_proc.cpp:325-375 | CP passes exactly the flags SUB would pass for A |
| Alu.And | sources/cpu_proc.cpp:355-358 | AND keeps exactly the bits set in both A and the operand; Z from the result, N and C clear, H set |
| Alu.Xor | sources/cpu_proc.cpp:360-363 | XOR with the operand again gives A back; Z from the result, N, H and C clear |
| Alu.Or | sources/cpu_proc.cpp:365-368 | OR keeps exactly the bits set in A or the operand; Z from the result, N, H and C clear |
| Alu.XorSelfClears | sources/cpu_proc.cpp:360-363 | XOR A,A leaves 0 with Z set |
| Alu.AddByte | sources/cpu_proc.cpp:280-312 | 8-bit ADD: Z from the low byte of the sum, N clear, H and C always set |
| Alu.AddByteSum | sources/cpu_proc.cpp:280-312 | 8-bit ADD: C followed by the stored byte is the 9-bit sum, and H is the carry into bit 4 |
| Alu.AddWord | sources/cpu_proc.cpp:297-302 | ADD HL,rr keeps Z, clears N, and sets H and C |
| Alu.AddWordSum | sources/cpu_proc.cpp:297-302 | ADD HL,rr: C followed by HL is the 17-bit sum, and H is the carry out of bit 11 |
| Alu.AddSp | sources/cpu_proc.cpp:289-308 | ADD SP,e8 adds the sign-extended operand and clears Z and N |
| Alu.AddSpCarries | sources/cpu_proc.cpp:289-308 | ADD SP,e8: H and C are the carries out of bits 3 and 7 of the signed addition, equal to those of the unsigned low bytes |
| Alu.Add | sources/cpu_proc.cpp:280-312 | every form of ADD clears N |
| Alu.SpOffset | sources/cpu_proc.cpp:102-113 | LD HL,SP+e8 stores SP plus the sign-extended operand and clears Z and N |
| Alu.SpOffsetIsAddSp | sources/cpu_proc.cpp:102-113 | LD HL,SP+e8 computes exactly the value and flags of ADD SP,e8 |
| Alu.IncFlags | sources/cpu_proc.cpp:250-254 | INC makes no flag call iff both low opcode bits are set; otherwise C is kept |
| Alu.DecFlags | sources/cpu_proc.cpp:273-277 | DEC makes no flag call iff `op & 0x0B == 0x0B`; otherwise C is kept |
| Alu.IncByteFlags | sources/cpu_proc.cpp:234-255 | INC of a byte: Z iff it wraps to 0, H iff the low nibble wraps, N clear, C kept |
| Alu.DecByteFlags | sources/cpu_proc.cpp:257-278 | DEC of a byte: Z iff the byte was 1, H iff the low nibble wraps to 0xF, N set, C kept |
| Alu.Rlc | sources/cpu_proc.cpp:420-430 | RLC is a rotation left by one, and C is the old bit 7 |
| Alu.Rrc | sources/cpu_proc.cpp:431-439 | RRC is a rotation right by one, and C is the old bit 0 |
| Alu.Rl | sources/cpu_proc.cpp:440-450 | RL moves every bit up one place; the carry goes into bit 0 and bit 7 into C |
| Alu.Rr | sources/cpu_proc.cpp:451-461 | RR moves every bit down one place; the carry goes into bit 7 and bit 0 into C |
| Alu.Sla | sources/cpu_proc.cpp:462-470 | SLA moves every bit up one place with bit 0 clear; C is the old bit 7 |
| Alu.Sra | sources/cpu_proc.cpp:471-479 | SRA moves every bit down one place and keeps bit 7; C is the old bit 0 |
| Alu.Srl | sources/cpu_proc.cpp:489-497 | SRL moves every bit down one place with bit 7 clear; C is the old bit 0 |
| Alu.Swap | sources/cpu_proc.cpp:480-488 | SWAP exchanges the nibbles and clears C |
| Alu.SwapSwap | sources/cpu_proc.cpp:480-488 | SWAP twice gives the byte back |
| Alu.RrcUndoesRlc | sources/cpu_proc.cpp:420-439 | RRC after RLC restores the byte |
| Alu.RrUndoesRl | sources/cpu_proc.cpp:440-461 | RR after RL restores the byte and the carry |
| Alu.SrlAfterSla | sources/cpu_proc.cpp:462-497 | SRL after SLA clears only bit 7 |
| Alu.CbShift | sources/cpu_proc.cpp:418-500 | of the eight shift subtypes, SWAP (6) always clears C |
| Alu.CbReg | sources/cpu_proc.cpp:379-390 | bits 0-2 of a CB opcode always name an operand |
| Alu.CbBit | sources/cpu_proc.cpp:379-390 | bits 3-5 of a CB opcode give a bit number below 8 |
| Alu.CbClass | sources/cpu_proc.cpp:379-390 | bits 6-7 of a CB opcode give one of four classes |
| Alu.CbStep | sources/cpu_proc.cpp:379-513 | only BIT (class 1) writes nothing back, and only RES and SET (classes 2 and 3) leave every flag alone |
| Alu.CbBitTest | sources/cpu_proc.cpp:392-400 | BIT n: Z is the complement of bit n, N clear, H set, C kept |
| Alu.CbResSet | sources/cpu_proc.cpp:402-416 | RES n clears and SET n sets bit n, and every other bit is kept |
| Alu.CbShiftFlags | sources/cpu_proc.cpp:418-508 | a shift stores the subtype's result, Z from it, N and H clear, C the bit shifted out |
| Alu.ResUndoesSet | sources/cpu_proc.cpp:402-416 | SET then RES of a bit that was clear gives the byte back |
| Alu.Rlca | sources/cpu_proc.cpp:517-524 | RLCA stores RLC of A, clears Z, N and H, and sets C from bit 7 |
| Alu.Rrca | sources/cpu_proc.cpp:526-532 | RRCA stores RRC of A, clears Z, N and H, and sets C from bit 0 |
| Alu.Rla | sources/cpu_proc.cpp:534-541 | RLA stores RL of A, clears Z, N and H, and sets C from bit 7 |
| Alu.Rra | sources/cpu_proc.cpp:543-551 | RRA stores RR of A, clears Z, N and H, and sets C from bit 0 |
| Alu.RraUndoesRla | sources/cpu_proc.cpp:534-551 | RRA after RLA restores A and the carry |
| Alu.DaaAdjust | sources/cpu_proc.cpp:556-573 | the new C is set iff C was set or, after an addition, A exceeds 0x99 |
| Alu.Daa | sources/cpu_proc.cpp:556-573 | DAA sets Z from the result, clears H, keeps N, and sets C iff the 0x60 correction applies |
| Alu.DaaExample | sources/cpu_proc.cpp:556-573 | A = 0x9A with N, H and C clear becomes 0x00 with Z and C set |
| Alu.BcdAdd | sources/cpu_proc.cpp:556-573 | the digit-by-digit decimal sum of two BCD bytes is a BCD byte |
| Alu.BcdSub | sources/cpu_proc.cpp:556-573 | the digit-by-digit decimal difference of two BCD bytes is a BCD byte |
| Alu.DaaAddNoCarry | sources/cpu_proc.cpp:556-573 | DAA after adding BCD bytes with no digit carry gives the decimal sum |
| Alu.DaaAddHighCarry | sources/cpu_proc.cpp:556-573 | as above, with a carry out of the high digit only |
| Alu.DaaAddLowCarry | sources/cpu_proc.cpp:556-573 | as above, with a carry out of the low digit only |
| Alu.DaaAddBothCarries | sources/cpu_proc.cpp:556-573 | as above, with carries out of both digits |
| Alu.DaaSubNoBorrow | sources/cpu_proc.cpp:556-573 | DAA after subtracting BCD bytes with no digit borrow gives the decimal difference |
| Alu.DaaSubHighBorrow | sources/cpu_proc.cpp:556-573 | as above, with a borrow from the high digit only |
| Alu.DaaSubLowBorrow | sources/cpu_proc.cpp:556-573 | as above, with a borrow from the low digit only |
| Alu.DaaSubBothBorrows | sources/cpu_proc.cpp:556-573 | as above, with borrows from both digits |
| Alu.AddOfBcdOperands | sources/cpu_proc.cpp:280-312 | ADD A,r leaves the byte sum, N clear, and the nibble and byte carries in H and C |
| Alu.SubOfBcdOperands | sources/cpu_proc.cpp:325-335 | SUB leaves the byte difference, N set, and the nibble and byte borrows in H and C |
| Alu.DaaAfterAdd | sources/cpu_proc.cpp:556-573 | ADD of two BCD bytes followed by DAA leaves their decimal sum in A and the decimal carry in C |
| Alu.DaaAfterSub | sources/cpu_proc.cpp:556-573 | SUB of two BCD bytes followed by DAA leaves their decimal difference in A and the decimal borrow in C |
| Alu.Cpl | sources/cpu_proc.cpp:575-579 | CPL flips every bit of A, sets N and H, and keeps Z and C |
| Alu.Ccf | sources/cpu_proc.cpp:586-589 | CCF inverts C, clears N and H, and keeps Z |
| Alu.CplCpl | sources/cpu_proc.cpp:575-579 | CPL twice gives A back |
| Alu.CcfCcf | sources/cpu_proc.cpp:586-589 | CCF twice restores C and Z, with N and H clear |
| Alu.CcfAfterScf | sources/cpu_proc.cpp:581-589 | SCF then CCF clears C whatever it was |
| CpuProc.WriteKeepsF | sources/cpu_proc.cpp:208-212 | storing any register other than F and AF leaves F unchanged |
| CpuProc.ReadAfterWrite | sources/cpu_proc.cpp:246-247 | a register read back gives the value stored, cut to the register's width |
| CpuProc.ReadIgnoresSp | sources/cpu_proc.cpp:217-229 | a new SP changes no register read except SP |
| CpuProc.ReadIgnoresF | sources/cpu_proc.cpp:8-21 | a new F changes no register read except F and AF |
| CpuProc.WriteBack | sources/cpu_proc.cpp:246-247 | storing the value a register already holds changes nothing |
| CpuProc.Write8KeepsF | sources/cpu_proc.cpp:379-513 | storing an 8-bit operand never changes F |
| CpuProc.Read8AfterWrite8 | sources/cpu_proc.cpp:379-513 | an 8-bit operand, including (HL), reads back the byte stored into it |
| CpuProc.RestoreRegs | sources/cpu_proc.cpp:246-247 | writing a register's own value back restores the register file |
| CpuProc.Push | sources/cpu_proc.cpp:217-229 | a push decrements SP and stores the byte where SP then points |
| CpuProc.Drop | sources/cpu_proc.cpp:198-215 | a pop increments SP and leaves memory unchanged |
| CpuProc.Push16 | sources/cpu_proc.cpp:131-142 | a 16-bit push moves SP down by two |
| CpuProc.StackWordAfterPush16 | sources/cpu_proc.cpp:131-142 | after a 16-bit push, the word at the top of the stack is the word pushed |
| CpuProc.StepNop | sources/cpu_proc.cpp:69-77 | NOP and STOP change nothing and take no extra cycle |
| CpuProc.StepHalt | sources/cpu_proc.cpp:79-81 | HALT only sets the halted latch |
| CpuProc.StepLdh | sources/cpu_proc.cpp:119-127 | LDH always takes one extra cycle |
| CpuProc.IntoA | sources/cpu_proc.cpp:314-375 | an A-only ALU result stores its value in A and its flags in F, and memory is unchanged |
| CpuProc.Cpu.constructor | sources/cpu_proc.cpp:1-7 | a CPU over the given registers, memory and current instruction, with no cycles counted |
| CpuProc.Cpu.SetFlagsOf | sources/cpu_proc.cpp:8-21 | cpu_set_flags: F becomes the packed flags and nothing else changes |
| CpuProc.Cpu.PutFlag | sources/cpu_proc.cpp:8-21 | one flag of F is set, cleared or kept as its argument says; memory is untouched |
| CpuProc.Cpu.SetReg8 | sources/cpu_proc.cpp:405-485 | cpu_set_reg8: a register or, for (HL), the byte at HL receives the value |
| CpuProc.Cpu.SetReg | sources/cpu_proc.cpp:208-212 | cpu_set_reg: the register or pair receives the value and memory is untouched |
| CpuProc.Cpu.BusWrite | sources/cpu_proc.cpp:241-244 | bus_write as the handlers see it: one byte is stored at the address in the CPU's flat 64 KiB memory and the registers are untouched; the bus routing is not applied |
| CpuProc.Cpu.BusWrite16 | sources/cpu_proc.cpp:89-92 | bus_write16 as the handlers see it: the high byte at the next address, then the low byte, in the flat memory |
| CpuProc.Cpu.StackPush | sources/cpu_proc.cpp:217-229 | stack_push: SP is decremented, then the byte is stored where it points |
| CpuProc.Cpu.StackPush16 | sources/cpu_proc.cpp:131-142 | stack_push16: the high byte is pushed, then the low byte |
| CpuProc.Cpu.StackPop | sources/cpu_proc.cpp:198-215 | stack_pop: the byte at SP is returned, then SP is incremented |
| CpuProc.Cpu.ProcNop | sources/cpu_proc.cpp:69-71 | proc_nop leaves the state unchanged |
| CpuProc.Cpu.ProcStop | sources/cpu_proc.cpp:75-77 | proc_stop leaves the state unchanged |
| CpuProc.Cpu.ProcHalt | sources/cpu_proc.cpp:79-81 | the state after proc_halt is StepHalt of the old state |
| CpuProc.Cpu.ProcLd | sources/cpu_proc.cpp:85-117 | the state and cycles after proc_ld are StepLd of the old state |
| CpuProc.Cpu.ProcLdh | sources/cpu_proc.cpp:119-127 | the state and cycles after proc_ldh are StepLdh of the old state |
| CpuProc.LdhLoadAfterStore | sources/cpu_proc.cpp:119-127 | LDH (a8),A then LDH A,(a8) on the same operand gives back every register, A with the byte it stored at 0xFF00 \| operand |
| CpuProc.Cpu.GotoAddr | sources/cpu_proc.cpp:131-142 | goto_addr: the state and cycles are Goto of the old state |
| CpuProc.Cpu.ProcJp | sources/cpu_proc.cpp:144-146 | the state after proc_jp is StepJp of the old state |
| CpuProc.Cpu.ProcJr | sources/cpu_proc.cpp:148-153 | the state after proc_jr is StepJr of the old state |
| CpuProc.Cpu.ProcCall | sources/cpu_proc.cpp:155-157 | the state after proc_call is StepCall of the old state |
| CpuProc.Cpu.ProcRst | sources/cpu_proc.cpp:159-161 | the state after proc_rst is StepRst of the old state |
| CpuProc.Cpu.ProcRet | sources/cpu_proc.cpp:163-179 | the state after proc_ret is StepRet of the old state |
| CpuProc.Cpu.ProcReti | sources/cpu_proc.cpp:181-184 | the state after proc_reti is StepReti of the old state |
| CpuProc.Cpu.ProcDi | sources/cpu_proc.cpp:188-190 | proc_di clears IME |
| CpuProc.Cpu.ProcEi | sources/cpu_proc.cpp:192-194 | proc_ei sets the enabling latch |
| CpuProc.Cpu.ProcPop | sources/cpu_proc.cpp:198-215 | the state after proc_pop is StepPop of the old state |
| CpuProc.Cpu.ProcPush | sources/cpu_proc.cpp:217-229 | the state after proc_push is StepPush of the old state |
| CpuProc.Cpu.ProcInc | sources/cpu_proc.cpp:234-255 | the state after proc_inc is StepInc of the old state |
| CpuProc.Cpu.ProcIncAtHl | sources/cpu_proc.cpp:241-244 | the INC (HL) branch: the byte at HL plus one, stored back |
| CpuProc.Cpu.ProcIncInReg | sources/cpu_proc.cpp:245-248 | the register branch of INC: the register plus one, stored back |
| CpuProc.Cpu.ProcDec | sources/cpu_proc.cpp:257-278 | the state after proc_dec is StepDec of the old state |
| CpuProc.Cpu.ProcDecAtHl | sources/cpu_proc.cpp:264-266 | the DEC (HL) branch: the byte at HL minus one, stored back |
| CpuProc.Cpu.ProcDecInReg | sources/cpu_proc.cpp:268-271 | the register branch of DEC: the register minus one, stored back |
| CpuProc.Cpu.ProcAdd | sources/cpu_proc.cpp:280-312 | the state after proc_add is StepAdd of the old state |
| CpuProc.Cpu.StoreA | sources/cpu_proc.cpp:314-375 | an A-only ALU result: A takes the value and F the flags |
| CpuProc.Cpu.ProcAdc | sources/cpu_proc.cpp:314-323 | the state after proc_adc is StepAdc of the old state |
| CpuProc.Cpu.ProcSub | sources/cpu_proc.cpp:325-335 | the state after proc_sub is StepSub of the old state |
| CpuProc.Cpu.ProcSbc | sources/cpu_proc.cpp:337-351 | the state after proc_sbc is StepSbc of the old state |
| CpuProc.Cpu.ProcAnd | sources/cpu_proc.cpp:355-358 | the state after proc_and is StepAnd of the old state |
| CpuProc.Cpu.ProcXor | sources/cpu_proc.cpp:360-363 | the state after proc_xor is StepXor of the old state |
| CpuProc.Cpu.ProcOr | sources/cpu_proc.cpp:365-368 | the state after proc_or is StepOr of the old state |
| CpuProc.Cpu.ProcCp | sources/cpu_proc.cpp:370-375 | the state after proc_cp is StepCp of the old state |
| CpuProc.Cpu.ProcCb | sources/cpu_proc.cpp:379-513 | the state after proc_cb is StepCb of the old state |
| CpuProc.Cpu.ProcRlca | sources/cpu_proc.cpp:517-524 | the state after proc_rlca is StepRlca of the old state |
| CpuProc.Cpu.ProcRrca | sources/cpu_proc.cpp:526-532 | the state after proc_rrca is StepRrca of the old state |
| CpuProc.Cpu.ProcRla | sources/cpu_proc.cpp:534-541 | the state after proc_rla is StepRla of the old state |
| CpuProc.Cpu.ProcRra | sources/cpu_proc.cpp:543-551 | the state after proc_rra is StepRra of the old state |
| CpuProc.Cpu.ProcDaa | sources/cpu_proc.cpp:556-573 | the state after proc_daa is StepDaa of the old state |
| CpuProc.Cpu.ProcCpl | sources/cpu_proc.cpp:575-579 | the state after proc_cpl is StepCpl of the old state |
| CpuProc.Cpu.ProcScf | sources/cpu_proc.cpp:581-584 | the state after proc_scf is StepScf of the old state |
| CpuProc.Cpu.ProcCcf | sources/cpu_proc.cpp:586-589 | the state after proc_ccf is StepCcf of the old state |
| CpuProc.Cpu.Execute | sources/cpu_proc.cpp:592-650 | the handler of the instruction kind runs; it fails, leaving the state unchanged, exactly for the kinds that dispatch to proc_none |
| CpuProc.DispatchFails | sources/cpu_proc.cpp:592-650 | the kinds that stop the emulator are IN_NONE, IN_JPHL, IN_ERR and the CB sub-kinds |
| CpuProc.GotoNotTaken | sources/cpu_proc.cpp:131-142 | a branch whose condition fails changes nothing and takes no extra cycle |
| CpuProc.GotoTaken | sources/cpu_proc.cpp:131-142 | a taken jump sets PC to its target; without a push nothing else changes, and with one SP moves down by two |
| CpuProc.JrTarget | sources/cpu_proc.cpp:148-153 | JR adds the operand's low byte to PC as a signed offset |
| CpuProc.RetAfterCall | sources/cpu_proc.cpp:155-179 | CALL followed by an unconditional RET restores every register, PC and SP included, and the halt and IME latches |
| CpuProc.RetAfterRst | sources/cpu_proc.cpp:159-179 | RST followed by an unconditional RET restores every register, PC and SP included |
| CpuProc.RetiSetsIme | sources/cpu_proc.cpp:181-184 | RETI is RET with IME set |
| CpuProc.PushMovesSp | sources/cpu_proc.cpp:217-229 | PUSH moves SP down by two and leaves every other register unchanged |
| CpuProc.PushStoresPair | sources/cpu_proc.cpp:217-229 | PUSH stores the high byte above the low byte, so the stacked word is the pair |
| CpuProc.StackWordIgnoresCur | sources/cpu_proc.cpp:198-215 | the stacked word depends only on memory and SP |
| CpuProc.PopPair | sources/cpu_proc.cpp:198-215 | POP BC, DE or HL loads the stacked word into the pair, moves SP up by two, and changes nothing else |
| CpuProc.PopAf | sources/cpu_proc.cpp:198-215 | POP AF is POP of a pair with the low nibble of F cleared |
| CpuProc.PopAfterPush | sources/cpu_proc.cpp:198-229 | PUSH rr then POP rr restores BC, DE or HL, and SP, exactly |
| CpuProc.PopAfterPushAf | sources/cpu_proc.cpp:198-229 | PUSH AF then POP AF restores A and SP, and gives F back with its low nibble cleared |
| CpuProc.IncForm | sources/cpu_proc.cpp:234-255 | apart from F, the registers after INC r are those of storing r + 1 |
| CpuProc.DecForm | sources/cpu_proc.cpp:257-278 | apart from F, the registers after DEC r are those of storing r - 1 |
| CpuProc.IncRead | sources/cpu_proc.cpp:234-255 | after INC r, r reads as the stored r + 1 |
| CpuProc.DecRead | sources/cpu_proc.cpp:257-278 | after DEC r, r reads as the stored r - 1 |
| CpuProc.IncWide | sources/cpu_proc.cpp:234-255 | INC of a 16-bit register adds one modulo 2^16 |
| CpuProc.IncByte | sources/cpu_proc.cpp:234-255 | INC of an 8-bit register adds one modulo 2^8 |
| CpuProc.DecWide | sources/cpu_proc.cpp:257-278 | DEC of a 16-bit register subtracts one modulo 2^16 |
| CpuProc.DecByte | sources/cpu_proc.cpp:257-278 | DEC of an 8-bit register subtracts one modulo 2^8 |
| CpuProc.DecAfterIncWide | sources/cpu_proc.cpp:234-278 | INC rr then DEC rr gives the register back |
| CpuProc.DecAfterIncByte | sources/cpu_proc.cpp:234-278 | INC r then DEC r gives the register back |
| CpuProc.IncAtHlStores | sources/cpu_proc.cpp:241-244 | INC (HL) stores the byte plus one, wrapping at 0xFF, and takes one extra cycle |
| CpuProc.IncAtHlFlags | sources/cpu_proc.cpp:241-254 | INC (HL) sets Z exactly when the byte wrapped, clears N, and keeps C |
| CpuProc.DecAtHlStores | sources/cpu_proc.cpp:264-266 | DEC (HL) stores the byte minus one, wrapping at 0x00 |
| CpuProc.DecAtHlFlags | sources/cpu_proc.cpp:264-277 | DEC (HL) sets Z exactly when the byte was 1, sets N, and keeps C |
| CpuProc.WideIncKeepsFlags | sources/cpu_proc.cpp:250-252 | INC rr, whose opcodes all pass the 0x03 mask, leaves F unchanged |
| CpuProc.WideDecKeepsFlags | sources/cpu_proc.cpp:273-275 | DEC rr, whose opcodes all pass the 0x0B mask, leaves F unchanged |
| CpuProc.CpKeepsA | sources/cpu_proc.cpp:370-375 | CP sets the flags SUB would set and writes nothing else |
| CpuProc.CbBitWritesNothing | sources/cpu_proc.cpp:392-400 | BIT changes only F, with Z the complement of the bit it checks |
| CpuProc.CbResSetWrites | sources/cpu_proc.cpp:402-416 | RES and SET store the operand with exactly that one bit changed |
| CpuProc.CbResSetKeepsFlags | sources/cpu_proc.cpp:402-416 | RES and SET leave every flag unchanged |
| CpuProc.CbResSetIsWrite | sources/cpu_proc.cpp:402-416 | RES and SET are one store of the changed byte and nothing more |
| Instructions.OpcodeTable.constructor | sources/instructions.cpp:184 | the static table starts with every slot blank |
| Instructions.OpcodeTable.Init | sources/instructions.cpp:187-470 | every slot holds the entry the table assigns it, and the ten unassigned opcodes hold the blank entry |
| Instructions.OpcodeTable.ByOpcode | sources/instructions.cpp:472-474 | every byte has an entry, and it is the one init_instructions stored |
| Instructions.HolesAreBlank | sources/instructions.cpp:190-192 | 0xD3, 0xDB, 0xDD, 0xE3, 0xE4, 0xEB, 0xEC, 0xED, 0xF4 and 0xFD hold the blank entry |
| Instructions.HolesAreFatal | sources/cpu_proc.cpp:592-650 | executing any of those opcodes reaches proc_none |
| Instructions.LowRowsAssigned | sources/instructions.cpp:195-409 | every opcode below 0xD0 has an entry of a real kind |
| Instructions.HighRowsAssigned | sources/instructions.cpp:410-469 | from 0xD0 on, only the holes keep kind IN_NONE |
| Instructions.Holes | sources/instructions.cpp:187-470 | an opcode has kind IN_NONE exactly when it is one of the ten holes |
| Instructions.LoadBlock | sources/instructions.cpp:268-337 | every opcode of 0x40-0x7F except 0x76 is an unconditional LD |
| Instructions.LoadOperands | sources/instructions.cpp:268-337 | those LDs copy the register of bits 0-2 into the register of bits 3-5, in the memory modes when either is (HL) |
| Instructions.LoadBlockHalt | sources/instructions.cpp:268-337 | 0x76 is HALT |
| Instructions.AluBlock | sources/instructions.cpp:340-409 | 0x80-0xBF are ADD, ADC, SUB, SBC, AND, XOR, OR, CP by bits 3-5, unconditional |
| Instructions.AluOperands | sources/instructions.cpp:340-409 | those combine A with the register of bits 0-2, in memory mode when it is (HL) |
| Instructions.ConditionalJumps | sources/instructions.cpp:222-258 | JR at 0x20 + 8k and JP at 0xC2 + 8k test NZ, Z, NC, C for k = 0..3 |
| Instructions.ConditionalCalls | sources/instructions.cpp:411-438 | RET at 0xC0 + 8k and CALL at 0xC4 + 8k test NZ, Z, NC, C for k = 0..3 |
| Instructions.UnconditionalBranches | sources/instructions.cpp:222-438 | 0x18, 0xC9, 0xC3 and 0xCD carry CT_NONE |
| Instructions.RestartVectors | sources/instructions.cpp:418-469 | RST at 0xC7 + 8k restarts at 8k, for k = 0..7 |
| Instructions.IncDecInFirstQuarter | sources/instructions.cpp:195-266 | INC and DEC entries occur only below 0x40 |
| Instructions.MiddleRowsNotIncDec | sources/instructions.cpp:268-409 | no entry in 0x40-0xBF is INC or DEC |
| Instructions.HighHalfNotIncDec | sources/instructions.cpp:410-469 | no entry from 0xC0 on is INC or DEC |
| Instructions.IncMask | sources/cpu_proc.cpp:250 | among the AM_R INC entries, `op & 3 == 3` holds exactly for the 16-bit registers; the one other INC is 0x34, INC (HL) |
| Instructions.DecMask | sources/cpu_proc.cpp:273 | among the AM_R DEC entries, `op & 0x0B == 0x0B` holds exactly for the 16-bit registers; the one other DEC is 0x35, DEC (HL) |
| Instructions.InstructionName | sources/instructions.cpp:8-61 | every mnemonic has at least two characters |
| Instructions.PrefixedNames | sources/instructions.cpp:8-57 | IN_ERR and the CB sub-kinds keep their enumerator spelling, and no other mnemonic does |
| Instructions.RegName | sources/instructions.cpp:63-79 | an 8-bit register name has one letter and a pair, SP or PC two; "<NONE>" names RT_NONE only |
| Instructions.HexDigitValue | sources/instructions.cpp:81-181 | a printed hexadecimal digit reads back as its nibble |
| Instructions.Hex2 | sources/instructions.cpp:120-124 | %02X prints two characters |
| Instructions.Hex4 | sources/instructions.cpp:89-93 | %04X prints four characters |
| Instructions.Hex2RoundTrip | sources/instructions.cpp:120-124 | a byte printed with %02X reads back as itself |
| Instructions.Hex4RoundTrip | sources/instructions.cpp:89-93 | a word printed with %04X reads back as itself |
| Instructions.Decimal | sources/instructions.cpp:152-155 | %d prints at least one digit |
| Instructions.DecimalRoundTrip | sources/instructions.cpp:152-155 | a number printed with %d reads back as itself |
| Instructions.ToStrShape | sources/instructions.cpp:81-181 | only AM_D16_R falls to the fatal default, and every text starts with the mnemonic and a space |
| Instructions.LowHalfModes | sources/instructions.cpp:195-337 | no entry below 0x80 uses AM_D16_R |
| Instructions.HighHalfModes | sources/instructions.cpp:340-469 | no entry from 0x80 on uses AM_D16_R |
| Instructions.TableFormats | sources/instructions.cpp:81-181 | every table entry has a format, so disassembly never ends the emulator |
| Instructions.ToStrForms | sources/instructions.cpp:81-117 | AM_IMP gives the mnemonic and one space, AM_R_R "NAME R1,R2", AM_MR "NAME (R1)" |
| Instructions.ToStrShowsWord | sources/instructions.cpp:89-93 | the 16-bit immediate of an AM_R_D16 or AM_R_A16 form is the last four characters, in hexadecimal |
| Instructions.ToStrShowsByte | sources/instructions.cpp:120-124 | the 8-bit immediate of an AM_D8, AM_R_D8 or AM_R_A8 form is the last two characters |
| Instructions.ToStrShowsOffset | sources/instructions.cpp:152-155 | LD HL,SP+e8 ends with the offset byte printed as an unsigned decimal |
| Cart.TypeCodes | sources/cart.cpp:17-28 | no type is both MBC1 and MBC3, the battery type is MBC1, and no MBC3 type has a battery |
| Cart.RamOffset | sources/cart.cpp:320-331 | a RAM address has an offset inside the 8 KiB bank |
| Cart.AllocatedPrefix | sources/cart.cpp:153-167 | the slots allocated are exactly the first 1, 4, 16 or 8 for RAM size codes 2, 3, 4, 5, and none otherwise |
| Cart.ZeroBank | sources/cart.cpp:164-165 | a fresh bank has 8 KiB |
| Cart.BanksFor | sources/cart.cpp:153-172 | there are always sixteen slots |
| Cart.LastIndex | sources/cart.cpp:255-258 | strrchr finds a position holding the character with none after it, or reports none at all |
| Cart.NameStart | sources/cart.cpp:257-259 | the file name starts inside the path |
| Cart.LoadImage | sources/cart.cpp:278 | reading the battery file leaves an 8 KiB bank |
| Cart.KeptName | sources/cart.cpp:176 | the stored file name is a prefix of the path with at most 1023 characters |
| Cart.KeptImage | sources/cart.cpp:199-200 | zeroing title[15] keeps the image's length |
| Cart.Installed | sources/cart.cpp:199-203 | the installed image still holds the whole header |
| Cart.Cartridge.constructor | sources/cart.cpp:1-12 | the static context before loading: everything zero and no RAM allocated |
| Cart.Cartridge.NeedSave | sources/cart.cpp:13-15 | cart_need_save reports the need-save flag |
| Cart.Cartridge.ReadByte | sources/cart.cpp:313-345 | cart_read returns Read of the state, and nothing changes |
| Cart.Cartridge.BatterySave | sources/cart.cpp:283-311 | the active bank is recorded as saved under the battery path |
| Cart.Cartridge.BatteryLoad | sources/cart.cpp:252-281 | a missing file changes nothing; otherwise its bytes overwrite the start of the active bank |
| Cart.Cartridge.RamStore | sources/cart.cpp:388-403 | the state after an external-RAM write is RamWrite of the old state |
| Cart.Cartridge.WriteMbc1 | sources/cart.cpp:349-403 | the state after an MBC1 write is Mbc1Write of the old state |
| Cart.Cartridge.SetRomBank | sources/cart.cpp:355-365 | the ROM bank register and the window take the given bank |
| Cart.Cartridge.SetRamBankMbc1 | sources/cart.cpp:367-386 | the state after an MBC1 write to 0x4000-0x5FFF is Mbc1RamBank of the old state |
| Cart.Cartridge.SetModeMbc1 | sources/cart.cpp:367-386 | the state after an MBC1 write to 0x6000-0x7FFF is Mbc1Mode of the old state |
| Cart.Cartridge.WriteMbc3 | sources/cart.cpp:407-436 | the state after an MBC3 write is Mbc3Write of the old state |
| Cart.Cartridge.WriteByte | sources/cart.cpp:347-442 | the state after cart_write is Write of the old state |
| Cart.Cartridge.Load | sources/cart.cpp:174-250 | a file that cannot be opened keeps only the name; otherwise the image is installed, banks set up, and the battery file loaded when the type has a battery |
| Cart.Cartridge.Install | sources/cart.cpp:191-203 | the image is kept with title[15] zeroed, the battery flag from its type, and no save due |
| Cart.Cartridge.SetupBanking | sources/cart.cpp:153-172 | each slot gets a zeroed bank iff the RAM size code allocates it; bank 0 is active and bank 1 is the ROM window |
| Cart.HeaderChecksum | sources/cart.cpp:238-241 | the loop's result is the header checksum, x := x - rom[i] - 1 folded over 0x134..0x14C |
| Cart.ReadBankZero | sources/cart.cpp:313-316 | below 0x4000 the read is the image byte |
| Cart.ReadRomOnly | sources/cart.cpp:336-342 | without a controller the image is read directly, and 0xFF past its end |
| Cart.ReadUnsupported | sources/cart.cpp:343-345 | a type with no controller model reads 0xFF above bank 0 |
| Cart.ReadWindow | sources/cart.cpp:319-335 | on MBC1 and MBC3, 0x4000-0x7FFF reads the selected bank |
| Cart.RamGatedRead | sources/cart.cpp:320-331 | disabled or absent RAM reads 0xFF |
| Cart.RamGatedWrite | sources/cart.cpp:388-396 | disabled or absent RAM ignores writes |
| Cart.WriteValid | sources/cart.cpp:347-442 | every write keeps the cartridge well formed and the ROM image unchanged |
| Cart.Mbc1WriteValid | sources/cart.cpp:349-403 | every MBC1 write keeps the cartridge well formed and the ROM image unchanged |
| Cart.Mbc3WriteValid | sources/cart.cpp:407-436 | every MBC3 write keeps the cartridge well formed and the ROM image unchanged |
| Cart.RamWriteValid | sources/cart.cpp:388-403 | a RAM write keeps the cartridge well formed and the ROM image unchanged |
| Cart.RamReadAfterWrite | sources/cart.cpp:388-403 | an enabled RAM write reads back at its address, leaves every other RAM address unchanged, and sets need-save iff the cartridge has a battery |
| Cart.WriteInRam | sources/cart.cpp:388-433 | on MBC1 and MBC3 a write to 0xA000-0xBFFF is a RAM write |
| Cart.RamWriteReadBack | sources/cart.cpp:398-403 | the active bank after an enabled RAM write holds the byte at address - 0xA000 |
| Cart.RamWriteBytes | sources/cart.cpp:398-403 | the active bank after an enabled RAM write, byte by byte: the new byte there and the old ones elsewhere |
| Cart.RamOffsetInjective | sources/cart.cpp:398-403 | distinct RAM addresses have distinct offsets |
| Cart.Mbc3NeverNeedsSave | sources/cart.cpp:25-28 | a loaded MBC3 cartridge never marks a save as due |
| Cart.EnableLatch | sources/cart.cpp:351-353 | a write below 0x2000 sets the RAM enable latch to `(v & 0x0F) == 0x0A` on MBC1 and MBC3 |
| Cart.Mbc1RomSelect | sources/cart.cpp:355-365 | MBC1 ROM bank select moves the window to the coerced-then-masked bank, below 32 |
| Cart.Mbc1BankZero | sources/cart.cpp:355-365 | a raw 0 selects bank 1, but 0x20, 0x40, 0x60 and the like select bank 0 |
| Cart.Mbc3RomSelect | sources/cart.cpp:414-420 | MBC3 selects the low seven bits, with 0 made 1, so never bank 0 |
| Cart.Mbc1RamSelect | sources/cart.cpp:367-378 | the register takes the low two bits; the active bank follows only in RAM banking mode |
| Cart.Mbc1SwitchSaves | sources/cart.cpp:370-376 | an MBC1 bank switch first saves the old active bank when a save is due |
| Cart.Mbc1ModeSelect | sources/cart.cpp:379-386 | mode 1 re-applies the RAM bank register; mode 0 leaves the active bank unchanged |
| Cart.Mbc3RamSelect | sources/cart.cpp:422-428 | MBC3 switches the active RAM bank at once |
| Cart.Mbc3IgnoresLatch | sources/cart.cpp:407-436 | MBC3 ignores writes to 0x6000-0x7FFF |
| Cart.OtherTypesIgnoreWrites | sources/cart.cpp:347-442 | a cartridge without MBC1 or MBC3 ignores every write |
| Cart.BanksAllocated | sources/cart.cpp:153-172 | each RAM size code allocates its banks from slot 0 on, all zero, and none after them |
| Cart.LoadFullImage | sources/cart.cpp:278 | a full battery file read into any bank reproduces the file |
| Cart.SaveThenLoad | sources/cart.cpp:278-308 | saving the active bank and reading that file into a zeroed bank gives the bank back |
| Cart.LoadedShape | sources/cart.cpp:174-250 | loading leaves a well-formed cartridge whose image differs from the file only at title[15] |
| Cart.VerdictIgnoresStoredChecksum | sources/cart.cpp:238-243 | the printed verdict does not depend on the stored checksum byte at 0x14D |
| Cart.ChecksumOutside | sources/cart.cpp:238-241 | changing a byte outside 0x134..0x14C leaves the checksum unchanged |
| Cart.BatteryPathOfFile | sources/cart.cpp:255-268 | the battery file of "dir/name.ext" is "../roms/saves/name.battery" |
| Cart.LastIndexIs | sources/cart.cpp:255-258 | a position holding the character with none after it is the one strrchr finds |
| Dma.Idle | sources/dma.cpp:13 | the zero-initialised engine is inactive |
| Dma.Started | sources/dma.cpp:15-20 | a start is active from byte 0, with a delay of 2 and the given page |
| Dma.Step | sources/dma.cpp:22-39 | a tick keeps the transfer well formed |
| Dma.Run | sources/dma.cpp:22-39 | any number of ticks keep the transfer well formed |
| Dma.Controller.constructor | sources/dma.cpp:13 | the static context starts idle |
| Dma.Controller.Start | sources/dma.cpp:15-20 | after dma_start the state is Started(v), even during a transfer |
| Dma.Controller.Tick | sources/dma.cpp:22-39 | after dma_tick the engine is Next of the old engine and OAM is NextOam of the old OAM |
| Dma.Controller.Transferring | sources/dma.cpp:41-43 | dma_transferring reports the active flag |
| Dma.NextValid | sources/dma.cpp:36-37 | a tick keeps the next byte inside OAM while active |
| Dma.IdleTick | sources/dma.cpp:23-25 | an inactive engine ignores ticks |
| Dma.DelayTick | sources/dma.cpp:27-30 | during the delay a tick only counts down and copies nothing |
| Dma.CopyTickOam | sources/dma.cpp:33 | a copying tick stores the source byte at OAM offset `byte` and changes no other OAM byte |
| Dma.CopyTickDma | sources/dma.cpp:36-37 | a copying tick moves to the next byte and stops exactly when that would be 0xA0 |
| Dma.SourceIsPageOffset | sources/dma.cpp:33 | the source address is value * 0x100 + byte |
| Dma.StaysIdle | sources/dma.cpp:23-25 | once stopped, the engine stays stopped and OAM unchanged for any number of ticks |
| Dma.RunAdd | sources/dma.cpp:22-39 | m ticks after n ticks are n + m ticks |
| Dma.DelayDone | sources/dma.cpp:27-30 | two ticks after a start the delay is over and nothing is copied |
| Dma.CopiedState | sources/dma.cpp:33-37 | k copying ticks after the delay the engine is on byte k, active until k reaches 160 |
| Dma.Copied | sources/dma.cpp:33-37 | k copying ticks after the delay the first k OAM bytes hold the source bytes and the rest are unchanged |
| Dma.TransferTiming | sources/dma.cpp:15-43 | after a start the engine reports a transfer for the first 161 ticks and none from tick 162 on |
| Dma.TransferCopies | sources/dma.cpp:15-43 | when the transfer is over, OAM holds the 160 bytes from value * 0x100 on |
| Lcd.ModeCode | headers/lcd.hpp:35-42 | HBLANK, VBLANK, OAM and TRANSFER have codes below 4 |
| Lcd.Palette | sources/lcd.cpp:50-66 | a palette has four colours |
| Lcd.Offset | sources/lcd.cpp:39-47 | an address of the block has a register offset below 12 |
| Lcd.Controller.constructor | sources/lcd.cpp:5 | the zero-initialised context, wired to the DMA engine |
| Lcd.Controller.Init | sources/lcd.cpp:9-33 | the state after lcd_init is Initialized of the old state |
| Lcd.Controller.SetPowerOnRegisters | sources/lcd.cpp:11-25 | the registers take their power-on values; STAT and the DMA register are not touched |
| Lcd.Controller.SetControlRegisters | sources/lcd.cpp:11-17 | LCDC, the scroll registers, LY and LYC take their power-on values |
| Lcd.Controller.SetPaletteRegisters | sources/lcd.cpp:19-25 | BGP, OBP0, OBP1 and the window position take their power-on values |
| Lcd.Controller.ReadByte | sources/lcd.cpp:39-47 | lcd_read returns Read of the state |
| Lcd.Controller.SetPalette | sources/lcd.cpp:50-66 | the chosen colour table becomes Palette of the byte and the others are unchanged |
| Lcd.Controller.WriteByte | sources/lcd.cpp:68-98 | the state after lcd_write is Write of the old state, and a write to the DMA register starts a transfer from that page |
| Lcd.Controller.Mode | headers/lcd.hpp:75 | LCDS_MODE is the mode whose code is STAT & 3 |
| Lcd.Controller.SetMode | headers/lcd.hpp:76 | LCDS_MODE_SET puts the mode's code in bits 0-1 of STAT |
| Lcd.Controller.SetCoincidence | headers/lcd.hpp:79 | LCDS_LYC_SET sets bit 2 of STAT to the flag |
| Lcd.Overwrite | sources/lcd.cpp:62-65 | overwriting a colour table from a palette byte gives Palette of that byte |
| Lcd.ModeRoundTrip | headers/lcd.hpp:75-76 | the mode set in STAT reads back as that mode |
| Lcd.SetModeKeepsHighBits | headers/lcd.hpp:76 | LCDS_MODE_SET changes only bits 0-1 |
| Lcd.SetCoincidenceBits | headers/lcd.hpp:78-79 | LCDS_LYC_SET changes only bit 2, and LCDS_LYC reads it back |
| Lcd.StatSources | headers/lcd.hpp:81-86 | the STAT sources HBLANK, VBLANK, OAM and LYC are bits 3, 4, 5 and 6 |
| Lcd.DecodeEncode | headers/lcd.hpp:54-61 | the eight LCDC decoders lose nothing: LCDC is rebuilt from its decoded view |
| Lcd.PaletteEntries | sources/lcd.cpp:62-65 | entry i is ramp colour `(data >> 2i) & 3` |
| Lcd.InitValues | sources/lcd.cpp:9-33 | lcd_init leaves LCDC 0x91, BGP 0xFC, OBP0 and OBP1 0xFF, SCY, SCX, LY, LYC, WY and WX 0, and all colour tables the default ramp |
| Lcd.ReadAfterWrite | sources/lcd.cpp:39-72 | a register reads back what was written to it, and no other register changes |
| Lcd.ObjectColorZero | sources/lcd.cpp:85-95 | object palette writes keep colour 0 white while the register keeps all eight bits |
| Lcd.BackgroundPalette | sources/lcd.cpp:78-82 | BGP writes recompute the background colours from the whole byte |
| Lcd.OtherWritesKeepColors | sources/lcd.cpp:68-98 | writes outside BGP, OBP0 and OBP1 leave every colour table unchanged |
| Lcd.OnlyDmaRegisterStarts | sources/lcd.cpp:74-76 | only 0xFF46 starts DMA |
| Ppu.VramIndex | sources/ppu.cpp:82-92 | a VRAM address has an offset inside the 8 KiB |
| Ppu.VramBounds | sources/ppu.cpp:82-92 | a VRAM address lies in 0x8000-0x9FFF |
| Ppu.LcdAfterInit | sources/ppu.cpp:34-35 | the LCD after ppu_init is well formed |
| Ppu.Controller.constructor | sources/ppu.cpp:1-15 | the zero-initialised context, sharing the LCD controller |
| Ppu.Controller.Init | sources/ppu.cpp:17-39 | counters and pipeline reset, a fresh zeroed frame buffer, the LCD initialised and in OAM-scan mode, OAM zeroed |
| Ppu.Controller.ResetFields | sources/ppu.cpp:18-32 | the counters and pipeline are reset and the frame buffer is fresh and zero |
| Ppu.Controller.ResetCounters | sources/ppu.cpp:18-25 | current_frame, line_ticks, line_x and pushed_x are 0 |
| Ppu.Controller.ResetFetcher | sources/ppu.cpp:26-32 | the FIFO is empty, the fetcher at FS_TILE, and the sprite and window counters 0 |
| Ppu.Controller.Blank | sources/ppu.cpp:21-22 | a fresh frame buffer of 160 x 144 zero pixels |
| Ppu.Controller.ClearOam | sources/ppu.cpp:37 | every OAM byte is 0 |
| Ppu.Controller.Tick | sources/ppu.cpp:41-58 | exactly one handler is dispatched, that of the mode STAT held at the call, and it sees line_ticks one higher; what the handler then changes is left open |
| Ppu.Controller.OamWrite | sources/ppu.cpp:60-69 | OAM after the write is OamStore of the old OAM |
| Ppu.Controller.OamRead | sources/ppu.cpp:71-80 | the read is OamLoad of OAM |
| Ppu.Controller.VramWrite | sources/ppu.cpp:82-86 | VRAM after the write is VramStore of the old VRAM |
| Ppu.Controller.VramRead | sources/ppu.cpp:88-92 | the read is VramLoad of VRAM |
| Ppu.InitMode | sources/ppu.cpp:34-35 | after ppu_init the LCD is in OAM-scan mode with the lcd_init values |
| Ppu.OamRebase | sources/ppu.cpp:60-80 | offset i and bus address 0xFE00 + i name the same OAM byte |
| Ppu.OamReadAfterWrite | sources/ppu.cpp:60-80 | an OAM read after a write to the same byte returns the value, and other bytes are unchanged |
| Ppu.OamWriteOneByte | sources/ppu.cpp:60-69 | an OAM write leaves every other byte unchanged |
| Ppu.VramReadAfterWrite | sources/ppu.cpp:82-92 | a VRAM read returns the stored value at the written address and the old value elsewhere |
| Ppu.VramIndexInjective | sources/ppu.cpp:82-92 | distinct VRAM addresses have distinct offsets |
| Gamepad.Selected | sources/gamepad.cpp:26-29 | setting the selection never changes the keys |
| Gamepad.Controller.constructor | sources/gamepad.cpp:1-16 | both flags false and no key held |
| Gamepad.Controller.ButtonSelected | sources/gamepad.cpp:18-20 | reports the button flag |
| Gamepad.Controller.DirSelected | sources/gamepad.cpp:22-24 | reports the direction flag |
| Gamepad.Controller.SetSelected | sources/gamepad.cpp:26-29 | the state after the write is Selected of the old state |
| Gamepad.Controller.SetButtons | sources/gamepad.cpp:31-33 | a store through the address gamepad_get_state returns changes only the keys |
| Gamepad.Controller.GetOutput | sources/gamepad.cpp:35-78 | the register value is Output of the state, and the state is only read |
| Gamepad.ButtonRow | sources/gamepad.cpp:40-56 | the button half clears bits 3-0 for Start, Select, B and A |
| Gamepad.DirRow | sources/gamepad.cpp:58-74 | the direction half clears bits 3-0 for Down, Up, Left and Right |
| Gamepad.OutputOfRows | sources/gamepad.cpp:35-78 | 0xCF masked by the rows of the selected groups is the reference output |
| Gamepad.SelectedBits | sources/gamepad.cpp:26-29 | button_selected is bit 5 of the value and dir_selected bit 4 |
| Gamepad.OutputHighBits | sources/gamepad.cpp:38 | bits 7 and 6 always read 1 and bits 5 and 4 always read 0 |
| Gamepad.OutputLowBit | sources/gamepad.cpp:35-78 | low bit k reads 0 exactly when a key on that bit of a selected row is held |
| Gamepad.ButtonRowBits | sources/gamepad.cpp:40-56 | with bit 5 written 0, Start, Select, B and A clear bits 3, 2, 1, 0 |
| Gamepad.DirRowBits | sources/gamepad.cpp:58-74 | with bit 4 written 0, Down, Up, Left and Right clear bits 3, 2, 1, 0 |
| Gamepad.DeselectedRowsHidden | sources/gamepad.cpp:35-78 | with both rows deselected the output is 0xCF |
| Gamepad.IdleOutput | sources/gamepad.cpp:35-78 | the output is 0xCF exactly when no key of a selected row is held |
| Gamepad.NothingPressed | sources/gamepad.cpp:35-78 | with no key held the output is 0xCF |
| Io.Write | sources/io.cpp:53-98 | io_write keeps the I/O state well formed |
| Io.Controller.constructor | sources/io.cpp:9 | the serial bytes start at 0 with nothing forwarded |
| Io.Controller.ReadByte | sources/io.cpp:11-51 | io_read returns Read of the state and changes nothing |
| Io.Controller.WriteByte | sources/io.cpp:53-98 | the state after io_write is Write of the old state |
| Io.PortRanges | sources/io.cpp:11-51 | the timer is 0xFF04-0xFF07, the LCD 0xFF40-0xFF4B and sound 0xFF10-0xFF3F; the unmapped addresses are exactly the rest |
| Io.SilentPorts | sources/io.cpp:37-50 | sound, 0xFF7F and unmapped addresses read 0, and writes there change nothing |
| Io.JoypadPort | sources/io.cpp:13-15 | 0xFF00 reads the joypad output, and a write there sets the row selection |
| Io.ForwardedPorts | sources/io.cpp:25-31 | timer and interrupt-flag reads are theirs, and writes are handed to them in order |
| Io.LcdPorts | sources/io.cpp:33-35 | 0xFF40-0xFF4B use lcd_read and lcd_write, and 0xFF46 starts DMA |
| Io.ReadBack | sources/io.cpp:17-23 | 0xFF01, 0xFF02 and the LCD registers read back what was written |
| Io.WriteLocal | sources/io.cpp:53-98 | a write changes what no other I/O address reads |
| Bus.OamBounds | sources/bus.cpp:46-53 | an OAM bus address is inside the 160 bytes once rebased |
| Bus.Write | sources/bus.cpp:72-129 | bus_write keeps the bus state well formed |
| Bus.Write16 | sources/bus.cpp:138-140 | bus_write16 keeps the bus state well formed |
| Bus.Controller.constructor | sources/bus.cpp:1-23 | the bus over the given subsystems, with nothing forwarded |
| Bus.Controller.ReadByte | sources/bus.cpp:24-70 | bus_read returns Read of the state and changes nothing |
| Bus.Controller.WriteByte | sources/bus.cpp:72-129 | the state after bus_write is Write of the old state |
| Bus.Controller.WritePpu | sources/bus.cpp:84-110 | for a VRAM or OAM address, the state after the write is Write of the old state |
| Bus.Controller.WriteOther | sources/bus.cpp:94-127 | for WRAM, echo RAM, the unusable range, HRAM and IE, the state after the write is Write of the old state |
| Bus.Controller.WriteCart | sources/bus.cpp:79-91 | for a cartridge address, the state after the write is Write of the old state |
| Bus.Controller.Read16Bytes | sources/bus.cpp:131-136 | bus_read16 returns Read16 of the state and changes nothing |
| Bus.Controller.Write16Bytes | sources/bus.cpp:138-140 | the state after bus_write16 is Write16 of the old state |
| Bus.RegionRanges | sources/bus.cpp:24-70 | the cartridge owns 0x0000-0x7FFF and 0xA000-0xBFFF; VRAM is 0x8000-0x9FFF, WRAM 0xC000-0xDFFF, OAM 0xFE00-0xFE9F, I/O 0xFF00-0xFF7F and HRAM 0xFF80-0xFFFE |
| Bus.Reserved | sources/bus.cpp:42-57 | echo RAM and 0xFEA0-0xFEFF read 0, and writes there change nothing |
| Bus.DroppedWrite | sources/bus.cpp:74-77 | writes to 0xFF4C-0xFF7F are dropped |
| Bus.OamDuringDma | sources/bus.cpp:46-53 | while DMA is copying, OAM reads 0xFF and ignores writes |
| Bus.OamWithoutDma | sources/bus.cpp:46-53 | otherwise OAM reads and writes reach the PPU's OAM |
| Bus.CartRoute | sources/bus.cpp:26-36 | below 0x8000 and 0xA000-0xBFFF are the cartridge's, both ways |
| Bus.IoRoute | sources/bus.cpp:59-61 | 0xFF00-0xFF4B reach io both ways; 0xFF4C-0xFF7F only for reads |
| Bus.Read16Halves | sources/bus.cpp:131-136 | bus_read16 is little-endian, the high byte from a + 1 wrapping at 0xFFFF |
| Bus.VramReadBack | sources/bus.cpp:30-32 | a VRAM byte reads back what was written, and other VRAM bytes keep theirs |
| Bus.VramRead16AfterWrite16 | sources/bus.cpp:131-140 | a 16-bit write into VRAM reads back as the same word |
| Emu.Cycles | sources/main.cpp:100-114 | k cycles make 9k calls |
| Emu.Emulator.constructor | sources/main.cpp:100-114 | no ticks counted and no calls made |
| Emu.Emulator.RunCycles | sources/main.cpp:100-114 | ticks grow by 4n, the calls are Cycles(n), the PPU dispatches 4n more handlers, and DMA runs n steps over OAM; nothing happens for n <= 0 |
| Emu.Emulator.CpuCycle | sources/main.cpp:104-112 | one cycle: four timer and PPU ticks, the first dispatched on the mode STAT held at the start, then one DMA step over OAM |
| Emu.TickRatio | sources/main.cpp:100-114 | k cycles call timer_tick 4k times, ppu_tick 4k times and dma_tick k times |
| Emu.CycleCounts | sources/main.cpp:104-112 | one cycle calls timer_tick 4 times, ppu_tick 4 times and dma_tick once |
| Emu.CycleOrder | sources/main.cpp:104-112 | within a cycle timer and PPU alternate four times and DMA comes last |
| Emu.CycleAt | sources/main.cpp:102-113 | call i of k cycles is call i mod 9 of one cycle |
| Emu.NoCycles | sources/main.cpp:102 | a count of zero or less makes no call and no tick |
| Ui.GetDisplayRect | sources/ui.cpp:118-131 | the rectangle is DisplayRect of the window size |
| Ui.DestRect.constructor | sources/ui.cpp:118 | an empty rectangle |
| Ui.RectSize | sources/ui.cpp:119-128 | the scale is at least 1, and the rectangle is 160 x 144 at that scale |
| Ui.ScaleIsLargest | sources/ui.cpp:119-122 | in a window of at least 160 x 144 the screen fits, and one more step of scale would not |
| Ui.RectInside | sources/ui.cpp:129-130 | in a window of at least 160 x 144 the rectangle lies inside it, centred to within one pixel |
| Ui.NarrowWindow | sources/ui.cpp:119-130 | a window narrower than the screen gets scale 1 and a margin truncated toward zero |
| Ui.TruncDiv | sources/ui.cpp:129-130 | C's int division truncates toward zero for negative dividends |
| Ui.ToLower | sources/ui.cpp:33-37 | to_lower keeps the length |
| Ui.ToLowerIdempotent | sources/ui.cpp:33-37 | lowering twice is lowering once, and no upper-case letter is left |
| Ui.OccursAt | sources/ui.cpp:42-50 | `find != npos` holds exactly when the needle sits at some position of the string |
| Ui.PickIgnoresCase | sources/ui.cpp:40-53 | titles equal once lowered get the same background |
| Ui.PickOfLowered | sources/ui.cpp:40-53 | lowering the title first changes nothing |
| Ui.PickDefault | sources/ui.cpp:40-53 | the default image is chosen exactly when no theme name occurs |
| Ui.PokemonFirst | sources/ui.cpp:42-43 | a Pokemon title wins over every later theme |
| Ui.MarioSecond | sources/ui.cpp:44-45 | a title naming Mario and no Pokemon gets the Mario image |
| Ui.LastOf | sources/ui.cpp:172-173 | find_last_of gives a position holding one of the characters with none after it, or npos when none occurs |
| Ui.BasenameHasNoSeparator | sources/ui.cpp:172-182 | the basename holds no '/' or '\\' |
| Ui.BasenameWithoutSeparator | sources/ui.cpp:176-177 | without a separator the path is kept whole, extension and all |
| Ui.BasenameDropsExtension | sources/ui.cpp:178-182 | with a separator, the basename followed by the text from the last '.' is the file name |
| Ui.Picker.constructor | sources/ui.cpp:302-303 | the first entry selected with no scroll |
| Ui.Picker.KeyDown | sources/ui.cpp:311-312 | the selection after SDLK_DOWN is Down of the old one |
| Ui.Picker.KeyUp | sources/ui.cpp:315-316 | the selection after SDLK_UP is Up of the old one |
| Ui.Picker.FollowKeyDown | sources/ui.cpp:311-312 | the corrected DOWN key keeps the selection in the list and on screen |
| Ui.Picker.FollowKeyUp | sources/ui.cpp:315-316 | the corrected UP key keeps the selection in the list and on screen |
| Ui.NextIndex | sources/ui.cpp:311 | the next entry wraps from the last to the first |
| Ui.PrevIndex | sources/ui.cpp:315 | the previous entry wraps from the first to the last |
| Ui.KeysStayInList | sources/ui.cpp:311-316 | both keys keep the selection inside the list |
| Ui.UpDownInverse | sources/ui.cpp:311-316 | UP undoes DOWN and DOWN undoes UP, as far as the selected entry goes |
| Ui.Wraparound | sources/ui.cpp:311-316 | DOWN from the last entry selects the first, and UP from the first the last |
| Ui.KeysKeepOnScreen | sources/ui.cpp:311-316 | away from the wrap the keys keep the highlighted entry on screen |
| Ui.WrapLeavesScreen | sources/ui.cpp:311-316 | with 20 ROMs, UP from entry 0 selects entry 19 while rows 0-6 are drawn, and DOWN from entry 19 with scroll 13 selects entry 0 while rows 13-19 are drawn |
| Ui.FollowKeepsOnScreen | sources/ui.cpp:311-316 | the corrected keys keep the highlighted entry on screen and in the list, wrap or not |
| Ui.FollowAgrees | sources/ui.cpp:311-316 | away from the wrap, the corrected keys do what the code does |

## Left out

- SDL rendering, textures, fonts, event polling, the picker's drawing loop, the directory scan and `darken_surface` (floating point) are not modelled. They are foreign library calls and UI.
- Threads, the pause loop, `zenity_select_folder` and `main` are not modelled. They are process bootstrap and concurrency.
- File I/O is not modelled: the file contents and whether the file exists are parameters. `cart_load` receives the image, or None when it cannot be opened. Battery loading receives the file, or None. Saves are recorded in a trace.
- Diagnostic prints are not modelled. This covers the header table, the checksum line (only its verdict is modelled), the type and licence name tables, and the unsupported-address messages.
- The exit in `proc_none` and `NO_IMPL` becomes a failed result: `Execute` returns false, and an AM_D16_R form has no text.
- The register accessors and the stack (`cpu_read_reg`, `cpu_set_reg`, `stack_push`, `stack_pop`) are not part of this model. They are given their conventional meaning: pairs are `hi << 8 | lo` and the stack grows downwards.
- The timer, the interrupt-flag and IE registers, WRAM and HRAM are not part of this model. Their reads are parameters, and the writes they receive are recorded in order.
- The PPU mode handlers and the pixel pipeline are not part of this model. `ppu_tick` records which handler it dispatches to, in the `handled` trace, and the handler's effect on STAT, LY, the counters, the pipeline and the frame buffer is left open. The interrupts the handlers request and the sprite lists they build are not modelled. The `oam_entry` bit-field packing is replaced by a flat 160-byte OAM.
- Ppu.Controller.Tick, Emu.Emulator.RunCycles and Emu.Emulator.CpuCycle: because the handlers may change STAT, only the first dispatch of a call is tied to a mode; the later ones are counted but their modes are not stated.
- The DMA engine reads the bus through a function that does not change during a run of ticks. The interaction of DMA reads with the bus's own writes during a transfer is not modelled.
- The emulator's 64-bit tick counter and `int` overflow in `get_display_rect` are not modelled. Counters are unbounded integers.
- Sound registers are stubs in the source and read 0.
- Cart.Cartridge.ReadByte: requires the byte it reads to exist in the image, because the code never checks the selected ROM bank against the ROM size.
- Cart.Cartridge.WriteByte: requires an allocated active bank whenever an MBC1 RAM-bank switch saves it first, because the code would save through a bank that was never allocated.
- CpuProc.Cpu.BusWrite and CpuProc.Cpu.BusWrite16: the instruction handlers read and write a flat 64 KiB memory; the routing of `bus_write` is not applied to them. Cartridge registers below 0x8000, the dropped echo-RAM and unusable-range writes, the dropped 0xFF4C-0xFF7F writes, OAM blocked during DMA and the joypad register all behave like plain RAM there. So CpuProc.Read8AfterWrite8, CpuProc.IncAtHlStores, CpuProc.DecAtHlStores, CpuProc.CbResSetWrites, CpuProc.StackWordAfterPush16, CpuProc.PopAfterPush, CpuProc.PopAfterPushAf, CpuProc.RetAfterCall, CpuProc.RetAfterRst and CpuProc.LdhLoadAfterStore hold at every address in the model, but on the real bus only where the address is plain memory (VRAM, WRAM, HRAM, or cartridge RAM when enabled). The bus's own routing is modelled separately, in Bus.
- Cart.Cartridge.Load: requires a file longer than 0x14C bytes (at least 0x14D), because the code reads the header and the checksum range without checking the size; and, for a battery cartridge whose save file exists, at least one RAM bank, because the code would read the save into a bank that was never allocated.
- Bus.VramRead16AfterWrite16: stated for words wholly inside VRAM (a < 0x9FFF); at 0x9FFF the high byte goes to cartridge RAM.

## Findings

| source | as written | input that shows it | evidently intended | confidence | as-written member | corrected member |
|---|---|---|---|---|---|---|
| sources/ui.cpp:311-316 | UP and DOWN wrap the selection but move the scroll offset by at most one line, or only when the new entry is above the top | 20 ROMs, selection 0 with scroll 0: UP selects entry 19 with scroll still 0, so rows 0-6 are drawn and the highlighted ROM is not | the scroll offset follows the selection across the wrap, so the highlighted ROM is always drawn | medium, not executed | Ui.WrapLeavesScreen | Ui.FollowKeepsOnScreen |
