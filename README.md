# tony6502 interpreter core in Dafny

A model of the 65C02 interpreter of tony6502 (src/cpu.c with the register
and flag definitions of src/cpu.h), and proofs about it.

The machine is a register record (8-bit `a`, `x`, `y`, `sp` and flag byte
`p`, 16-bit `pc`), a 64 KiB data memory `ram`, and a program image that
opcodes and operand bytes are read from by offset; the two memories are
never the same. `execute` sets the initial registers and calls `step` on
each fetched opcode until it fetches 0. `step` is one `switch` over the
opcode: operand instructions go through the `fetch*` / `store*` addressing
helpers and the ALU helpers `ADC` ... `TSB`; the rest move registers, push
and pull, branch, jump, and set or clear flags.

The project has two layers:

- **Values** (`Processor`, `Bcd`, `Alu`, `Addressing`, `Instructions`,
  `Semantics`): the flag byte as eight flags, the ALU helpers as functions
  from operand and registers to registers, the addressing modes, a decode
  table from each opcode to the instruction its `case` runs, and
  `Semantics.Exec`, the state after one `step`. `Semantics.Run` is
  `execute`'s loop bounded by a fuel count.
- **The interpreter as it runs** (`Emulator.Cpu`): a class with the
  register fields, the flag byte as a byte that `SetFlag`/`ClearFlag`
  update with `|=` and `&=`, the program image, and `ram` as an array
  written in place. Every method is proved to produce the state or value
  that the matching function of `Processor`, `Alu`, `Addressing` or
  `Semantics` gives. `Step` equals `Exec`, and
  `Execute` equals `Run`. The BCD converters are loops proved against
  the functions that describe them.

The model follows the code as written, including where it departs from
the 65C02 data sheet. `Properties` and the lemmas in `Alu`, `Bcd` and
`Addressing` state those departures:

- N follows bit 6 of the result (`updateNegFlag` tests 0x40).
- `BIT` always sets N and V.
- `CPY` takes N and Z from x.
- `ADC` takes N from the old accumulator, sets V on a change of bit 7,
  and misses the carry for a = 0xFF with C set.
- Binary `SBC` never sets V, and its C is "bit 7 clear".
- Decimal mode reads only bit 0 of each nibble.
- `BRK` and `JSR` push into page 0 (`ram[sp]`) with a high byte of 0,
  while `RTS` and `RTI` read the stack page; `RTI` also lowers sp before
  each read. A return after a call therefore does not come back to the
  caller (`Properties.RtsAfterJsr`, `Properties.RtiAfterBrk`).
- The indirect `JMP`s read their target high byte first
  (`Properties.IndirectJumpHighByteFirst`).

## Model

| member | source | states |
|---|---|---|
| Processor.Position | src/cpu.h:45-58 | each flag has a bit position below 8, and no flag uses bit 5 (layout NV-BDIZC) |
| Processor.ClearMask | src/cpu.h:24-30 | the constant of each `CLEAR_` macro is the complement of that flag's mask |
| Processor.Signed | src/cpu.h:32 | `SIGNED(b)` lies in -128..127 and is congruent to b modulo 256 |
| Processor.SignedRange | src/cpu.h:32 | `SIGNED(b)` is b below 128 and b - 256 from 128 on |
| Processor.FromByteOfByte | src/cpu.h:45-59 | reading back the byte of eight flags gives the same flags |
| Processor.ByteOfFromByte | src/cpu.h:45-59 | every byte `p` is the byte of its eight flags (the two views are inverse) |
| Processor.IsSetIsMask | src/cpu.h:8-14 | a test macro is nonzero iff its flag is set; the mask is `1 << position` |
| Processor.TestIsMacro | src/cpu.h:8-14 | `p & mask` is nonzero exactly when the flag read from byte `p` is set |
| Processor.SetIsMacro | src/cpu.h:16-22 | `p \|= mask` sets exactly that flag of the flags read from `p` |
| Processor.ClearIsMacro | src/cpu.h:24-30 | `p &= ~mask` clears exactly that flag of the flags read from `p` |
| Processor.PutOnlyItsFlag | src/cpu.h:16-30 | setting or clearing a flag gives it the new value and keeps the six others and bit 5 |
| Processor.MacrosIdempotent | src/cpu.h:16-30 | applying a `SET_` or `CLEAR_` macro twice equals applying it once |
| Bcd.BinToBcd | src/cpu.c:1411-1422 | the loop of `binToBCD` returns `PackedDigits(value)` |
| Bcd.BcdToBin | src/cpu.c:1424-1435 | the loop of `BCDToBin` returns `LowBitsAsDigits(value)` |
| Bcd.PackedDigitsIsDivision | src/cpu.c:1411-1422 | `binToBCD(v)` = 16 * ((v / 10) mod 10) + v mod 10 for every byte |
| Bcd.PackedDigitsExact | src/cpu.c:1411-1422 | for v up to 99 the high nibble is the tens digit and the low nibble the units digit |
| Bcd.LowBitsAsDigits | src/cpu.c:1424-1435 | `BCDToBin` never exceeds 11 |
| Bcd.LowBitsAsDigitsDigits | src/cpu.c:1424-1435 | `BCDToBin(v)` = (v & 1) + 10 * ((v >> 4) & 1): bit 0 of each nibble is its digit |
| Bcd.RoundTripOnlyForBinaryDigits | src/cpu.c:1411-1435 | `BCDToBin(binToBCD(v)) == v` iff v is 0, 1, 10 or 11 |
| Bcd.Remainder100 | src/cpu.c:1209-1210 | the `res %= 100` of decimal mode is below 100 |
| Bcd.RemainderIsModulo | src/cpu.c:1209-1210 | the subtraction form equals v mod 100 |
| Alu.UpdateNeg | src/cpu.c:1179-1183 | N becomes bit 6 of the result; no other flag changes |
| Alu.UpdateZero | src/cpu.c:1185-1188 | Z is set iff the result is 0; no other flag changes |
| Alu.UpdateNZ | src/cpu.c:1179-1188 | both updates together: N from bit 6, Z from zero, the rest kept |
| Alu.NegativeMissesSignBit | src/cpu.c:1179-1183 | a result of 0x80 clears N and a result of 0x40 sets it |
| Alu.Adc | src/cpu.c:1190-1222 | x, y, sp, pc and B, D, I are kept; N from the old a; Z from the binary sum; V iff bit 7 of a and of the sum differ |
| Alu.AdcBinary | src/cpu.c:1190-1222 | in binary mode a gets the 8-bit sum and C is set iff it is below the operand |
| Alu.AdcDecimal | src/cpu.c:1201-1211 | in decimal mode the sum of the `BCDToBin` values is at most 23, C is cleared, and a is that sum in packed BCD |
| Alu.AdcCarryMissedAtFF | src/cpu.c:1212-1219 | binary C equals the true carry out except for a = 0xFF with C set |
| Alu.SumBelowOperand | src/cpu.c:1217-1218 | "sum below operand" iff the 9-bit sum carries, except for a = 0xFF with carry in |
| Alu.AdcOverflowIsSignChange | src/cpu.c:1194-1196 | 1 + 0x80 sets V although -127 fits in a signed byte |
| Alu.Sbc | src/cpu.c:1358-1393 | a gets the difference (binary or decimal); C iff bit 7 of the result is clear; N and Z from the result; x, y, sp, pc and B, D, I kept |
| Alu.SbcOverflow | src/cpu.c:1372-1386 | the binary-mode V test can never set V |
| Alu.SbcBinary | src/cpu.c:1370-1386 | in binary mode a gets a - operand - !C and V is cleared |
| Alu.SbcDecimal | src/cpu.c:1363-1369 | in decimal mode V is set iff the `BCDToBin` difference borrows; a gets that difference mod 100 in packed BCD |
| Alu.SbcCarryIsSignBit | src/cpu.c:1389 | 0x80 - 0 with C set borrows nothing yet clears C |
| Alu.SignedNonNegative | src/cpu.c:1389 | `SIGNED(res) >= 0` iff bit 7 of res is clear |
| Alu.And | src/cpu.c:1224-1229 | the new a has exactly the bits set in both a and the operand; x, y, sp, pc, V, C and B, D, I are kept; N and Z follow a |
| Alu.AndIsBitwise | src/cpu.c:1224-1229 | bit k of the new a is set iff it is set in both a and the operand |
| Alu.Ora | src/cpu.c:1317-1322 | the new a has exactly the bits set in a or in the operand; other registers and flags as for `AND` |
| Alu.OraIsBitwise | src/cpu.c:1317-1322 | bit k of the new a is set iff it is set in either |
| Alu.Eor | src/cpu.c:1278-1283 | the new a xor the operand gives back the old a; other registers and flags as for `AND` |
| Alu.EorIsBitwise | src/cpu.c:1278-1283 | bit k of the new a is set iff it is set in exactly one |
| Alu.EorTwiceRestores | src/cpu.c:1278-1283 | `EOR` with the same operand twice restores a |
| Alu.Asl | src/cpu.c:1231-1240 | the result is the operand times 2 mod 256; C gets bit 7; N and Z from the result; registers and V kept |
| Alu.Lsr | src/cpu.c:1306-1315 | the result is the operand halved; C gets bit 0; N is always cleared; Z iff operand < 2 |
| Alu.Rol | src/cpu.c:1324-1339 | the result is 2 * operand + old C mod 256; C gets bit 7; N and Z from the result |
| Alu.Ror | src/cpu.c:1341-1356 | the result is operand / 2 + 128 * old C; C gets bit 0; N and Z from the result |
| Alu.RorUndoesRol | src/cpu.c:1324-1356 | `ROR` on the result and carry of `ROL` gives back the byte and the original carry |
| Alu.RolUndoesRor | src/cpu.c:1324-1356 | `ROL` on the result and carry of `ROR` gives back the byte and the original carry |
| Alu.Bit | src/cpu.c:1242-1249 | N and V are always set; Z iff a & operand == 0; registers, C and B, D, I kept |
| Alu.BitImmediate | src/cpu.c:517-519 | only Z changes, set iff a & operand == 0 |
| Alu.Cmp | src/cpu.c:1251-1258 | a is unchanged; C iff a >= operand unsigned; Z iff a == operand; N from bit 6 of a - operand |
| Alu.Cpx | src/cpu.c:1260-1267 | as `CMP`, on x |
| Alu.Cpy | src/cpu.c:1269-1276 | C compares y with the operand, but Z and N come from x - operand |
| Alu.Lda | src/cpu.c:1285-1290 | a gets the operand; x, y, sp, pc kept; N and Z from the operand, every other flag kept |
| Alu.Ldx | src/cpu.c:1292-1297 | x gets the operand; a, y, sp, pc kept; N and Z from the operand, every other flag kept |
| Alu.Ldy | src/cpu.c:1299-1304 | y gets the operand; a, x, sp, pc kept; N and Z from the operand, every other flag kept |
| Alu.Trb | src/cpu.c:1395-1401 | the result has a's bits cleared and the other bits of the operand; only Z changes, from a & operand |
| Alu.Tsb | src/cpu.c:1403-1409 | the result has a's bits set and the other bits of the operand; only Z changes, from a & operand |
| Alu.Dec | src/cpu.c:692-699 | the result plus 1 is the operand; registers kept; only N and Z change, from the result |
| Addressing.Length | src/cpu.c:899-1043 | every mode reads 1 or 2 operand bytes, and 2 exactly for the absolute modes |
| Addressing.Past | src/cpu.c:899-1177 | a `fetch*`/`store*` helper moves pc by the operand length and keeps every other register |
| Addressing.Store | src/cpu.c:1045-1177 | a store writes the value at the resolved address and leaves every other cell unchanged |
| Addressing.AddressReadsPcAndIndexes | src/cpu.c:899-1043 | the resolved address depends only on pc, x and y (and memory) |
| Addressing.WordIsSum | src/cpu.c:910-922 | `high << 8 \| low` is low + 0x100 * high |
| Addressing.WordIsLittleEndian | src/cpu.c:910-922 | as an integer, the word is low + 256 * high |
| Addressing.WordOfBytes | src/cpu.c:910-922 | splitting a word into bytes and joining them gives it back |
| Addressing.ZeroPageWraps | src/cpu.c:959-995 | the zero-page modes add x or y modulo 256 and stay in page 0 |
| Addressing.ByteSumWraps | src/cpu.c:970-995 | an 8-bit index sum, widened, is the 16-bit sum mod 256 |
| Addressing.IndexWraps | src/cpu.c:925-956 | adding an index to a 16-bit address wraps mod 65536 |
| Addressing.AbsoluteIsLittleEndian | src/cpu.c:910-922 | the absolute address is the first operand byte plus 256 times the second |
| Addressing.AbsoluteXWraps | src/cpu.c:925-939 | `a,x` is the absolute address plus x mod 65536 |
| Addressing.AbsoluteYWraps | src/cpu.c:942-956 | `a,y` is the absolute address plus y mod 65536 |
| Addressing.FetchAfterStore | src/cpu.c:899-1177 | fetching through a mode right after storing through it, with the same registers, reads the stored value, unless the store overwrote the pointer of an indirect mode |
| Semantics.InitialRegisters | src/cpu.c:13-18 | a = x = y = 0, sp = 0xFF, pc = 0, and p = 0x34: bit 5, B and I set, the other flags clear |
| Semantics.Set | src/cpu.c:27-886 | replacing a data register changes that register only |
| Semantics.StackCell | src/cpu.c:73-76 | `0x0100 \| sp` is the index 0x100 + sp, always in the stack page 0x100..0x1FF |
| Semantics.ApplyModify | src/cpu.c:1231-1409 | no read-modify-write helper changes a, x, y, sp or pc |
| Semantics.ModifyStoresWhereItFetched | src/cpu.c:67-72 | rewinding pc and storing through the same mode writes the result where the operand was read, and leaves pc past the operand |
| Semantics.StoreBackHitsFetched | src/cpu.c:94-98 | after the helper, pc moved back by the operand length resolves the fetched address again |
| Semantics.RewoundPc | src/cpu.c:94-98 | `pc -= n` after `pc += n` restores pc |
| Emulator.Cpu.constructor | src/cpu.c:13-18 | the registers start in `execute`'s initial state; ram holds the given contents |
| Emulator.Cpu.SetFlag | src/cpu.h:16-22 | `p \|= mask`, which sets exactly that flag |
| Emulator.Cpu.ClearFlag | src/cpu.h:24-30 | `p &= ~mask`, which clears exactly that flag |
| Emulator.Cpu.UpdateNegFlag | src/cpu.c:1179-1183 | p becomes `Alu.UpdateNeg` of the old flags |
| Emulator.Cpu.UpdateZeroFlag | src/cpu.c:1185-1188 | p becomes `Alu.UpdateZero` of the old flags |
| Emulator.Cpu.UpdateFlags | src/cpu.c:1179-1188 | both flag updates, in the order the source uses them |
| Emulator.Cpu.FetchImmediate | src/cpu.c:899-907 | returns the program byte at pc and advances pc by 1 |
| Emulator.Cpu.PointerAt | src/cpu.c:998-1009 | the pointer at zp: low byte at zp, high byte at zp + 1 with no page-0 wrap |
| Emulator.Cpu.ZeroPageAddress | src/cpu.c:959-967 | the address of `zp` |
| Emulator.Cpu.ZeroPageXAddress | src/cpu.c:970-981 | the address of `zp,x` |
| Emulator.Cpu.ZeroPageYAddress | src/cpu.c:984-995 | the address of `zp,y` |
| Emulator.Cpu.AbsoluteAddress | src/cpu.c:910-922 | the address of `a` |
| Emulator.Cpu.AbsoluteXAddress | src/cpu.c:925-939 | the address of `a,x` |
| Emulator.Cpu.AbsoluteYAddress | src/cpu.c:942-956 | the address of `a,y` |
| Emulator.Cpu.IndirectAddress | src/cpu.c:998-1009 | the address of `(zp)` |
| Emulator.Cpu.IndirectXAddress | src/cpu.c:1012-1027 | the address of `(zp,x)` |
| Emulator.Cpu.IndirectYAddress | src/cpu.c:1030-1043 | the address of `(zp),y` |
| Emulator.Cpu.ResolveAddress | src/cpu.c:910-1043 | the address each non-immediate mode resolves from the current registers and memory |
| Emulator.Cpu.FetchOperand | src/cpu.c:899-1043 | the `fetch*` helpers: returns the operand and moves only pc, by the operand length |
| Emulator.Cpu.StoreOperand | src/cpu.c:1045-1177 | the `store*` helpers: one cell written at the resolved address, pc moved past the operand, nothing else changed |
| Emulator.Cpu.WriteByte | src/cpu.c:1045-1177 | one `ram` cell replaced |
| Emulator.Cpu.RewindPc | src/cpu.c:94-98 | `registers->pc -= n` |
| Emulator.Cpu.Load | src/cpu.c:27-886 | writes a register record into the fields |
| Emulator.Cpu.ExecuteRead | src/cpu.c:63-66 | the fetch-then-helper `case`s leave the state `Semantics.ExecRead` gives |
| Emulator.Cpu.ExecuteModify | src/cpu.c:67-72 | fetch, helper, rewind and store leave the state `Semantics.ExecModify` gives |
| Emulator.Cpu.ExecuteModifyAccumulator | src/cpu.c:81-83 | `a = ASL(a)` and the other accumulator forms |
| Emulator.Cpu.ExecuteStore | src/cpu.c:500-502 | `STA`/`STX`/`STY`/`STZ` write the register (or 0) through the mode |
| Emulator.Cpu.LoadRegister | src/cpu.c:138-142 | a register loaded, then N and Z from its new value |
| Emulator.Cpu.Value | src/cpu.c:27-886 | returns the named data register |
| Emulator.Cpu.ExecuteStep | src/cpu.c:138-142 | `INC A`, `INX`, `INY` and the decrements wrap mod 256 and set N and Z |
| Emulator.Cpu.ExecuteTransfer | src/cpu.c:521-525 | the transfers copy a register and set N and Z, except `TXS` (src/cpu.c:564-566) |
| Emulator.Cpu.PushByte | src/cpu.c:73-76 | `ram[0x0100 \| sp] = v; sp--` |
| Emulator.Cpu.PushedByte | src/cpu.c:296-299 | the byte a push writes |
| Emulator.Cpu.ExecutePush | src/cpu.c:73-76 | `PHA`, `PHX`, `PHY`, `PHP` |
| Emulator.Cpu.PullByte | src/cpu.c:193-196 | `sp++`, then the byte at `0x0100 \| sp` |
| Emulator.Cpu.StorePulled | src/cpu.c:395-400 | the pulled byte goes into the register; N and Z follow it for a, x, y |
| Emulator.Cpu.ExecutePull | src/cpu.c:193-196 | `PLA`, `PLX`, `PLY`, `PLP` |
| Emulator.Cpu.Taken | src/cpu.c:100-106 | a branch's test is its flag macro on p |
| Emulator.Cpu.Displace | src/cpu.c:100-106 | reads the displacement and adds `SIGNED(operand)` when taken |
| Emulator.Cpu.ExecuteBranch | src/cpu.c:100-106 | the branches, including `BRA` (src/cpu.c:496-499) |
| Emulator.Cpu.Skip | src/cpu.c:34-35 | `pc++` |
| Emulator.Cpu.PushPage0 | src/cpu.c:37-38 | `ram[sp] = v; sp--` |
| Emulator.Cpu.Vector | src/cpu.c:45-51 | `SET_I`, `CLEAR_D`, then pc from 0xFFFE/0xFFFF |
| Emulator.Cpu.ExecuteBrk | src/cpu.c:33-52 | `BRK` leaves the state `Semantics.ExecBrk` gives |
| Emulator.Cpu.ExecuteJsr | src/cpu.c:159-174 | `JSR` leaves the state `Semantics.ExecJsr` gives |
| Emulator.Cpu.PullBelow | src/cpu.c:273-281 | `sp--`, then the byte at `0x0100 \| sp` |
| Emulator.Cpu.ExecuteRti | src/cpu.c:273-281 | `RTI` leaves the state `Semantics.ExecRti` gives |
| Emulator.Cpu.ExecuteRts | src/cpu.c:371-377 | `RTS` leaves the state `Semantics.ExecRts` gives |
| Emulator.Cpu.OperandAt | src/cpu.c:307-314 | the two operand bytes at pc, low byte first |
| Emulator.Cpu.ExecuteJmpAbsolute | src/cpu.c:307-314 | `JMP a` sets pc to the operand word |
| Emulator.Cpu.JumpThrough | src/cpu.c:408-420 | pc gets the word at the address, high byte first |
| Emulator.Cpu.ExecuteJmpIndirect | src/cpu.c:408-420 | `JMP (a)` jumps through the operand address |
| Emulator.Cpu.ExecuteJmpIndexedIndirect | src/cpu.c:472-485 | `JMP (a,x)` jumps through the operand address plus x |
| Emulator.Cpu.Step | src/cpu.c:27-886 | `step` on a defined instruction leaves exactly the state `Semantics.Exec` gives |
| Emulator.Cpu.StepOperand | src/cpu.c:53-72 | the addressing-mode `case`s |
| Emulator.Cpu.StepRegister | src/cpu.c:138-142 | the increments, decrements, transfers, pushes and pulls |
| Emulator.Cpu.StepJump | src/cpu.c:307-314 | the branches and jumps |
| Emulator.Cpu.StepSubroutine | src/cpu.c:159-174 | `BRK`, `JSR`, `RTI`, `RTS` |
| Emulator.Cpu.StepFlag | src/cpu.c:882-884 | the flag instructions, `NOP`, and opcodes without a `case`, which change nothing |
| Emulator.Cpu.CheckDefined | src/cpu.c:408-420 | whether `step` has defined behaviour on the instruction |
| Emulator.Cpu.FetchOpcode | src/cpu.c:20 | the opcode at pc, with pc past it |
| Emulator.Cpu.Turn | src/cpu.c:20-22 | one turn of the loop: halt on opcode 0, stop on undefined behaviour, otherwise `step` |
| Emulator.Cpu.Execute | src/cpu.c:3-25 | the loop, for at most `fuel` turns, ends in the status and state `Semantics.Run` gives |
| Properties.PullReadsPushed | src/cpu.c:296-299 | a push then a pull restores sp and reads back the pushed byte |
| Properties.PhpPlpRestores | src/cpu.c:193-196 | `PHP` then `PLP` restores the registers exactly |
| Properties.PushPullRestores | src/cpu.c:395-400 | `PHA`/`PLA`, `PHX`/`PLX` and `PHY`/`PLY` each restore every register; only N and Z are set from the register's value |
| Properties.PushWritesOneCell | src/cpu.c:73-76 | a push writes `0x0100 \| sp` and no other cell |
| Properties.PushPage0MissesStackPage | src/cpu.c:37-41 | a `BRK`/`JSR` push never writes above page 0 |
| Properties.BrkVectorsAndKeepsStackPage | src/cpu.c:33-52 | `BRK` jumps through 0xFFFE/0xFFFF, lowers sp by 3, and leaves everything above page 0 unchanged |
| Properties.JsrJumpsAndKeepsStackPage | src/cpu.c:159-174 | `JSR` jumps to the operand word, lowers sp by 2, and leaves everything above page 0 unchanged |
| Properties.RtiAfterBrk | src/cpu.c:273-281 | `RTI` after `BRK` lowers sp by 6 in all and reads p and pc from the stack-page cells at sp - 4, sp - 5 and sp - 6, which `BRK` did not write |
| Properties.RtsAfterJsr | src/cpu.c:371-377 | `RTS` after `JSR` restores sp but returns past the word already in the stack page, independent of the call site |
| Properties.DisplacedBySigned | src/cpu.c:100-106 | `pc += SIGNED(d)` moves forward by d below 0x80 and back by 256 - d otherwise |
| Properties.NegativeExtends | src/cpu.c:100-106 | a negative displacement adds minus its magnitude |
| Properties.SignExtendBytes | src/cpu.h:32 | the widened displacement keeps the byte and fills the high byte with its sign |
| Properties.BranchChangesOnlyPc | src/cpu.c:100-106 | a branch leaves ram and every register but pc unchanged |
| Properties.BranchFallsThrough | src/cpu.c:100-106 | when the flag test fails, pc moves past the one displacement byte: pc + 1 |
| Properties.BranchTakenForward | src/cpu.c:100-106 | when the flag test holds (always for `BRA`) and the displacement d is below 0x80, pc becomes pc + 1 + d |
| Properties.BranchTakenBackward | src/cpu.c:100-106 | when the flag test holds and d is 0x80 or more, pc becomes pc + 1 - (256 - d), modulo 65536 |
| Properties.BranchOpcodes | src/cpu.c:100-106 | 0x10, 0x30, 0x50, 0x70, 0x90, 0xB0, 0xD0, 0xF0 test N, V, C, Z clear or set, as `BPL` ... `BEQ` do, and 0x80 (`BRA`) always branches |
| Properties.IndirectJumpHighByteFirst | src/cpu.c:408-420 | `JMP (a)`, and `JMP (a,x)` at src/cpu.c:472-485, read the target as 256 times the byte at the address plus the byte after it: high byte first |
| Properties.LoadedTwice | src/cpu.c:138-142 | loading a register twice keeps only the second value |
| Properties.LoadedSame | src/cpu.c:521-525 | loading a register with its own value changes only N and Z |
| Properties.IncrementThenDecrement | src/cpu.c:254-258 | `INC A` then `DEC A` restores a and ram; only N and Z can differ |
| Properties.TaxTxaRestores | src/cpu.c:609-613 | `TAX` then `TXA` keeps a and leaves x equal to it |
| Properties.RunHaltsOnZero | src/cpu.c:20-22 | opcode 0 stops the loop, with pc one past it and nothing else changed |
| Properties.IterateMoreFuel | src/cpu.c:20-22 | once a loop stops for a reason other than fuel, more fuel changes nothing |
| Properties.RunMoreFuel | src/cpu.c:20-22 | once `execute` halts or gets stuck, more fuel changes nothing |
| Properties.DecodedIsDefined | src/cpu.c:27-886 | every opcode except the memory `INC`s and the indirect `JMP`s has defined behaviour from every state |
| Properties.DecodeIncrementMemory | src/cpu.c:796-803 | the memory `INC` opcodes are exactly 0xE6, 0xEE, 0xF6 and 0xFE |
| Instructions.Decode | src/cpu.c:27-886 | definition: the `case` of `step`'s `switch` each opcode reaches, as an instruction |
| Processor.Byte | src/cpu.h:45-59 | definition: the flag byte `p` of eight flags, bit 7 to bit 0 in the order NV-BDIZC |
| Processor.FromByte | src/cpu.h:45-59 | definition: the eight flags of a byte `p` |
| Processor.Put | src/cpu.h:16-30 | definition: `cond ? SET_f : CLEAR_f` on the flags |
| Bcd.PackedDigits | src/cpu.c:1411-1422 | definition: what `binToBCD` computes, by repeated subtraction of 100 and 10 |
| Alu.AdcResult | src/cpu.c:1190-1222 | definition: the byte `ADC` leaves in a, decimal or binary |
| Alu.AdcCarry | src/cpu.c:1203-1219 | definition: the carry `ADC` leaves, `res > 99` or `res < operand` |
| Alu.SbcResult | src/cpu.c:1358-1393 | definition: the byte `SBC` leaves in a, decimal or binary |
| Alu.SbcV | src/cpu.c:1363-1386 | definition: the overflow flag `SBC` leaves |
| Alu.RotateLeft | src/cpu.c:1324-1339 | definition: the byte `ROL` computes, the old carry in bit 0 |
| Alu.RotateRight | src/cpu.c:1341-1356 | definition: the byte `ROR` computes, the old carry in bit 7 |
| Addressing.Word | src/cpu.c:910-922 | definition: `highbyte << 8 \| lowbyte` |
| Addressing.OperandWord | src/cpu.c:910-922 | definition: the two program bytes at pc, low byte first |
| Addressing.Pointer | src/cpu.c:998-1009 | definition: the zero-page pointer at zp and zp + 1, with no page-0 wrap |
| Addressing.Address | src/cpu.c:910-1043 | definition: the address a non-immediate mode resolves from the registers |
| Addressing.Resolved | src/cpu.c:910-1043 | definition: the address of each mode from pc, x, y and memory |
| Addressing.Operand | src/cpu.c:899-1043 | definition: the byte a `fetch*` helper returns |
| Semantics.Exec | src/cpu.c:27-886 | definition: the state after `step` runs a defined instruction |
| Semantics.Defined | src/cpu.c:796-803 | definition: `step` has defined behaviour: no memory `INC`, no indirect `JMP` through 0xFFFF |
| Semantics.ExecRead | src/cpu.c:63-66 | definition: fetch the operand, then the read helper |
| Semantics.ExecModify | src/cpu.c:67-72 | definition: fetch, helper, pc moved back by the operand length, store through the same mode |
| Semantics.ExecBrk | src/cpu.c:33-52 | definition: `BRK` |
| Semantics.ExecJsr | src/cpu.c:159-174 | definition: `JSR` |
| Semantics.ExecRti | src/cpu.c:273-281 | definition: `RTI`, sp lowered before each of three stack-page reads |
| Semantics.ExecRts | src/cpu.c:371-377 | definition: `RTS`, sp raised before each of two stack-page reads, target + 1 |
| Semantics.Cycle | src/cpu.c:20-22 | definition: one turn of `execute`'s loop |
| Semantics.Iterate | src/cpu.c:20-22 | definition: a loop of at most `fuel` turns |
| Semantics.Run | src/cpu.c:3-25 | definition: `execute`'s loop over a program image, at most `fuel` turns |
| Emulator.Cpu.MovePc | src/cpu.c:899-1043 | pc moved past the operand bytes of a mode, nothing else changed |
| Instructions.DecodeWellFormed | src/cpu.c:27-886 | every opcode decodes to an instruction whose mode fits its kind (stores and read-modify-writes address memory) |

## Left out

- Reading the program file (`fpread`, `fseek`/`fread`, src/cpu.c:888-896): the program image is a 65536-byte value indexed by pc. A read past the end of the file gives an uninitialised byte in the source. In the model it gives whatever the image holds there.
- `execute`'s loop is unbounded (src/cpu.c:20-22). `Semantics.Run` and `Emulator.Cpu.Execute` take a fuel count and report `OutOfFuel` when it runs out, so a program that never fetches 0 is covered only up to that count.
- `INC` on memory (opcodes 0xE6, 0xEE, 0xF6, 0xFE, src/cpu.c:796-803, 823-830, 849-856, 874-881) moves the `registers` pointer, which is undefined behaviour. The model decodes these opcodes as `IncrementMemory`, which `Defined` excludes. The loop stops on them with status `Stuck`.
- `JMP (a)` and `JMP (a,x)` through address 0xFFFF read `ram[0x10000]`, past the array. They are also not `Defined` and end the loop with `Stuck`.
- RAM size: src/main.c allocates 0xFFFF bytes, yet `BRK` reads `ram[0xFFFF]`. The model's `ram` has 65536 cells.
- The same bound applies to the zero-page indirect modes: a pointer at 0xFF reads `ram[0x100]`. This is modelled, because it is inside 65536 cells.
- `notImplemented`/`illegalOpcode` (src/cpu.c:1437-1445) only print. An opcode without a `case` changes nothing beyond the opcode fetch.
- Output, file opening and exit codes of main.c: main.c is not part of this model.
- The top-level cpu.c and cpu.h are an earlier snapshot superseded by src/. They are not part of this model.
- Emulator.Cpu.ExecuteJmpIndirect and Emulator.Cpu.ExecuteJmpIndexedIndirect require a target pointer other than 0xFFFF. The source reads past the array there, as above.
- Emulator.Cpu.Step requires `Semantics.Defined`. Only the memory `INC`s and indirect jumps through 0xFFFF fail it; `Turn` checks it before calling `Step`.
