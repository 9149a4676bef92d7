/** The instruction set as the `switch` of `step` in src/cpu.c implements
    it: `Decode` maps each opcode byte to the instruction its `case` runs. */
module Instructions {
  import opened Processor
  import opened Addressing

  /** The helpers that read one operand and update the registers. */
  datatype ReadOp = Ora | And | Eor | Adc | Sbc | Cmp | Cpx | Cpy | Bit | BitImmediate | Lda | Ldx | Ldy

  /** The helpers whose result is written back: the shifts and rotates,
      `TSB`/`TRB`, and the memory decrement written inline in `step`. */
  datatype ModifyOp = Asl | Rol | Lsr | Ror | Tsb | Trb | Dec

  /** The three data registers. */
  datatype Register = A | X | Y

  /** What a store instruction writes: a register, or 0 for `STZ`. */
  datatype Source = Reg(reg: Register) | ZeroByte

  /** The register copies `TAX` ... `TXS`. */
  datatype TransferOp = Tax | Tay | Txa | Tya | Tsx | Txs

  /** The registers the push and pull instructions move. */
  datatype Stacked = StackA | StackX | StackY | StackP

  /** When a branch is taken. */
  datatype Condition = Always | WhenSet(f: Flag) | WhenClear(f: Flag)

  datatype Instruction =
    | Read(rop: ReadOp, mode: Mode)
    | Modify(mop: ModifyOp, mode: Mode)
    | ModifyAccumulator(mop: ModifyOp)
    | Store(src: Source, mode: Mode)
    | Increment(reg: Register)
    | Decrement(reg: Register)
    | Transfer(top: TransferOp)
    | SetFlag(f: Flag)
    | ClearFlag(f: Flag)
    | Push(what: Stacked)
    | Pull(what: Stacked)
    | Branch(cond: Condition)
    | Brk
    | Jsr
    | Rti
    | Rts
    | JmpAbsolute
    | JmpIndirect
    | JmpIndexedIndirect
    | Nop
    /** `INC` on memory: its `case` moves the `registers` pointer itself. */
    | IncrementMemory(mode: Mode)
    /** Every opcode without a `case`: `step` only reports it. */
    | Illegal

  /** The `case` of `step` each opcode reaches, looked up by the high
      nibble (the row of the opcode table) and then the low nibble. */
  function Decode(opcode: bv8): Instruction {
    match opcode >> 4
    case 0x0 => Row0(opcode & 0x0F)
    case 0x1 => Row1(opcode & 0x0F)
    case 0x2 => Row2(opcode & 0x0F)
    case 0x3 => Row3(opcode & 0x0F)
    case 0x4 => Row4(opcode & 0x0F)
    case 0x5 => Row5(opcode & 0x0F)
    case 0x6 => Row6(opcode & 0x0F)
    case 0x7 => Row7(opcode & 0x0F)
    case 0x8 => Row8(opcode & 0x0F)
    case 0x9 => Row9(opcode & 0x0F)
    case 0xA => RowA(opcode & 0x0F)
    case 0xB => RowB(opcode & 0x0F)
    case 0xC => RowC(opcode & 0x0F)
    case 0xD => RowD(opcode & 0x0F)
    case 0xE => RowE(opcode & 0x0F)
    case _ => RowF(opcode & 0x0F)
  }

  /** Opcodes 0x00 to 0x0F. */
  function Row0(low: bv8): Instruction {
    match low
    case 0x0 => Brk
    case 0x1 => Read(Ora, IndirectX)
    case 0x4 => Modify(Tsb, ZeroPage)
    case 0x5 => Read(Ora, ZeroPage)
    case 0x6 => Modify(Asl, ZeroPage)
    case 0x8 => Push(StackP)
    case 0x9 => Read(Ora, Immediate)
    case 0xA => ModifyAccumulator(Asl)
    case 0xC => Modify(Tsb, Absolute)
    case 0xD => Read(Ora, Absolute)
    case 0xE => Modify(Asl, Absolute)
    case _ => Illegal
  }

  /** Opcodes 0x10 to 0x1F. */
  function Row1(low: bv8): Instruction {
    match low
    case 0x0 => Branch(WhenClear(Negative))
    case 0x1 => Read(Ora, IndirectY)
    case 0x2 => Read(Ora, Indirect)
    case 0x4 => Modify(Trb, ZeroPage)
    case 0x5 => Read(Ora, ZeroPageX)
    case 0x6 => Modify(Asl, ZeroPageX)
    case 0x8 => ClearFlag(Carry)
    case 0x9 => Read(Ora, AbsoluteY)
    case 0xA => Increment(A)
    case 0xC => Modify(Trb, Absolute)
    case 0xD => Read(Ora, AbsoluteX)
    case 0xE => Modify(Asl, AbsoluteX)
    case _ => Illegal
  }

  /** Opcodes 0x20 to 0x2F. */
  function Row2(low: bv8): Instruction {
    match low
    case 0x0 => Jsr
    case 0x1 => Read(And, IndirectX)
    case 0x4 => Read(Bit, ZeroPage)
    case 0x5 => Read(And, ZeroPage)
    case 0x6 => Modify(Rol, ZeroPage)
    case 0x8 => Pull(StackP)
    case 0x9 => Read(And, Immediate)
    case 0xA => ModifyAccumulator(Rol)
    case 0xC => Read(Bit, Absolute)
    case 0xD => Read(And, Absolute)
    case 0xE => Modify(Rol, Absolute)
    case _ => Illegal
  }

  /** Opcodes 0x30 to 0x3F. */
  function Row3(low: bv8): Instruction {
    match low
    case 0x0 => Branch(WhenSet(Negative))
    case 0x1 => Read(And, IndirectY)
    case 0x2 => Read(And, Indirect)
    case 0x4 => Read(Bit, ZeroPageX)
    case 0x5 => Read(And, ZeroPageX)
    case 0x6 => Modify(Rol, ZeroPageX)
    case 0x8 => SetFlag(Carry)
    case 0x9 => Read(And, AbsoluteY)
    case 0xA => Decrement(A)
    case 0xC => Read(Bit, AbsoluteX)
    case 0xD => Read(And, AbsoluteX)
    case 0xE => Modify(Rol, AbsoluteX)
    case _ => Illegal
  }

  /** Opcodes 0x40 to 0x4F. */
  function Row4(low: bv8): Instruction {
    match low
    case 0x0 => Rti
    case 0x1 => Read(Eor, IndirectX)
    case 0x5 => Read(Eor, ZeroPage)
    case 0x6 => Modify(Lsr, ZeroPage)
    case 0x8 => Push(StackA)
    case 0x9 => Read(Eor, Immediate)
    case 0xA => ModifyAccumulator(Lsr)
    case 0xC => JmpAbsolute
    case 0xD => Read(Eor, Absolute)
    case 0xE => Modify(Lsr, Absolute)
    case _ => Illegal
  }

  /** Opcodes 0x50 to 0x5F. */
  function Row5(low: bv8): Instruction {
    match low
    case 0x0 => Branch(WhenClear(Overflow))
    case 0x1 => Read(Eor, IndirectY)
    case 0x2 => Read(Eor, Indirect)
    case 0x5 => Read(Eor, ZeroPageX)
    case 0x6 => Modify(Lsr, ZeroPageX)
    case 0x8 => ClearFlag(IrqDisable)
    case 0x9 => Read(Eor, AbsoluteY)
    case 0xA => Push(StackY)
    case 0xD => Read(Eor, AbsoluteX)
    case 0xE => Modify(Lsr, AbsoluteX)
    case _ => Illegal
  }

  /** Opcodes 0x60 to 0x6F. */
  function Row6(low: bv8): Instruction {
    match low
    case 0x0 => Rts
    case 0x1 => Read(Adc, IndirectX)
    case 0x4 => Store(ZeroByte, ZeroPage)
    case 0x5 => Read(Adc, ZeroPage)
    case 0x6 => Modify(Ror, ZeroPage)
    case 0x8 => Pull(StackA)
    case 0x9 => Read(Adc, Immediate)
    case 0xA => ModifyAccumulator(Ror)
    case 0xC => JmpIndirect
    case 0xD => Read(Adc, Absolute)
    case 0xE => Modify(Ror, Absolute)
    case _ => Illegal
  }

  /** Opcodes 0x70 to 0x7F. */
  function Row7(low: bv8): Instruction {
    match low
    case 0x0 => Branch(WhenSet(Overflow))
    case 0x1 => Read(Adc, IndirectY)
    case 0x2 => Read(Adc, Indirect)
    case 0x4 => Store(ZeroByte, ZeroPageX)
    case 0x5 => Read(Adc, ZeroPageX)
    case 0x6 => Modify(Ror, ZeroPageX)
    case 0x8 => SetFlag(IrqDisable)
    case 0x9 => Read(Adc, AbsoluteY)
    case 0xA => Pull(StackY)
    case 0xC => JmpIndexedIndirect
    case 0xD => Read(Adc, AbsoluteX)
    case 0xE => Modify(Ror, AbsoluteX)
    case _ => Illegal
  }

  /** Opcodes 0x80 to 0x8F. */
  function Row8(low: bv8): Instruction {
    match low
    case 0x0 => Branch(Always)
    case 0x1 => Store(Reg(A), IndirectX)
    case 0x4 => Store(Reg(Y), ZeroPage)
    case 0x5 => Store(Reg(A), ZeroPage)
    case 0x6 => Store(Reg(X), ZeroPage)
    case 0x8 => Decrement(Y)
    case 0x9 => Read(BitImmediate, Immediate)
    case 0xA => Transfer(Txa)
    case 0xC => Store(Reg(Y), Absolute)
    case 0xD => Store(Reg(A), Absolute)
    case 0xE => Store(Reg(X), Absolute)
    case _ => Illegal
  }

  /** Opcodes 0x90 to 0x9F. */
  function Row9(low: bv8): Instruction {
    match low
    case 0x0 => Branch(WhenClear(Carry))
    case 0x1 => Store(Reg(A), IndirectY)
    case 0x2 => Store(Reg(A), Indirect)
    case 0x4 => Store(Reg(Y), ZeroPageX)
    case 0x5 => Store(Reg(A), ZeroPageX)
    case 0x6 => Store(Reg(X), ZeroPageY)
    case 0x8 => Transfer(Tya)
    case 0x9 => Store(Reg(A), AbsoluteY)
    case 0xA => Transfer(Txs)
    case 0xC => Store(ZeroByte, Absolute)
    case 0xD => Store(Reg(A), AbsoluteX)
    case 0xE => Store(ZeroByte, AbsoluteX)
    case _ => Illegal
  }

  /** Opcodes 0xA0 to 0xAF. */
  function RowA(low: bv8): Instruction {
    match low
    case 0x0 => Read(Ldy, Immediate)
    case 0x1 => Read(Lda, IndirectX)
    case 0x2 => Read(Ldx, Immediate)
    case 0x4 => Read(Ldy, ZeroPage)
    case 0x5 => Read(Lda, ZeroPage)
    case 0x6 => Read(Ldx, ZeroPage)
    case 0x8 => Transfer(Tay)
    case 0x9 => Read(Lda, Immediate)
    case 0xA => Transfer(Tax)
    case 0xC => Read(Ldy, Absolute)
    case 0xD => Read(Lda, Absolute)
    case 0xE => Read(Ldx, Absolute)
    case _ => Illegal
  }

  /** Opcodes 0xB0 to 0xBF. */
  function RowB(low: bv8): Instruction {
    match low
    case 0x0 => Branch(WhenSet(Carry))
    case 0x1 => Read(Lda, IndirectY)
    case 0x2 => Read(Lda, Indirect)
    case 0x4 => Read(Ldy, ZeroPageX)
    case 0x5 => Read(Lda, ZeroPageX)
    case 0x6 => Read(Ldx, ZeroPageY)
    case 0x8 => ClearFlag(Overflow)
    case 0x9 => Read(Lda, AbsoluteY)
    case 0xA => Transfer(Tsx)
    case 0xC => Read(Ldy, AbsoluteX)
    case 0xD => Read(Lda, AbsoluteX)
    case 0xE => Read(Ldx, AbsoluteY)
    case _ => Illegal
  }

  /** Opcodes 0xC0 to 0xCF. */
  function RowC(low: bv8): Instruction {
    match low
    case 0x0 => Read(Cpy, Immediate)
    case 0x1 => Read(Cmp, IndirectX)
    case 0x4 => Read(Cpy, ZeroPage)
    case 0x5 => Read(Cmp, ZeroPage)
    case 0x6 => Modify(Dec, ZeroPage)
    case 0x8 => Increment(Y)
    case 0x9 => Read(Cmp, Immediate)
    case 0xA => Decrement(X)
    case 0xC => Read(Cpy, Absolute)
    case 0xD => Read(Cmp, Absolute)
    case 0xE => Modify(Dec, Absolute)
    case _ => Illegal
  }

  /** Opcodes 0xD0 to 0xDF. */
  function RowD(low: bv8): Instruction {
    match low
    case 0x0 => Branch(WhenClear(Zero))
    case 0x1 => Read(Cmp, IndirectY)
    case 0x2 => Read(Cmp, Indirect)
    case 0x5 => Read(Cmp, ZeroPageX)
    case 0x6 => Modify(Dec, ZeroPageX)
    case 0x8 => ClearFlag(Decimal)
    case 0x9 => Read(Cmp, AbsoluteY)
    case 0xA => Push(StackX)
    case 0xD => Read(Cmp, AbsoluteX)
    case 0xE => Modify(Dec, AbsoluteX)
    case _ => Illegal
  }

  /** Opcodes 0xE0 to 0xEF. */
  function RowE(low: bv8): Instruction {
    match low
    case 0x0 => Read(Cpx, Immediate)
    case 0x1 => Read(Sbc, IndirectX)
    case 0x4 => Read(Cpx, ZeroPage)
    case 0x5 => Read(Sbc, ZeroPage)
    case 0x6 => IncrementMemory(ZeroPage)
    case 0x8 => Increment(X)
    case 0x9 => Read(Sbc, Immediate)
    case 0xA => Nop
    case 0xC => Read(Cpx, Absolute)
    case 0xD => Read(Sbc, Absolute)
    case 0xE => IncrementMemory(Absolute)
    case _ => Illegal
  }

  /** Opcodes 0xF0 to 0xFF. */
  function RowF(low: bv8): Instruction {
    match low
    case 0x0 => Branch(WhenSet(Zero))
    case 0x1 => Read(Sbc, IndirectY)
    case 0x2 => Read(Sbc, Indirect)
    case 0x5 => Read(Sbc, ZeroPageX)
    case 0x6 => IncrementMemory(ZeroPageX)
    case 0x8 => SetFlag(Decimal)
    case 0x9 => Read(Sbc, AbsoluteY)
    case 0xA => Pull(StackX)
    case 0xD => Read(Sbc, AbsoluteX)
    case 0xE => IncrementMemory(AbsoluteX)
    case _ => Illegal
  }
  /** Every decoded instruction has a shape `step` gives meaning to: the
      read-modify-write and store instructions address memory, and the
      read-modify-write ones only through modes whose address does not
      depend on `ram`. */
  predicate WellFormed(ins: Instruction) {
    match ins
    case Read(op, m) => (op == BitImmediate ==> m == Immediate)
    case Modify(op, m) => m in {ZeroPage, ZeroPageX, Absolute, AbsoluteX}
    case ModifyAccumulator(op) => op in {Asl, Rol, Lsr, Ror}
    case Store(_, m) => m != Immediate
    case IncrementMemory(m) => m != Immediate
    case _ => true
  }

  /** Each row of the table decodes to well-formed instructions. */
  lemma Row0WellFormed(low: bv8)
    ensures WellFormed(Row0(low))
  {
  }

  lemma Row1WellFormed(low: bv8)
    ensures WellFormed(Row1(low))
  {
  }

  lemma Row2WellFormed(low: bv8)
    ensures WellFormed(Row2(low))
  {
  }

  lemma Row3WellFormed(low: bv8)
    ensures WellFormed(Row3(low))
  {
  }

  lemma Row4WellFormed(low: bv8)
    ensures WellFormed(Row4(low))
  {
  }

  lemma Row5WellFormed(low: bv8)
    ensures WellFormed(Row5(low))
  {
  }

  lemma Row6WellFormed(low: bv8)
    ensures WellFormed(Row6(low))
  {
  }

  lemma Row7WellFormed(low: bv8)
    ensures WellFormed(Row7(low))
  {
  }

  lemma Row8WellFormed(low: bv8)
    ensures WellFormed(Row8(low))
  {
  }

  lemma Row9WellFormed(low: bv8)
    ensures WellFormed(Row9(low))
  {
  }

  lemma RowAWellFormed(low: bv8)
    ensures WellFormed(RowA(low))
  {
  }

  lemma RowBWellFormed(low: bv8)
    ensures WellFormed(RowB(low))
  {
  }

  lemma RowCWellFormed(low: bv8)
    ensures WellFormed(RowC(low))
  {
  }

  lemma RowDWellFormed(low: bv8)
    ensures WellFormed(RowD(low))
  {
  }

  lemma RowEWellFormed(low: bv8)
    ensures WellFormed(RowE(low))
  {
  }

  lemma RowFWellFormed(low: bv8)
    ensures WellFormed(RowF(low))
  {
  }

  /** Every opcode decodes to a well-formed instruction. */
  lemma DecodeWellFormed(opcode: bv8)
    ensures WellFormed(Decode(opcode))
  {
    var low := opcode & 0x0F;
    match opcode >> 4
    case 0x0 => Row0WellFormed(low);
    case 0x1 => Row1WellFormed(low);
    case 0x2 => Row2WellFormed(low);
    case 0x3 => Row3WellFormed(low);
    case 0x4 => Row4WellFormed(low);
    case 0x5 => Row5WellFormed(low);
    case 0x6 => Row6WellFormed(low);
    case 0x7 => Row7WellFormed(low);
    case 0x8 => Row8WellFormed(low);
    case 0x9 => Row9WellFormed(low);
    case 0xA => RowAWellFormed(low);
    case 0xB => RowBWellFormed(low);
    case 0xC => RowCWellFormed(low);
    case 0xD => RowDWellFormed(low);
    case 0xE => RowEWellFormed(low);
    case _ => RowFWellFormed(low);
  }
}
