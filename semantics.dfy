/** The meaning of one `step` of src/cpu.c, as a function from the machine
    state before the instruction to the state after it, and `execute`'s
    loop as a fuel-bounded run. The operand bytes come from the program
    image; `ram` is the data memory. */
module Semantics {
  import opened Processor
  import opened Addressing
  import opened Instructions
  import Alu

  /** The registers and the data memory. */
  datatype State = State(regs: Registers, ram: Memory)

  /** The register state `execute` sets before its loop: a = x = y = 0,
      sp = 0xFF, pc = 0 and p = 0x34 (unused, B and I set). */
  function InitialRegisters(): (r: Registers)
    ensures r.a == 0 && r.x == 0 && r.y == 0 && r.sp == 0xFF && r.pc == 0
    ensures Byte(r.p) == 0x34
    ensures r.p.unused && r.p.b && r.p.i && !r.p.n && !r.p.v && !r.p.d && !r.p.z && !r.p.c
  {
    Registers(0, 0, 0, 0xFF, 0, FromByte(0x34))
  }

  /** The value of a data register. */
  function Get(reg: Register, r: Registers): bv8 {
    match reg
    case A => r.a
    case X => r.x
    case Y => r.y
  }

  /** The registers with a data register replaced. */
  function Set(reg: Register, r: Registers, v: bv8): (r': Registers)
    ensures Get(reg, r') == v
    ensures r'.p == r.p && r'.sp == r.sp && r'.pc == r.pc
    ensures forall other :: other != reg ==> Get(other, r') == Get(other, r)
  {
    match reg
    case A => r.(a := v)
    case X => r.(x := v)
    case Y => r.(y := v)
  }

  /** The `ram` index of the stack cell `0x0100 | sp`. */
  function StackCell(sp: bv8): (i: int)
    ensures 0x100 <= i < 0x200
    ensures i == 0x100 + sp as int
  {
    (0x0100 | sp as bv16) as int
  }

  /** The registers after one of the read helpers `ORA` ... `LDY`. */
  function ApplyRead(op: ReadOp, operand: bv8, r: Registers): Registers {
    match op
    case Ora => Alu.Ora(operand, r)
    case And => Alu.And(operand, r)
    case Eor => Alu.Eor(operand, r)
    case Adc => Alu.Adc(operand, r)
    case Sbc => Alu.Sbc(operand, r)
    case Cmp => Alu.Cmp(operand, r)
    case Cpx => Alu.Cpx(operand, r)
    case Cpy => Alu.Cpy(operand, r)
    case Bit => Alu.Bit(operand, r)
    case BitImmediate => Alu.BitImmediate(operand, r)
    case Lda => Alu.Lda(operand, r)
    case Ldx => Alu.Ldx(operand, r)
    case Ldy => Alu.Ldy(operand, r)
  }

  /** The byte to write back and the registers after one of the
      read-modify-write helpers. */
  function ApplyModify(op: ModifyOp, operand: bv8, r: Registers): (out: (bv8, Registers))
    ensures KeepsRegisters(r, out.1)
  {
    match op
    case Asl => Alu.Asl(operand, r)
    case Rol => Alu.Rol(operand, r)
    case Lsr => Alu.Lsr(operand, r)
    case Ror => Alu.Ror(operand, r)
    case Tsb => Alu.Tsb(operand, r)
    case Trb => Alu.Trb(operand, r)
    case Dec => Alu.Dec(operand, r)
  }

  /** The `case`s that fetch an operand and pass it to a read helper. */
  function ExecRead(op: ReadOp, m: Mode, prog: Memory, s: State): State {
    s.(regs := ApplyRead(op, Operand(m, prog, s.regs, s.ram), Past(m, s.regs)))
  }

  /** The read-modify-write `case`s: the `fetch*` helper reads the operand
      and moves pc past the operand bytes, the helper runs on it, pc moves
      back by the operand length, and the `store*` helper resolves the
      address again, writes the helper's result there and moves pc past
      the operand bytes once more. */
  function ExecModify(op: ModifyOp, m: Mode, prog: Memory, s: State): State
    requires m != Immediate
  {
    var out := ApplyModify(op, Operand(m, prog, s.regs, s.ram), Past(m, s.regs));
    Stored(m, prog, Rewound(State(out.1, s.ram), Length(m)), out.0)
  }

  /** The `store*` helpers on a whole state: the value written at the
      resolved address, pc moved past the operand bytes. */
  function Stored(m: Mode, prog: Memory, s: State, v: bv8): State
    requires m != Immediate
  {
    State(Past(m, s.regs), Addressing.Store(m, prog, s.regs, s.ram, v))
  }

  /** pc moved back by `n` bytes. */
  function Rewound(s: State, n: bv16): State {
    s.(regs := s.regs.(pc := Rewind(s.regs.pc, n)))
  }

  /** `registers->pc -= n`. */
  function Rewind(pc: bv16, n: bv16): bv16 {
    pc - n
  }

  /** Moving pc back over the operand bytes makes a read-modify-write
      instruction store where it fetched: the memory is what the `store*`
      helper writes from the registers before the instruction, and the
      registers are those the helper returned, pc past the operand bytes. */
  lemma ModifyStoresWhereItFetched(op: ModifyOp, m: Mode, prog: Memory, s: State)
    requires m != Immediate
    ensures ExecModify(op, m, prog, s)
      == State(ApplyModify(op, Operand(m, prog, s.regs, s.ram), Past(m, s.regs)).1,
               Addressing.Store(m, prog, s.regs, s.ram,
                 ApplyModify(op, Operand(m, prog, s.regs, s.ram), Past(m, s.regs)).0))
  {
    var out := ApplyModify(op, Operand(m, prog, s.regs, s.ram), Past(m, s.regs));
    StoreBackHitsFetched(m, prog, s.regs, out.1, s.ram, out.0);
  }

  /** After a `fetch*` helper and an ALU helper, which keeps x, y and pc,
      moving pc back by the operand length gives registers from which the
      `store*` helper of the same mode writes where the fetch read, and its
      own advance of pc brings pc back to where the ALU helper left it. */
  lemma StoreBackHitsFetched(m: Mode, prog: Memory, r: Registers, q: Registers, ram: Memory, v: bv8)
    requires m != Immediate
    requires KeepsIndexStackPc(Past(m, r), q)
    ensures Past(m, q.(pc := Rewind(q.pc, Length(m)))) == q
    ensures Addressing.Store(m, prog, q.(pc := Rewind(q.pc, Length(m))), ram, v) == Addressing.Store(m, prog, r, ram, v)
  {
    var rewound := q.(pc := Rewind(q.pc, Length(m)));
    RewoundPc(r.pc, q.pc, Length(m));
    AddressReadsPcAndIndexes(m, prog, r, rewound, ram);
    StoreReadsAddress(m, prog, rewound, r, ram, v);
  }

  /** A pc moved forward by n and then back by n is where it was, and
      moving it forward again gives the advanced pc. */
  lemma RewoundPc(pc: bv16, advanced: bv16, n: bv16)
    requires advanced == pc + n
    ensures Rewind(advanced, n) == pc
    ensures Rewind(advanced, n) + n == advanced
  {
    RewindUndoesAdvance(pc, n);
  }

  /** Moving pc back by what it was moved forward restores it. */
  lemma RewindUndoesAdvance(pc: bv16, n: bv16)
    ensures Rewind(pc + n, n) == pc
  {
  }

  /** `ASL A`, `ROL A`, `LSR A`, `ROR A`: the helper's result goes into a. */
  function ExecModifyAccumulator(op: ModifyOp, s: State): State {
    s.(regs := ApplyModify(op, s.regs.a, s.regs).1.(a := ApplyModify(op, s.regs.a, s.regs).0))
  }

  /** The byte a store instruction writes. */
  function StoredValue(src: Source, r: Registers): bv8 {
    match src
    case Reg(reg) => Get(reg, r)
    case ZeroByte => 0
  }

  /** `STA`, `STX`, `STY`, `STZ`. */
  function ExecStore(src: Source, m: Mode, prog: Memory, s: State): State
    requires m != Immediate
  {
    Stored(m, prog, s, StoredValue(src, s.regs))
  }

  /** A data register loaded with `v`, and N and Z set from `v` by
      `updateNegFlag` and `updateZeroFlag`: what the increments, the
      decrements, the transfers other than `TXS` and the pulls of a, x
      and y do once they have the new value. */
  function Loaded(reg: Register, r: Registers, v: bv8): Registers {
    Set(reg, r, v).(p := Alu.UpdateNZ(v, r.p))
  }

  /** `INC A`, `INX`, `INY` and the decrements: the register plus or minus
      one modulo 256, then N and Z from it. */
  function ExecStep(reg: Register, delta: bv8, s: State): State {
    s.(regs := Loaded(reg, s.regs, Get(reg, s.regs) + delta))
  }

  /** The register transfers; all but `TXS` update N and Z. */
  function ExecTransfer(t: TransferOp, r: Registers): Registers {
    match t
    case Tax => Loaded(X, r, r.a)
    case Tay => Loaded(Y, r, r.a)
    case Txa => Loaded(A, r, r.x)
    case Tya => Loaded(A, r, r.y)
    case Tsx => Loaded(X, r, r.sp)
    case Txs => r.(sp := r.x)
  }

  /** The byte a push instruction writes. */
  function Pushed(what: Stacked, r: Registers): bv8 {
    match what
    case StackA => r.a
    case StackX => r.x
    case StackY => r.y
    case StackP => Byte(r.p)
  }

  /** One push: write `v` at `0x0100 | sp`, then decrement sp. */
  function Push(s: State, v: bv8): State {
    State(s.regs.(sp := s.regs.sp - 1), s.ram[StackCell(s.regs.sp) := v])
  }

  /** `PHA`, `PHX`, `PHY`, `PHP`. */
  function ExecPush(what: Stacked, s: State): State {
    Push(s, Pushed(what, s.regs))
  }

  /** The registers after a pull has read `v`: the register gets it, and
      for a, x and y N and Z follow it. */
  function Pulled(what: Stacked, r: Registers, v: bv8): Registers {
    match what
    case StackA => Loaded(A, r, v)
    case StackX => Loaded(X, r, v)
    case StackY => Loaded(Y, r, v)
    case StackP => r.(p := FromByte(v))
  }

  /** The first half of a pull: increment sp. */
  function Raised(s: State): State {
    s.(regs := s.regs.(sp := s.regs.sp + 1))
  }

  /** The byte on top of the stack, at `0x0100 | sp`. */
  function Top(s: State): bv8 {
    s.ram[StackCell(s.regs.sp)]
  }

  /** `PLA`, `PLX`, `PLY`, `PLP`: increment sp, then read `0x0100 | sp`
      into the register. */
  function ExecPull(what: Stacked, s: State): State {
    var s' := Raised(s);
    s'.(regs := Pulled(what, s'.regs, Top(s')))
  }

  /** Whether a branch is taken. */
  predicate Holds(c: Condition, p: Flags) {
    match c
    case Always => true
    case WhenSet(f) => IsSet(p, f)
    case WhenClear(f) => !IsSet(p, f)
  }

  /** `SIGNED(operand)` widened to 16 bits, as `pc += SIGNED(operand)`
      adds it modulo 65536. */
  function SignExtend(v: bv8): bv16 {
    if v & 0x80 == 0 then v as bv16 else 0xFF00 | v as bv16
  }

  /** `pc += SIGNED(operand)`. */
  function Displaced(pc: bv16, operand: bv8): bv16 {
    pc + SignExtend(operand)
  }

  /** Where a branch leaves the program counter: past the displacement,
      plus the displacement when the branch is taken. */
  function BranchTarget(taken: bool, prog: Memory, pc: bv16): bv16 {
    if taken then Displaced(pc + 1, ProgramByte(prog, pc)) else pc + 1
  }

  /** The branches: read the displacement, then add it if the condition
      holds. */
  function ExecBranch(c: Condition, prog: Memory, s: State): State {
    s.(regs := s.regs.(pc := BranchTarget(Holds(c, s.regs.p), prog, s.regs.pc)))
  }

  /** `w & 0xFF` stored in a byte. */
  function Low(w: bv16): bv8 {
    (w & 0xFF) as bv8
  }

  /** How `BRK` and `JSR` push: write `v` at `ram[sp]`, in page 0 rather
      than the stack page, then decrement sp. */
  function PushPage0(s: State, v: bv8): State {
    State(s.regs.(sp := s.regs.sp - 1), s.ram[s.regs.sp as int := v])
  }

  /** The end of `BRK`: set I, clear D and load pc from 0xFFFE (low byte)
      and 0xFFFF (high byte). */
  function Vectored(s: State): State {
    s.(regs := s.regs.(p := Put(Put(s.regs.p, IrqDisable, true), Decimal, false),
                       pc := Word(s.ram[0xFFFE], s.ram[0xFFFF])))
  }

  /** `BRK`: skip the signature byte, then push the low byte of pc,
      `pc << 8` truncated to a byte (always 0) and p with B set, all in
      page 0; then `Vectored`. */
  function ExecBrk(s: State): State {
    var s1 := Advanced(s);
    Vectored(PushPage0(PushPage0(PushPage0(s1, Low(s1.regs.pc)), Low(s1.regs.pc << 8)), Byte(s1.regs.p) | 0x10))
  }

  /** The registers with pc set to `target`. */
  function Jumped(s: State, target: bv16): State {
    s.(regs := s.regs.(pc := target))
  }

  /** `JSR`: read the target; then, with pc at the target's high byte, push
      `pc << 8` truncated (always 0) and the low byte of pc, in page 0;
      jump. */
  function ExecJsr(prog: Memory, s: State): State {
    var s1 := Advanced(s);
    Jumped(PushPage0(PushPage0(s1, Low(s1.regs.pc << 8)), Low(s1.regs.pc)), OperandWord(prog, s.regs.pc))
  }

  /** How `RTI` pulls: decrement sp, then read `0x0100 | sp`. */
  function Lowered(s: State): State {
    s.(regs := s.regs.(sp := s.regs.sp - 1))
  }

  /** `RTI`: decrement sp before each of three reads from the stack page:
      p, then the low and the high byte of pc. */
  function ExecRti(s: State): State {
    var s1 := Lowered(s);
    var s2 := Lowered(s1.(regs := s1.regs.(p := FromByte(Top(s1)))));
    var s3 := Lowered(s2);
    Jumped(s3, Word(Top(s2), Top(s3)))
  }

  /** `(highbyte << 8 | lowbyte) + 1`: where `RTS` returns to. */
  function ReturnTarget(low: bv8, high: bv8): bv16 {
    Word(low, high) + 1
  }

  /** `RTS`: increment sp before each of two reads from the stack page, and
      jump one past the address read. */
  function ExecRts(s: State): State {
    var s1 := Raised(s);
    var s2 := Raised(s1);
    Jumped(s2, ReturnTarget(Top(s1), Top(s2)))
  }

  /** `(ram[address] << 8) | ram[address + 1]`: the indirect jump target,
      high byte first. `address + 1` is computed in `int`, so the source
      reads `ram[0x10000]` for address 0xFFFF; below it the sum does not
      wrap and is the same in 16 bits. */
  function BigEndianAt(ram: Memory, address: bv16): bv16
    requires address < 0xFFFF
  {
    Word(ram[(address + 1) as int], ram[address as int])
  }

  /** The address `JMP (a,x)` jumps through: the operand plus x, modulo
      65536. */
  function IndexedOperand(prog: Memory, pc: bv16, x: bv8): bv16 {
    OperandWord(prog, pc) + x as bv16
  }

  /** The conditions under which `step` has defined behaviour: `INC` on
      memory moves the `registers` pointer, and an indirect `JMP` through
      0xFFFF reads `ram[0x10000]`. */
  predicate Defined(ins: Instruction, prog: Memory, s: State) {
    WellFormed(ins)
    && !ins.IncrementMemory?
    && (ins.JmpIndirect? ==> OperandWord(prog, s.regs.pc) != 0xFFFF)
    && (ins.JmpIndexedIndirect? ==> IndexedOperand(prog, s.regs.pc, s.regs.x) != 0xFFFF)
  }

  /** `step`: the state after the instruction, once its opcode has been read. */
  function Exec(ins: Instruction, prog: Memory, s: State): State
    requires Defined(ins, prog, s)
  {
    match ins
    case Read(op, m) => ExecRead(op, m, prog, s)
    case Modify(op, m) => ExecModify(op, m, prog, s)
    case ModifyAccumulator(op) => ExecModifyAccumulator(op, s)
    case Store(src, m) => ExecStore(src, m, prog, s)
    case Increment(reg) => ExecStep(reg, 1, s)
    case Decrement(reg) => ExecStep(reg, 0xFF, s)
    case Transfer(t) => s.(regs := ExecTransfer(t, s.regs))
    case SetFlag(f) => s.(regs := s.regs.(p := Put(s.regs.p, f, true)))
    case ClearFlag(f) => s.(regs := s.regs.(p := Put(s.regs.p, f, false)))
    case Push(what) => ExecPush(what, s)
    case Pull(what) => ExecPull(what, s)
    case Branch(c) => ExecBranch(c, prog, s)
    case Brk => ExecBrk(s)
    case Jsr => ExecJsr(prog, s)
    case Rti => ExecRti(s)
    case Rts => ExecRts(s)
    case JmpAbsolute => Jumped(s, OperandWord(prog, s.regs.pc))
    case JmpIndirect => Jumped(s, BigEndianAt(s.ram, OperandWord(prog, s.regs.pc)))
    case JmpIndexedIndirect => Jumped(s, BigEndianAt(s.ram, IndexedOperand(prog, s.regs.pc, s.regs.x)))
    case Nop => s
    case Illegal => s
  }

  /** How a run of `execute`'s loop ended: the fetched opcode was 0, the
      next instruction has no defined behaviour, or the step budget ran out. */
  datatype Status = Halted | Stuck | OutOfFuel

  /** The state after the opcode at pc has been read: pc moved past it. */
  function Advanced(s: State): State {
    s.(regs := s.regs.(pc := s.regs.pc + 1))
  }

  /** How one turn of `execute`'s loop ends: it stops the loop, or it
      goes on from a new state. */
  datatype Turn = Stopped(status: Status, final: State) | Continued(next: State)

  /** One turn of `execute`'s loop: fetch the opcode at pc and move past
      it; stop if it is 0 or if `step` has no defined behaviour on it;
      otherwise run `step` on it. */
  function Cycle(prog: Memory, s: State): Turn {
    var opcode := ProgramByte(prog, s.regs.pc);
    if opcode == 0 then Stopped(Halted, Advanced(s))
    else if !Defined(Decode(opcode), prog, Advanced(s)) then Stopped(Stuck, Advanced(s))
    else Continued(Exec(Decode(opcode), prog, Advanced(s)))
  }

  /** A loop of at most `fuel` turns. */
  function Iterate(turn: State -> Turn, s: State, fuel: nat): (Status, State)
    decreases fuel
  {
    if fuel == 0 then (OutOfFuel, s)
    else match turn(s)
      case Stopped(status, t) => (status, t)
      case Continued(t) => Iterate(turn, t, fuel - 1)
  }

  /** `Cycle` over a program image, as a function of the state. */
  function Cycles(prog: Memory): State -> Turn {
    s => Cycle(prog, s)
  }

  /** `execute`'s loop with at most `fuel` turns. */
  function Run(prog: Memory, s: State, fuel: nat): (Status, State) {
    Iterate(Cycles(prog), s, fuel)
  }

  /** One turn of `Run`, unfolded: the proof step that lets the loop
      invariant of `Emulator.Cpu.Execute` advance by one turn. It adds no
      property of its own. */
  lemma RunUnfolds(prog: Memory, s: State, fuel: nat)
    requires fuel > 0
    ensures Run(prog, s, fuel) == match Cycle(prog, s)
      case Stopped(status, t) => (status, t)
      case Continued(t) => Run(prog, t, fuel - 1)
  {
  }
}
