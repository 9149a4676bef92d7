/** The interpreter of src/cpu.c as it runs: a `Cpu` object holding the
    `Registers` record field by field, with the flag byte `p` as a byte
    that the `SET_`/`CLEAR_` macros update, the program image the opcodes
    and operand bytes are read from, and the data memory as an array
    written in place. Each method is proved to do what the function of
    `Addressing` or `Semantics` that describes it says. */
module Emulator {
  import opened Processor
  import opened Addressing
  import opened Instructions
  import Semantics
  import Alu

  class Cpu {
    var a: bv8
    var x: bv8
    var y: bv8
    var sp: bv8
    var pc: bv16
    var p: bv8
    /** The program image, read by offset. */
    const prog: Memory
    /** The data memory. */
    const ram: array<bv8>

    ghost predicate Valid()
      reads this
    {
      ram.Length == 0x10000
    }

    /** The register record, with the flag byte read as its eight flags. */
    function Regs(): Registers
      reads this
    {
      Registers(a, x, y, sp, pc, FromByte(p))
    }

    /** The registers and the contents of the data memory. */
    ghost function State(): Semantics.State
      reads this, ram
      requires Valid()
    {
      Semantics.State(Regs(), ram[..])
    }

    /** `execute`'s initial register state, over a program image and the
        initial contents of the data memory. */
    constructor (program: Memory, memory: Memory)
      ensures Valid() && fresh(ram)
      ensures prog == program && ram[..] == memory
      ensures Regs() == Semantics.InitialRegisters()
    {
      prog := program;
      ram := new bv8[0x10000](i requires 0 <= i < 0x10000 => memory[i]);
      a, x, y, sp, pc, p := 0x00, 0x00, 0x00, 0xFF, 0x0000, 0x34;
    }

    /** `SET_f(registers)`: `p |= mask`. */
    method SetFlag(f: Flag)
      modifies this`p
      ensures p == old(p) | Mask(f)
      ensures FromByte(p) == Put(old(FromByte(p)), f, true)
    {
      SetIsMacro(p, f);
      p := p | Mask(f);
    }

    /** `CLEAR_f(registers)`: `p &= ~mask`. */
    method ClearFlag(f: Flag)
      modifies this`p
      ensures p == old(p) & ClearMask(f)
      ensures FromByte(p) == Put(old(FromByte(p)), f, false)
    {
      ClearIsMacro(p, f);
      p := p & ClearMask(f);
    }

    /** `updateNegFlag`. */
    method UpdateNegFlag(result: bv8)
      modifies this`p
      ensures FromByte(p) == Alu.UpdateNeg(result, old(FromByte(p)))
    {
      if result & 0x40 != 0 { SetFlag(Negative); } else { ClearFlag(Negative); }
    }

    /** `updateZeroFlag`. */
    method UpdateZeroFlag(result: bv8)
      modifies this`p
      ensures FromByte(p) == Alu.UpdateZero(result, old(FromByte(p)))
    {
      if result == 0 { SetFlag(Zero); } else { ClearFlag(Zero); }
    }

    /** `fetchImmediate`: the program byte at pc, and pc past it. */
    method FetchImmediate() returns (b: bv8)
      modifies this`pc
      ensures b == ProgramByte(prog, old(pc))
      ensures pc == old(pc) + 1
    {
      b := prog[pc as int];
      pc := pc + 1;
    }

    /** The pointer the zero-page indirect modes read: `ram[zp]` is the low
        byte and `ram[zp + 1]` the high byte, with `zp + 1` computed in
        `int`, so a pointer at 0xFF takes its high byte from 0x100. */
    function PointerAt(zp: bv8): (w: bv16)
      reads this, ram
      requires Valid()
      ensures w == Pointer(ram[..], zp)
    {
      Word(ram[zp as int], ram[zp as int + 1])
    }

    /** `fetchZeroPage`'s address: the operand byte. */
    method ZeroPageAddress() returns (address: bv16)
      requires Valid()
      ensures address == Address(ZeroPage, prog, Regs(), ram[..])
    {
      var zp := ProgramByte(prog, pc);
      address := zp as bv16;
    }

    /** `fetchZeroPageX`'s address: the operand byte plus x, modulo 256. */
    method ZeroPageXAddress() returns (address: bv16)
      requires Valid()
      ensures address == Address(ZeroPageX, prog, Regs(), ram[..])
    {
      var zp := ProgramByte(prog, pc);
      zp := zp + x;
      address := zp as bv16;
    }

    /** `fetchZeroPageY`'s address: the operand byte plus y, modulo 256. */
    method ZeroPageYAddress() returns (address: bv16)
      requires Valid()
      ensures address == Address(ZeroPageY, prog, Regs(), ram[..])
    {
      var zp := ProgramByte(prog, pc);
      zp := zp + y;
      address := zp as bv16;
    }

    /** `fetchAbsolute`'s address: the two operand bytes, low byte first. */
    method AbsoluteAddress() returns (address: bv16)
      requires Valid()
      ensures address == Address(Absolute, prog, Regs(), ram[..])
    {
      address := OperandWord(prog, pc);
    }

    /** `fetchAbsoluteX`'s address: the absolute address plus x, modulo 65536. */
    method AbsoluteXAddress() returns (address: bv16)
      requires Valid()
      ensures address == Address(AbsoluteX, prog, Regs(), ram[..])
    {
      address := OperandWord(prog, pc);
      address := address + x as bv16;
    }

    /** `fetchAbsoluteY`'s address: the absolute address plus y, modulo 65536. */
    method AbsoluteYAddress() returns (address: bv16)
      requires Valid()
      ensures address == Address(AbsoluteY, prog, Regs(), ram[..])
    {
      address := OperandWord(prog, pc);
      address := address + y as bv16;
    }

    /** `fetchIndirect`'s address: the pointer at the operand byte. */
    method IndirectAddress() returns (address: bv16)
      requires Valid()
      ensures address == Address(Indirect, prog, Regs(), ram[..])
    {
      var zp := ProgramByte(prog, pc);
      address := PointerAt(zp);
    }

    /** `fetchIndirectX`'s address: the pointer at the operand byte plus x,
        modulo 256. */
    method IndirectXAddress() returns (address: bv16)
      requires Valid()
      ensures address == Address(IndirectX, prog, Regs(), ram[..])
    {
      var zp := ProgramByte(prog, pc);
      zp := zp + x;
      address := PointerAt(zp);
    }

    /** `fetchIndirectY`'s address: the pointer at the operand byte, plus y
        modulo 65536. */
    method IndirectYAddress() returns (address: bv16)
      requires Valid()
      ensures address == Address(IndirectY, prog, Regs(), ram[..])
    {
      var zp := ProgramByte(prog, pc);
      address := PointerAt(zp);
      address := address + y as bv16;
    }

    /** The address a non-immediate mode resolves, before pc moves. */
    method ResolveAddress(m: Mode) returns (address: bv16)
      requires Valid() && m != Immediate
      ensures address == Address(m, prog, Regs(), ram[..])
    {
      match m {
        case ZeroPage => address := ZeroPageAddress();
        case ZeroPageX => address := ZeroPageXAddress();
        case ZeroPageY => address := ZeroPageYAddress();
        case Absolute => address := AbsoluteAddress();
        case AbsoluteX => address := AbsoluteXAddress();
        case AbsoluteY => address := AbsoluteYAddress();
        case Indirect => address := IndirectAddress();
        case IndirectX => address := IndirectXAddress();
        case IndirectY => address := IndirectYAddress();
      }
    }

    /** The `fetch*` helpers: the operand, with pc moved past the operand
        bytes. */
    method FetchOperand(m: Mode) returns (operand: bv8)
      requires Valid()
      modifies this`pc
      ensures operand == Operand(m, prog, old(Regs()), ram[..])
      ensures Regs() == Past(m, old(Regs()))
    {
      if m == Immediate {
        operand := ProgramByte(prog, pc);
      } else {
        var address := ResolveAddress(m);
        operand := ram[address as int];
      }
      assert operand == Operand(m, prog, Regs(), ram[..]);
      MovePc(m);
    }

    /** pc moved forward past the operand bytes of `m`. */
    method MovePc(m: Mode)
      modifies this`pc
      ensures Regs() == Past(m, old(Regs()))
    {
      pc := pc + Length(m);
    }

    /** The `store*` helpers: the value written at the resolved address,
        with pc moved past the operand bytes. */
    method StoreOperand(m: Mode, value: bv8)
      requires Valid() && m != Immediate
      modifies this`pc, ram
      ensures State() == Semantics.Stored(m, prog, old(State()), value)
    {
      var address := ResolveAddress(m);
      MovePc(m);
      WriteByte(address as int, value);
    }

    /** One byte of `ram` written. */
    method WriteByte(i: int, value: bv8)
      requires Valid() && 0 <= i < 0x10000
      modifies ram
      ensures ram[..] == old(ram[..])[i := value]
    {
      ram[i] := value;
    }

    /** `registers->pc -= n`. */
    method RewindPc(n: bv16)
      requires Valid()
      modifies this`pc
      ensures State() == Semantics.Rewound(old(State()), n)
    {
      pc := Semantics.Rewind(pc, n);
    }

    /** Writes a register record back into the fields, the flags as the
        byte `p`. */
    method Load(r: Registers)
      modifies this
      ensures Regs() == r && p == Byte(r.p)
    {
      FromByteOfByte(r.p);
      a, x, y, sp, pc, p := r.a, r.x, r.y, r.sp, r.pc, Byte(r.p);
    }

    /** The `case`s that fetch an operand and pass it to a read helper. */
    method ExecuteRead(op: ReadOp, m: Mode)
      requires Valid()
      modifies this
      ensures State() == Semantics.ExecRead(op, m, prog, old(State()))
    {
      var operand := FetchOperand(m);
      Load(Semantics.ApplyRead(op, operand, Regs()));
    }

    /** The read-modify-write `case`s: fetch the operand, run the helper,
        move pc back over the operand bytes and store through the same
        mode, which resolves the address the fetch did
        (`Semantics.StoreBackHitsFetched`). */
    method ExecuteModify(op: ModifyOp, m: Mode)
      requires Valid() && m != Immediate
      modifies this, ram
      ensures State() == Semantics.ExecModify(op, m, prog, old(State()))
    {
      var operand := FetchOperand(m);
      var out := Semantics.ApplyModify(op, operand, Regs());
      Load(out.1);
      RewindPc(Length(m));
      StoreOperand(m, out.0);
    }

    /** `ASL A`, `ROL A`, `LSR A`, `ROR A`: the helper's result goes into a. */
    method ExecuteModifyAccumulator(op: ModifyOp)
      requires Valid()
      modifies this
      ensures State() == Semantics.ExecModifyAccumulator(op, old(State()))
    {
      var out := Semantics.ApplyModify(op, a, Regs());
      Load(out.1.(a := out.0));
    }

    /** `STA`, `STX`, `STY`, `STZ`. */
    method ExecuteStore(src: Source, m: Mode)
      requires Valid() && m != Immediate
      modifies this`pc, ram
      ensures State() == Semantics.ExecStore(src, m, prog, old(State()))
    {
      var value := Semantics.StoredValue(src, Regs());
      StoreOperand(m, value);
    }

    /** `updateNegFlag` then `updateZeroFlag` on the same result. */
    method UpdateFlags(result: bv8)
      modifies this`p
      ensures FromByte(p) == Alu.UpdateNZ(result, old(FromByte(p)))
    {
      UpdateNegFlag(result);
      UpdateZeroFlag(result);
    }

    /** A data register loaded with `v`, then `updateNegFlag` and
        `updateZeroFlag` on `v`. */
    method LoadRegister(reg: Register, v: bv8)
      modifies this`a, this`x, this`y, this`p
      ensures Regs() == Semantics.Loaded(reg, old(Regs()), v)
    {
      match reg {
        case A => a := v;
        case X => x := v;
        case Y => y := v;
      }
      UpdateFlags(v);
    }

    /** The value of a data register. */
    method Value(reg: Register) returns (v: bv8)
      ensures v == Semantics.Get(reg, Regs())
    {
      match reg {
        case A => v := a;
        case X => v := x;
        case Y => v := y;
      }
    }

    /** `INC A`, `INX`, `INY`, `DEC A`, `DEX`, `DEY`: `++` or `--` on the
        register, then N and Z from its new value. */
    method ExecuteStep(reg: Register, delta: bv8)
      requires Valid()
      modifies this
      ensures State() == Semantics.ExecStep(reg, delta, old(State()))
    {
      var v := Value(reg);
      LoadRegister(reg, v + delta);
    }

    /** `TAX`, `TAY`, `TXA`, `TYA`, `TSX`, `TXS`. */
    method ExecuteTransfer(t: TransferOp)
      requires Valid()
      modifies this
      ensures State() == old(State()).(regs := Semantics.ExecTransfer(t, old(Regs())))
    {
      match t {
        case Tax => LoadRegister(X, a);
        case Tay => LoadRegister(Y, a);
        case Txa => LoadRegister(A, x);
        case Tya => LoadRegister(A, y);
        case Tsx => LoadRegister(X, sp);
        case Txs => sp := x;
      }
    }

    /** One push: `ram[0x0100 | sp] = v`, then `sp--`. */
    method PushByte(v: bv8)
      requires Valid()
      modifies this`sp, ram
      ensures State() == Semantics.Push(old(State()), v)
    {
      ram[Semantics.StackCell(sp)], sp := v, sp - 1;
    }

    /** The byte a push instruction writes. */
    method PushedByte(what: Stacked) returns (v: bv8)
      ensures v == Semantics.Pushed(what, Regs())
    {
      match what {
        case StackA => v := a;
        case StackX => v := x;
        case StackY => v := y;
        case StackP => ByteOfFromByte(p); v := p;
      }
    }

    /** `PHA`, `PHX`, `PHY`, `PHP`. */
    method ExecutePush(what: Stacked)
      requires Valid()
      modifies this`sp, ram
      ensures State() == Semantics.ExecPush(what, old(State()))
    {
      var v := PushedByte(what);
      PushByte(v);
    }

    /** The first half of a pull: `sp++`, then the byte at
        `ram[0x0100 | sp]`. */
    method PullByte() returns (v: bv8)
      requires Valid()
      modifies this`sp
      ensures State() == Semantics.Raised(old(State()))
      ensures v == Semantics.Top(State())
    {
      sp := sp + 1;
      v := ram[Semantics.StackCell(sp)];
    }

    /** The second half of a pull: the register gets the pulled byte; for
        a, x and y N and Z follow it. */
    method StorePulled(what: Stacked, v: bv8)
      modifies this`a, this`x, this`y, this`p
      ensures Regs() == Semantics.Pulled(what, old(Regs()), v)
    {
      match what {
        case StackA => LoadRegister(A, v);
        case StackX => LoadRegister(X, v);
        case StackY => LoadRegister(Y, v);
        case StackP => p := v;
      }
    }

    /** `PLA`, `PLX`, `PLY`, `PLP`. */
    method ExecutePull(what: Stacked)
      requires Valid()
      modifies this`a, this`x, this`y, this`sp, this`p
      ensures State() == Semantics.ExecPull(what, old(State()))
    {
      var v := PullByte();
      StorePulled(what, v);
    }

    /** Whether a branch's flag test holds: `p & mask` for the flag. */
    method Taken(c: Condition) returns (taken: bool)
      ensures taken == Semantics.Holds(c, FromByte(p))
    {
      match c {
        case Always => taken := true;
        case WhenSet(f) => TestIsMacro(p, f); taken := p & Mask(f) != 0;
        case WhenClear(f) => TestIsMacro(p, f); taken := p & Mask(f) == 0;
      }
    }

    /** Fetch the displacement, then `pc += SIGNED(operand)` if `taken`. */
    method Displace(taken: bool)
      modifies this`pc
      ensures pc == Semantics.BranchTarget(taken, prog, old(pc))
    {
      var operand := FetchImmediate();
      if taken {
        pc := Semantics.Displaced(pc, operand);
      }
    }

    /** The branches. */
    method ExecuteBranch(c: Condition)
      requires Valid()
      modifies this`pc
      ensures State() == Semantics.ExecBranch(c, prog, old(State()))
    {
      var taken := Taken(c);
      Displace(taken);
    }

    /** `registers->pc++`. */
    method Skip()
      requires Valid()
      modifies this`pc
      ensures State() == Semantics.Advanced(old(State()))
    {
      pc := pc + 1;
    }

    /** How `BRK` and `JSR` push: `ram[sp] = v`, then `sp--`. */
    method PushPage0(v: bv8)
      requires Valid()
      modifies this`sp, ram
      ensures State() == Semantics.PushPage0(old(State()), v)
    {
      ram[sp as int], sp := v, sp - 1;
    }

    /** The end of `BRK`: `SET_I`, `CLEAR_D`, then pc from the bytes at
        0xFFFE (low) and 0xFFFF (high). */
    method Vector()
      requires Valid()
      modifies this`p, this`pc
      ensures State() == Semantics.Vectored(old(State()))
    {
      SetFlag(IrqDisable);
      ClearFlag(Decimal);
      var low, high := ram[0xFFFE], ram[0xFFFF];
      pc := Word(low, high);
    }

    /** `BRK`: skip the signature byte; push `pc & 0xFF`, `pc << 8` and
        `p | 0x10` in page 0; `Vector`. */
    method ExecuteBrk()
      requires Valid()
      modifies this, ram
      ensures State() == Semantics.ExecBrk(old(State()))
    {
      Skip();
      PushPage0(Semantics.Low(pc));
      PushPage0(Semantics.Low(pc << 8));
      ByteOfFromByte(p);
      PushPage0(p | 0x10);
      Vector();
    }

    /** `JSR`: read the target's two bytes, leaving pc on the second; push
        `pc << 8` and `pc & 0xFF` in page 0; jump. */
    method ExecuteJsr()
      requires Valid()
      modifies this, ram
      ensures State() == Semantics.ExecJsr(prog, old(State()))
    {
      var target := OperandAt();
      Skip();
      PushPage0(Semantics.Low(pc << 8));
      PushPage0(Semantics.Low(pc));
      pc := target;
    }

    /** How `RTI` pulls: `sp--`, then the byte at `ram[0x0100 | sp]`. */
    method PullBelow() returns (v: bv8)
      requires Valid()
      modifies this`sp
      ensures State() == Semantics.Lowered(old(State()))
      ensures v == Semantics.Top(State())
    {
      sp := sp - 1;
      v := ram[Semantics.StackCell(sp)];
    }

    /** `RTI`: p, then the low and the high byte of pc, each read after
        `sp--`. */
    method ExecuteRti()
      requires Valid()
      modifies this`sp, this`p, this`pc
      ensures State() == Semantics.ExecRti(old(State()))
    {
      p := PullBelow();
      var low := PullBelow();
      var high := PullBelow();
      pc := Word(low, high);
    }

    /** `RTS`: the low and the high byte, each read after `sp++`; jump one
        past the address read. */
    method ExecuteRts()
      requires Valid()
      modifies this`sp, this`pc
      ensures State() == Semantics.ExecRts(old(State()))
    {
      var low := PullByte();
      var high := PullByte();
      pc := Semantics.ReturnTarget(low, high);
    }

    /** The two operand bytes at pc, low byte first, as `JSR` and `JMP a`
        read them. */
    method OperandAt() returns (w: bv16)
      ensures w == OperandWord(prog, pc)
    {
      var low, high := prog[pc as int], prog[(pc + 1) as int];
      w := Word(low, high);
    }

    /** `JMP a`: pc gets the two operand bytes. */
    method ExecuteJmpAbsolute()
      requires Valid()
      modifies this`pc
      ensures State() == Semantics.Jumped(old(State()), OperandWord(prog, old(pc)))
    {
      pc := OperandAt();
    }

    /** `pc = (ram[address] << 8) | ram[address + 1]`. */
    method JumpThrough(address: bv16)
      requires Valid() && address != 0xFFFF
      modifies this`pc
      ensures State() == Semantics.Jumped(old(State()), Semantics.BigEndianAt(ram[..], address))
    {
      var high, low := ram[address as int], ram[(address + 1) as int];
      pc := Word(low, high);
    }

    /** `JMP (a)`: jump through the operand address. */
    method ExecuteJmpIndirect()
      requires Valid() && OperandWord(prog, pc) != 0xFFFF
      modifies this`pc
      ensures State() == Semantics.Jumped(old(State()), Semantics.BigEndianAt(ram[..], OperandWord(prog, old(pc))))
    {
      JumpThrough(OperandWord(prog, pc));
    }

    /** `JMP (a,x)`: as `JMP (a)`, with x added to the address first. */
    method ExecuteJmpIndexedIndirect()
      requires Valid() && Semantics.IndexedOperand(prog, pc, x) != 0xFFFF
      modifies this`pc
      ensures State() == Semantics.Jumped(old(State()), Semantics.BigEndianAt(ram[..], Semantics.IndexedOperand(prog, old(pc), old(x))))
    {
      JumpThrough(Semantics.IndexedOperand(prog, pc, x));
    }

    /** `step`: the `case` the opcode selects, on an instruction with
        defined behaviour. */
    method Step(opcode: bv8)
      requires Valid() && Semantics.Defined(Decode(opcode), prog, State())
      modifies this, ram
      ensures State() == Semantics.Exec(Decode(opcode), prog, old(State()))
    {
      var ins := Decode(opcode);
      if ins.Read? || ins.Modify? || ins.ModifyAccumulator? || ins.Store? {
        StepOperand(ins);
      } else if ins.Increment? || ins.Decrement? || ins.Transfer? || ins.Push? || ins.Pull? {
        StepRegister(ins);
      } else if ins.Branch? || ins.JmpAbsolute? || ins.JmpIndirect? || ins.JmpIndexedIndirect? {
        StepJump(ins);
      } else if ins.Brk? || ins.Jsr? || ins.Rti? || ins.Rts? {
        StepSubroutine(ins);
      } else {
        StepFlag(ins);
      }
    }

    /** The `case`s that go through an addressing mode. */
    method StepOperand(ins: Instruction)
      requires Valid() && Semantics.Defined(ins, prog, State())
      requires ins.Read? || ins.Modify? || ins.ModifyAccumulator? || ins.Store?
      modifies this, ram
      ensures State() == Semantics.Exec(ins, prog, old(State()))
    {
      match ins {
        case Read(op, m) => ExecuteRead(op, m);
        case Modify(op, m) => ExecuteModify(op, m);
        case ModifyAccumulator(op) => ExecuteModifyAccumulator(op);
        case Store(src, m) => ExecuteStore(src, m);
      }
    }

    /** The increments, decrements, transfers, pushes and pulls. */
    method StepRegister(ins: Instruction)
      requires Valid() && Semantics.Defined(ins, prog, State())
      requires ins.Increment? || ins.Decrement? || ins.Transfer? || ins.Push? || ins.Pull?
      modifies this, ram
      ensures State() == Semantics.Exec(ins, prog, old(State()))
    {
      match ins {
        case Increment(reg) => ExecuteStep(reg, 1);
        case Decrement(reg) => ExecuteStep(reg, 0xFF);
        case Transfer(t) => ExecuteTransfer(t);
        case Push(what) => ExecutePush(what);
        case Pull(what) => ExecutePull(what);
      }
    }

    /** The branches and the jumps. */
    method StepJump(ins: Instruction)
      requires Valid() && Semantics.Defined(ins, prog, State())
      requires ins.Branch? || ins.JmpAbsolute? || ins.JmpIndirect? || ins.JmpIndexedIndirect?
      modifies this`pc
      ensures State() == Semantics.Exec(ins, prog, old(State()))
    {
      match ins {
        case Branch(c) => ExecuteBranch(c);
        case JmpAbsolute => ExecuteJmpAbsolute();
        case JmpIndirect => ExecuteJmpIndirect();
        case JmpIndexedIndirect => ExecuteJmpIndexedIndirect();
      }
    }

    /** `BRK`, `JSR` and the returns. */
    method StepSubroutine(ins: Instruction)
      requires Valid() && Semantics.Defined(ins, prog, State())
      requires ins.Brk? || ins.Jsr? || ins.Rti? || ins.Rts?
      modifies this, ram
      ensures State() == Semantics.Exec(ins, prog, old(State()))
    {
      match ins {
        case Brk => ExecuteBrk();
        case Jsr => ExecuteJsr();
        case Rti => ExecuteRti();
        case Rts => ExecuteRts();
      }
    }

    /** The flag `case`s, `NOP`, and the opcodes without a `case`. */
    method StepFlag(ins: Instruction)
      requires Valid() && Semantics.Defined(ins, prog, State())
      requires ins.SetFlag? || ins.ClearFlag? || ins.Nop? || ins.Illegal?
      modifies this`p
      ensures State() == Semantics.Exec(ins, prog, old(State()))
    {
      match ins {
        case SetFlag(f) => SetFlag(f);
        case ClearFlag(f) => ClearFlag(f);
        case Nop =>
        case Illegal =>
      }
    }

    /** Whether `step` has defined behaviour on the instruction from the
        current state. */
    method CheckDefined(ins: Instruction) returns (ok: bool)
      requires Valid()
      ensures ok == Semantics.Defined(ins, prog, State())
    {
      ok := WellFormed(ins) && !ins.IncrementMemory?;
      if ins.JmpIndirect? {
        var target := OperandAt();
        ok := ok && target != 0xFFFF;
      } else if ins.JmpIndexedIndirect? {
        ok := ok && Semantics.IndexedOperand(prog, pc, x) != 0xFFFF;
      }
    }

    /** `fetchImmediate` of the opcode at pc, which moves pc past it. */
    method FetchOpcode() returns (opcode: bv8)
      requires Valid()
      modifies this`pc
      ensures opcode == ProgramByte(prog, old(pc))
      ensures State() == Semantics.Advanced(old(State()))
    {
      opcode := FetchImmediate();
    }

    /** One turn of `execute`'s loop: fetch an opcode; stop if it is 0 or
        if `step` has no defined behaviour on it; otherwise `step` it. */
    method Turn() returns (stop: bool, status: Semantics.Status)
      requires Valid()
      modifies this, ram
      ensures Semantics.Cycle(prog, old(State()))
        == if stop then Semantics.Stopped(status, State()) else Semantics.Continued(State())
    {
      var opcode := FetchOpcode();
      if opcode == 0 {
        return true, Semantics.Halted;
      }
      var ok := CheckDefined(Decode(opcode));
      if !ok {
        return true, Semantics.Stuck;
      }
      Step(opcode);
      stop, status := false, Semantics.OutOfFuel;
    }

    /** `execute`'s loop, for at most `fuel` turns. */
    method Execute(fuel: nat) returns (status: Semantics.Status)
      requires Valid()
      modifies this, ram
      ensures (status, State()) == Semantics.Run(prog, old(State()), fuel)
    {
      var n := fuel;
      while n > 0
        invariant Valid()
        invariant Semantics.Run(prog, State(), n) == Semantics.Run(prog, old(State()), fuel)
        decreases n
      {
        Semantics.RunUnfolds(prog, State(), n);
        var stop;
        stop, status := Turn();
        if stop {
          return;
        }
        n := n - 1;
      }
      status := Semantics.OutOfFuel;
    }
  }
}
