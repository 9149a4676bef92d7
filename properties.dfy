/** What the instructions of src/cpu.c do to each other and to the stack,
    stated over `Semantics`: which pairs undo each other, which do not,
    where pushes land, and how `execute`'s loop depends on its budget. */
module Properties {
  import opened Processor
  import opened Addressing
  import opened Instructions
  import opened Semantics
  import Alu

  /** A push followed by the matching pull restores sp, and the pull reads
      back the byte the push wrote. */
  lemma PullReadsPushed(what: Stacked, s: State)
    ensures Raised(ExecPush(what, s)).regs.sp == s.regs.sp
    ensures Top(Raised(ExecPush(what, s))) == Pushed(what, s.regs)
  {
  }

  /** `PHP` then `PLP` gives back the registers exactly. */
  lemma PhpPlpRestores(s: State)
    ensures ExecPull(StackP, ExecPush(StackP, s)).regs == s.regs
  {
    PullReadsPushed(StackP, s);
    FromByteOfByte(s.regs.p);
  }

  /** `PHA`/`PLA`, `PHX`/`PLX` and `PHY`/`PLY` give back every register;
      only N and Z change, to the flags of the register's value. */
  lemma PushPullRestores(what: Stacked, s: State)
    requires what != StackP
    ensures ExecPull(what, ExecPush(what, s)).regs
      == s.regs.(p := Alu.UpdateNZ(Pushed(what, s.regs), s.regs.p))
  {
    PullReadsPushed(what, s);
  }

  /** A push writes one cell, `0x0100 | sp`, and nothing else. */
  lemma PushWritesOneCell(what: Stacked, s: State, i: int)
    requires 0 <= i < 0x10000
    ensures ExecPush(what, s).ram[i] == if i == StackCell(s.regs.sp) then Pushed(what, s.regs) else s.ram[i]
  {
  }

  /** `BRK` and `JSR` write at `ram[sp]` with sp a byte, so their writes
      land in page 0 and leave the stack page untouched. */
  lemma PushPage0MissesStackPage(s: State, v: bv8, i: int)
    requires 0x100 <= i < 0x10000
    ensures PushPage0(s, v).ram[i] == s.ram[i]
  {
  }

  /** `BRK` loads pc from the vector at 0xFFFE/0xFFFF as it was before the
      instruction, and leaves the stack page and everything above page 0
      unchanged. */
  lemma BrkVectorsAndKeepsStackPage(s: State)
    ensures ExecBrk(s).regs.pc == Word(s.ram[0xFFFE], s.ram[0xFFFF])
    ensures ExecBrk(s).regs.sp == s.regs.sp - 3
    ensures forall i :: 0x100 <= i < 0x10000 ==> ExecBrk(s).ram[i] == s.ram[i]
  {
    var s1 := Advanced(s);
    var s2 := PushPage0(s1, Low(s1.regs.pc));
    var s3 := PushPage0(s2, Low(s1.regs.pc << 8));
    var s4 := PushPage0(s3, Byte(s1.regs.p) | 0x10);
    assert ExecBrk(s) == Vectored(s4);
    forall i | 0x100 <= i < 0x10000
      ensures s4.ram[i] == s.ram[i]
    {
      PushPage0MissesStackPage(s1, Low(s1.regs.pc), i);
      PushPage0MissesStackPage(s2, Low(s1.regs.pc << 8), i);
      PushPage0MissesStackPage(s3, Byte(s1.regs.p) | 0x10, i);
    }
  }

  /** `JSR` jumps to the operand word and leaves the stack page unchanged. */
  lemma JsrJumpsAndKeepsStackPage(prog: Memory, s: State)
    ensures ExecJsr(prog, s).regs.pc == OperandWord(prog, s.regs.pc)
    ensures ExecJsr(prog, s).regs.sp == s.regs.sp - 2
    ensures forall i :: 0x100 <= i < 0x10000 ==> ExecJsr(prog, s).ram[i] == s.ram[i]
  {
    var s1 := Advanced(s);
    var s2 := PushPage0(s1, Low(s1.regs.pc << 8));
    var s3 := PushPage0(s2, Low(s1.regs.pc));
    forall i | 0x100 <= i < 0x10000
      ensures s3.ram[i] == s.ram[i]
    {
      PushPage0MissesStackPage(s1, Low(s1.regs.pc << 8), i);
      PushPage0MissesStackPage(s2, Low(s1.regs.pc), i);
    }
  }

  /** `RTS` right after `JSR` restores sp, but returns to one past the word
      it finds in the stack page at sp - 1 and sp, which `JSR` did not
      write: the return address does not depend on where `JSR` was. */
  lemma RtsAfterJsr(prog: Memory, s: State)
    ensures ExecRts(ExecJsr(prog, s)).regs.sp == s.regs.sp
    ensures ExecRts(ExecJsr(prog, s)).regs.pc
      == ReturnTarget(s.ram[StackCell(s.regs.sp - 1)], s.ram[StackCell(s.regs.sp)])
  {
    JsrJumpsAndKeepsStackPage(prog, s);
    var t := ExecJsr(prog, s);
    assert Raised(t).regs.sp == s.regs.sp - 1;
    assert Raised(Raised(t)).regs.sp == s.regs.sp;
  }

  /** `RTI` right after `BRK` does not undo it: it lowers sp three more
      times and reads p and pc from the stack page below sp, which `BRK`
      (writing in page 0) left as they were. */
  lemma RtiAfterBrk(s: State)
    ensures ExecRti(ExecBrk(s)).regs.sp == s.regs.sp - 6
    ensures ExecRti(ExecBrk(s)).regs.p == FromByte(s.ram[StackCell(s.regs.sp - 4)])
    ensures ExecRti(ExecBrk(s)).regs.pc
      == Word(s.ram[StackCell(s.regs.sp - 5)], s.ram[StackCell(s.regs.sp - 6)])
  {
    BrkVectorsAndKeepsStackPage(s);
  }

  /** `pc += SIGNED(operand)` moves forward by the operand when it is below
      0x80 and back by its two's-complement magnitude otherwise, modulo
      65536. */
  lemma DisplacedBySigned(pc: bv16, v: bv8)
    ensures v < 0x80 ==> Displaced(pc, v) == pc + v as bv16
    ensures v >= 0x80 ==> Displaced(pc, v) == pc - (0 - v) as bv16
  {
    if v >= 0x80 {
      NegativeExtends(v);
    }
  }

  /** Sign extension of a byte with the sign bit set subtracts its
      two's-complement magnitude. */
  lemma NegativeExtends(v: bv8)
    requires v >= 0x80
    ensures SignExtend(v) == 0 - (0x100 - v as bv16)
  {
  }

  /** `SignExtend` keeps the byte as the low byte and fills the high byte
      with copies of its sign bit. */
  lemma SignExtendBytes(v: bv8)
    ensures (SignExtend(v) & 0xFF) as bv8 == v
    ensures SignExtend(v) >> 8 == if v & 0x80 == 0 then 0 else 0xFF
  {
  }

  /** A branch changes only pc: the other registers and `ram` are kept. */
  lemma BranchChangesOnlyPc(c: Condition, prog: Memory, s: State)
    ensures ExecBranch(c, prog, s).ram == s.ram
    ensures ExecBranch(c, prog, s).regs.(pc := s.regs.pc) == s.regs
  {
  }

  /** A branch whose flag test fails moves pc past its one displacement
      byte and no further. */
  lemma BranchFallsThrough(c: Condition, prog: Memory, s: State)
    requires (c.WhenSet? && !IsSet(s.regs.p, c.f)) || (c.WhenClear? && IsSet(s.regs.p, c.f))
    ensures ExecBranch(c, prog, s).regs.pc == s.regs.pc + 1
  {
  }

  /** A branch whose flag test holds, and `BRA` always, with a
      displacement d below 0x80 moves pc past the displacement byte and
      then forward by d. */
  lemma BranchTakenForward(c: Condition, prog: Memory, s: State)
    requires c.Always? || (c.WhenSet? && IsSet(s.regs.p, c.f)) || (c.WhenClear? && !IsSet(s.regs.p, c.f))
    requires ProgramByte(prog, s.regs.pc) < 0x80
    ensures ExecBranch(c, prog, s).regs.pc == s.regs.pc + 1 + ProgramByte(prog, s.regs.pc) as bv16
  {
    assert Holds(c, s.regs.p);
    TakenForward(c, prog, s);
  }

  /** A taken branch with a displacement d from 0x80 on moves pc past the
      displacement byte and then back by 256 - d, modulo 65536. */
  lemma BranchTakenBackward(c: Condition, prog: Memory, s: State)
    requires c.Always? || (c.WhenSet? && IsSet(s.regs.p, c.f)) || (c.WhenClear? && !IsSet(s.regs.p, c.f))
    requires ProgramByte(prog, s.regs.pc) >= 0x80
    ensures ExecBranch(c, prog, s).regs.pc == s.regs.pc + 1 - (0x100 - ProgramByte(prog, s.regs.pc) as bv16)
  {
    assert Holds(c, s.regs.p);
    TakenBackward(c, prog, s);
  }

  /** A taken branch whose test holds, with a displacement below 0x80. */
  lemma TakenForward(c: Condition, prog: Memory, s: State)
    requires Holds(c, s.regs.p)
    requires ProgramByte(prog, s.regs.pc) < 0x80
    ensures ExecBranch(c, prog, s).regs.pc == s.regs.pc + 1 + ProgramByte(prog, s.regs.pc) as bv16
  {
    ForwardPastByte(s.regs.pc, ProgramByte(prog, s.regs.pc));
  }

  /** A taken branch whose test holds, with a displacement from 0x80 on. */
  lemma TakenBackward(c: Condition, prog: Memory, s: State)
    requires Holds(c, s.regs.p)
    requires ProgramByte(prog, s.regs.pc) >= 0x80
    ensures ExecBranch(c, prog, s).regs.pc == s.regs.pc + 1 - (0x100 - ProgramByte(prog, s.regs.pc) as bv16)
  {
    BackPastByte(s.regs.pc, ProgramByte(prog, s.regs.pc));
  }

  /** `DisplacedBySigned` for a displacement below 0x80 added to the
      address after its byte. */
  lemma ForwardPastByte(pc: bv16, d: bv8)
    requires d < 0x80
    ensures Displaced(pc + 1, d) == pc + 1 + d as bv16
  {
    assert SignExtend(d) == d as bv16;
  }

  /** `DisplacedBySigned` for a displacement from 0x80 on added to the
      address after its byte. */
  lemma BackPastByte(pc: bv16, d: bv8)
    requires d >= 0x80
    ensures Displaced(pc + 1, d) == pc + 1 - (0x100 - d as bv16)
  {
    assert SignExtend(d) == 0xFF00 | d as bv16;
    assert 0xFF00 | d as bv16 == 0 - (0x100 - d as bv16);
  }

  /** The branch opcodes and the flag test each one makes. */
  lemma BranchOpcodes()
    ensures Decode(0x10) == Branch(WhenClear(Negative))
    ensures Decode(0x30) == Branch(WhenSet(Negative))
    ensures Decode(0x50) == Branch(WhenClear(Overflow))
    ensures Decode(0x70) == Branch(WhenSet(Overflow))
    ensures Decode(0x80) == Branch(Always)
    ensures Decode(0x90) == Branch(WhenClear(Carry))
    ensures Decode(0xB0) == Branch(WhenSet(Carry))
    ensures Decode(0xD0) == Branch(WhenClear(Zero))
    ensures Decode(0xF0) == Branch(WhenSet(Zero))
  {
  }

  /** `JMP (a)` and `JMP (a,x)` take the byte at the address as the high
      byte of the target and the byte after it as the low byte: the
      reverse of the little-endian order of the absolute modes. Below
      0xFFFF, `address + 1` does not wrap and is the next cell. */
  lemma IndirectJumpHighByteFirst(ram: Memory, address: bv16)
    requires address < 0xFFFF
    ensures BigEndianAt(ram, address) as int
      == 256 * ram[address as int] as int + ram[(address + 1) as int] as int
  {
    WordIsLittleEndian(ram[(address + 1) as int], ram[address as int]);
  }

  /** Loading a register twice keeps only the second value. */
  lemma LoadedTwice(reg: Register, r: Registers, v: bv8, w: bv8)
    ensures Loaded(reg, Loaded(reg, r, v), w) == Loaded(reg, r, w)
  {
  }

  /** Loading a register with its own value changes only N and Z. */
  lemma LoadedSame(reg: Register, r: Registers)
    ensures Loaded(reg, r, Get(reg, r)) == r.(p := Alu.UpdateNZ(Get(reg, r), r.p))
  {
  }

  /** An increment followed by the matching decrement gives the register
      back; only N and Z can differ, and they follow its value. */
  lemma IncrementThenDecrement(reg: Register, s: State)
    ensures ExecStep(reg, 0xFF, ExecStep(reg, 1, s)).regs
      == s.regs.(p := Alu.UpdateNZ(Get(reg, s.regs), s.regs.p))
    ensures ExecStep(reg, 0xFF, ExecStep(reg, 1, s)).ram == s.ram
  {
    var v := Get(reg, s.regs);
    var r1 := Loaded(reg, s.regs, v + 1);
    assert Get(reg, r1) + 0xFF == v;
    LoadedTwice(reg, s.regs, v + 1, v);
    LoadedSame(reg, s.regs);
  }

  /** `TAX` then `TXA` leaves a as it was and x equal to it. */
  lemma TaxTxaRestores(r: Registers)
    ensures ExecTransfer(Txa, ExecTransfer(Tax, r)).a == r.a
    ensures ExecTransfer(Txa, ExecTransfer(Tax, r)).x == r.a
  {
  }

  /** `execute` stops with `Halted` when the opcode at pc is 0, with pc one
      past it and nothing else changed. */
  lemma RunHaltsOnZero(prog: Memory, s: State, fuel: nat)
    requires fuel > 0 && ProgramByte(prog, s.regs.pc) == 0
    ensures Run(prog, s, fuel) == (Halted, s.(regs := s.regs.(pc := s.regs.pc + 1)))
  {
  }

  /** Once a loop stops for a reason other than its budget, more budget
      changes nothing. */
  lemma {:induction false} IterateMoreFuel(turn: State -> Turn, s: State, fuel: nat, more: nat)
    requires Iterate(turn, s, fuel).0 != OutOfFuel
    requires fuel <= more
    ensures Iterate(turn, s, more) == Iterate(turn, s, fuel)
    decreases fuel
  {
    if turn(s).Continued? {
      IterateMoreFuel(turn, turn(s).next, fuel - 1, more - 1);
    }
  }

  /** Once `execute`'s loop halts or gets stuck, more budget changes
      nothing. */
  lemma RunMoreFuel(prog: Memory, s: State, fuel: nat, more: nat)
    requires Run(prog, s, fuel).0 != OutOfFuel
    requires fuel <= more
    ensures Run(prog, s, more) == Run(prog, s, fuel)
  {
    IterateMoreFuel(Cycles(prog), s, fuel, more);
  }

  /** Every opcode but the four `INC` on memory decodes to an instruction
      whose only possible undefined behaviour is an indirect jump through
      0xFFFF. */
  lemma DecodedIsDefined(opcode: bv8, prog: Memory, s: State)
    requires !(opcode in {0xE6, 0xEE, 0xF6, 0xFE})
    requires !Decode(opcode).JmpIndirect? && !Decode(opcode).JmpIndexedIndirect?
    ensures Defined(Decode(opcode), prog, s)
  {
    DecodeWellFormed(opcode);
    DecodeIncrementMemory(opcode);
  }

  /** The `INC` on memory opcodes are exactly 0xE6, 0xEE, 0xF6 and 0xFE. */
  lemma DecodeIncrementMemory(opcode: bv8)
    ensures Decode(opcode).IncrementMemory? <==> opcode in {0xE6, 0xEE, 0xF6, 0xFE}
  {
  }
}
