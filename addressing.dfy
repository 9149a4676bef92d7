/** The addressing modes of src/cpu.c: the `fetch*` helpers, which read an
    operand and advance the program counter past it, and the `store*`
    helpers, which resolve the same address and write a byte there.
    Operand bytes come from the program image, indexed by the program
    counter; data comes from `ram`. */
module Addressing {
  import opened Processor

  /** The operand forms that have a `fetch*` helper; all but `Immediate`
      also have a `store*` helper. */
  datatype Mode =
    | Immediate    // #
    | ZeroPage     // zp
    | ZeroPageX    // zp,x
    | ZeroPageY    // zp,y
    | Absolute     // a
    | AbsoluteX    // a,x
    | AbsoluteY    // a,y
    | Indirect     // (zp)
    | IndirectX    // (zp,x)
    | IndirectY    // (zp),y

  /** How many operand bytes a mode reads from the program image. */
  function Length(m: Mode): (n: bv16)
    ensures n == 1 || n == 2
    ensures n == 2 <==> m.Absolute? || m.AbsoluteX? || m.AbsoluteY?
  {
    match m
    case Absolute | AbsoluteX | AbsoluteY => 2
    case _ => 1
  }

  /** `highbyte << 8 | lowbyte`: the 16-bit value of two bytes. */
  function Word(low: bv8, high: bv8): bv16 {
    ((high as bv16) << 8) | (low as bv16)
  }

  /** The byte of the program image at the program counter. */
  function ProgramByte(prog: Memory, pc: bv16): bv8 {
    prog[pc as int]
  }

  /** The two operand bytes at the program counter, low byte first, as the
      absolute modes and `JMP` read them. */
  function OperandWord(prog: Memory, pc: bv16): bv16 {
    Word(ProgramByte(prog, pc), ProgramByte(prog, pc + 1))
  }

  /** The pointer the zero-page indirect modes read: the low byte at `zp` and
      the high byte at `zp + 1`, computed in `int`, so a pointer at 0xFF
      takes its high byte from 0x100 rather than wrapping to 0x00. */
  function Pointer(ram: Memory, zp: bv8): bv16 {
    Word(ram[zp as int], ram[zp as int + 1])
  }

  /** The address every non-immediate mode resolves, from the registers
      before the operand bytes are read. */
  function Address(m: Mode, prog: Memory, r: Registers, ram: Memory): bv16
    requires m != Immediate
  {
    Resolved(m, prog, r.pc, r.x, r.y, ram)
  }

  /** The address of `Address`, from the only registers it reads: pc, x
      and y. */
  function Resolved(m: Mode, prog: Memory, pc: bv16, x: bv8, y: bv8, ram: Memory): bv16
    requires m != Immediate
  {
    match m
    case ZeroPage => ProgramByte(prog, pc) as bv16
    case ZeroPageX => (ProgramByte(prog, pc) + x) as bv16
    case ZeroPageY => (ProgramByte(prog, pc) + y) as bv16
    case Absolute => OperandWord(prog, pc)
    case AbsoluteX => OperandWord(prog, pc) + x as bv16
    case AbsoluteY => OperandWord(prog, pc) + y as bv16
    case Indirect => Pointer(ram, ProgramByte(prog, pc))
    case IndirectX => Pointer(ram, ProgramByte(prog, pc) + x)
    case IndirectY => Pointer(ram, ProgramByte(prog, pc)) + y as bv16
  }

  /** The byte a `fetch*` helper returns: the program byte at pc for `#`,
      otherwise the `ram` byte at the resolved address. */
  function Operand(m: Mode, prog: Memory, r: Registers, ram: Memory): bv8 {
    if m == Immediate then ProgramByte(prog, r.pc)
    else ram[Address(m, prog, r, ram) as int]
  }

  /** The registers a `fetch*` or `store*` helper leaves: pc past the
      operand bytes, everything else as it was. */
  function Past(m: Mode, r: Registers): (out: Registers)
    ensures out.pc == r.pc + Length(m)
    ensures out.(pc := r.pc) == r
  {
    r.(pc := r.pc + Length(m))
  }

  /** The `store*` helpers' effect on `ram`: the value written at the
      resolved address. Like the `fetch*` helpers they also move pc past
      the operand bytes. */
  function Store(m: Mode, prog: Memory, r: Registers, ram: Memory, value: bv8): (ram': Memory)
    requires m != Immediate
    ensures ram'[Address(m, prog, r, ram) as int] == value
    ensures forall i :: 0 <= i < 0x10000 && i != Address(m, prog, r, ram) as int ==> ram'[i] == ram[i]
  {
    ram[Address(m, prog, r, ram) as int := value]
  }

  /** The address depends on the registers only through pc, x and y. */
  lemma AddressReadsPcAndIndexes(m: Mode, prog: Memory, r: Registers, r': Registers, ram: Memory)
    requires m != Immediate
    requires r.pc == r'.pc && r.x == r'.x && r.y == r'.y
    ensures Address(m, prog, r, ram) == Address(m, prog, r', ram)
  {
  }

  /** A store depends on the registers only through the address. */
  lemma StoreReadsAddress(m: Mode, prog: Memory, r: Registers, r': Registers, ram: Memory, value: bv8)
    requires m != Immediate
    requires Address(m, prog, r, ram) == Address(m, prog, r', ram)
    ensures Store(m, prog, r, ram, value) == Store(m, prog, r', ram, value)
  {
  }

  /** `Word` puts the high byte above the low byte. */
  lemma WordIsSum(low: bv8, high: bv8)
    ensures Word(low, high) == low as bv16 + 0x100 * high as bv16
  {
  }

  /** `Word` is little-endian: the low byte plus 256 times the high byte. */
  lemma WordIsLittleEndian(low: bv8, high: bv8)
    ensures Word(low, high) as int == low as int + 256 * high as int
  {
    WordIsSum(low, high);
  }

  /** Splitting a 16-bit value into its bytes and joining them with `Word`
      gives the value back. */
  lemma WordOfBytes(w: bv16)
    ensures Word((w & 0xFF) as bv8, (w >> 8) as bv8) == w
  {
  }

  /** The zero-page modes stay in page 0: the index is added modulo 256. */
  lemma ZeroPageWraps(prog: Memory, r: Registers, ram: Memory)
    ensures Address(ZeroPage, prog, r, ram) == ProgramByte(prog, r.pc) as bv16
    ensures Address(ZeroPageX, prog, r, ram) == (ProgramByte(prog, r.pc) as bv16 + r.x as bv16) % 0x100
    ensures Address(ZeroPageY, prog, r, ram) == (ProgramByte(prog, r.pc) as bv16 + r.y as bv16) % 0x100
  {
    ByteSumWraps(ProgramByte(prog, r.pc), r.x);
    ByteSumWraps(ProgramByte(prog, r.pc), r.y);
  }

  /** An 8-bit sum, widened, is the 16-bit sum modulo 256. */
  lemma ByteSumWraps(b: bv8, i: bv8)
    ensures (b + i) as bv16 == (b as bv16 + i as bv16) % 0x100
  {
  }

  /** Adding an index to a 16-bit address wraps modulo 65536. */
  lemma IndexWraps(w: bv16, i: bv8)
    ensures (w + i as bv16) as bv32 == (w as bv32 + i as bv32) % 0x10000
  {
  }

  /** The absolute mode takes a little-endian address from the two operand
      bytes. */
  lemma AbsoluteIsLittleEndian(prog: Memory, r: Registers, ram: Memory)
    ensures Address(Absolute, prog, r, ram) as int
      == ProgramByte(prog, r.pc) as int + 256 * ProgramByte(prog, r.pc + 1) as int
  {
    var low, high := ProgramByte(prog, r.pc), ProgramByte(prog, r.pc + 1);
    assert Address(Absolute, prog, r, ram) == Word(low, high);
    WordIsLittleEndian(low, high);
  }

  /** `a,x` adds x to the absolute address modulo 65536. */
  lemma AbsoluteXWraps(prog: Memory, r: Registers, ram: Memory)
    ensures Address(AbsoluteX, prog, r, ram) as bv32
      == (OperandWord(prog, r.pc) as bv32 + r.x as bv32) % 0x10000
  {
    IndexWraps(OperandWord(prog, r.pc), r.x);
  }

  /** `a,y` adds y to the absolute address modulo 65536. */
  lemma AbsoluteYWraps(prog: Memory, r: Registers, ram: Memory)
    ensures Address(AbsoluteY, prog, r, ram) as bv32
      == (OperandWord(prog, r.pc) as bv32 + r.y as bv32) % 0x10000
  {
    IndexWraps(OperandWord(prog, r.pc), r.y);
  }

  /** Reading back what a store wrote, through the same mode and from the
      same registers, gives the stored value, as long as the store did not
      overwrite a byte of the pointer an indirect mode reads. */
  lemma FetchAfterStore(m: Mode, prog: Memory, r: Registers, ram: Memory, value: bv8)
    requires m != Immediate
    requires m in {Indirect, IndirectX, IndirectY} ==>
      Address(m, prog, r, Store(m, prog, r, ram, value)) == Address(m, prog, r, ram)
    ensures Operand(m, prog, r, Store(m, prog, r, ram, value)) == value
  {
  }
}
