/** The register record and the flag byte of the 65C02 (src/cpu.h), and the
    64 KiB byte spaces the interpreter works on. */
module Processor {

  /** A 64 KiB byte space, addressed by a 16-bit value. The data memory
      (`ram`) and the program image read by offset are both of this shape. */
  type Memory = s: seq<bv8> | |s| == 0x10000 witness seq(0x10000, _ => 0)

  /** The flag byte `p`, one field per bit in the order NV-BDIZC; `unused`
      is bit 5, which no instruction tests but which `PHP`/`PLP` carry.
      `Byte` and `FromByte` convert to and from the byte itself. */
  datatype Flags = Flags(n: bool, v: bool, unused: bool, b: bool, d: bool, i: bool, z: bool, c: bool)

  /** The register record: three 8-bit data registers, the 8-bit stack
      pointer, the 16-bit program counter and the flag byte. */
  datatype Registers = Registers(a: bv8, x: bv8, y: bv8, sp: bv8, pc: bv16, p: Flags)

  /** The seven flags the test, `SET_` and `CLEAR_` macros name. */
  datatype Flag = Negative | Overflow | Break | Decimal | IrqDisable | Zero | Carry

  /** Bit `k` of a byte. */
  predicate HasBit(v: bv8, k: bv8)
    requires k < 8
  {
    v & (1 << k) != 0
  }

  /** The flag byte as the byte `p` of the register record. */
  function Byte(f: Flags): (p: bv8)
  {
    (if f.n then 0x80 else 0) | (if f.v then 0x40 else 0) | (if f.unused then 0x20 else 0)
    | (if f.b then 0x10 else 0) | (if f.d then 0x08 else 0) | (if f.i then 0x04 else 0)
    | (if f.z then 0x02 else 0) | (if f.c then 0x01 else 0)
  }

  /** The byte `p` read as its eight flag bits. */
  function FromByte(p: bv8): (f: Flags)
  {
    Flags(p & 0x80 != 0, p & 0x40 != 0, p & 0x20 != 0, p & 0x10 != 0,
          p & 0x08 != 0, p & 0x04 != 0, p & 0x02 != 0, p & 0x01 != 0)
  }

  /** Where each flag sits in the byte, following the layout NV-BDIZC. */
  function Position(f: Flag): (k: bv8)
    ensures k < 8 && k != 5
  {
    match f
    case Negative => 7
    case Overflow => 6
    case Break => 4
    case Decimal => 3
    case IrqDisable => 2
    case Zero => 1
    case Carry => 0
  }

  /** The constant of each test macro and each `SET_` macro. */
  function Mask(f: Flag): (m: bv8)
  {
    match f
    case Negative => 0x80
    case Overflow => 0x40
    case Break => 0x10
    case Decimal => 0x08
    case IrqDisable => 0x04
    case Zero => 0x02
    case Carry => 0x01
  }

  /** The constant of each `CLEAR_` macro: every bit except the flag's own. */
  function ClearMask(f: Flag): (m: bv8)
    ensures m == !Mask(f)
  {
    match f
    case Negative => 0x7F
    case Overflow => 0xBF
    case Break => 0xEF
    case Decimal => 0xF7
    case IrqDisable => 0xFB
    case Zero => 0xFD
    case Carry => 0xFE
  }

  /** The test macros `N(registers)` ... `C(registers)`. */
  predicate IsSet(p: Flags, f: Flag) {
    match f
    case Negative => p.n
    case Overflow => p.v
    case Break => p.b
    case Decimal => p.d
    case IrqDisable => p.i
    case Zero => p.z
    case Carry => p.c
  }

  /** The idiom `cond ? SET_f(registers) : CLEAR_f(registers)`: flag `f`
      becomes `cond` and every other bit is kept (`SetIsMacro`, `ClearIsMacro`). */
  function Put(p: Flags, f: Flag, cond: bool): Flags {
    match f
    case Negative => p.(n := cond)
    case Overflow => p.(v := cond)
    case Break => p.(b := cond)
    case Decimal => p.(d := cond)
    case IrqDisable => p.(i := cond)
    case Zero => p.(z := cond)
    case Carry => p.(c := cond)
  }

  /** Every register but a and the flag byte is unchanged. */
  predicate KeepsIndexStackPc(r: Registers, r': Registers) {
    r'.x == r.x && r'.y == r.y && r'.sp == r.sp && r'.pc == r.pc
  }

  /** Every register but the flag byte is unchanged. */
  predicate KeepsRegisters(r: Registers, r': Registers) {
    r'.a == r.a && KeepsIndexStackPc(r, r')
  }

  /** The flags no arithmetic or logic helper writes are unchanged: B, D, I
      and the unused bit. */
  predicate KeepsControlFlags(p: Flags, p': Flags) {
    p'.b == p.b && p'.d == p.d && p'.i == p.i && p'.unused == p.unused
  }

  /** The value of the carry test macro `C(registers)` (0 or 1) for a
      carry flag, as sums add it. */
  function CarryIn(carry: bool): (c: bv8)
    ensures c <= 1
  {
    if carry then 1 else 0
  }

  /** `SIGNED(byte)`: the byte read as a two's-complement `int8_t`. */
  function Signed(b: bv8): (v: int)
    ensures -128 <= v < 128
    ensures (v - b as int) % 256 == 0
  {
    if b & 0x80 == 0 then b as int else b as int - 256
  }

  /** Reading the byte back gives the same eight flags. */
  lemma FromByteOfByte(f: Flags)
    ensures FromByte(Byte(f)) == f
  {
  }

  /** Every byte is the image of its eight flags, so `Byte` and `FromByte`
      are inverse bijections. */
  lemma ByteOfFromByte(p: bv8)
    ensures Byte(FromByte(p)) == p
  {
  }

  /** Each test macro looks at its mask, at the bit the layout gives its flag. */
  lemma IsSetIsMask(p: Flags, f: Flag)
    ensures IsSet(p, f) <==> Byte(p) & Mask(f) != 0
    ensures IsSet(p, f) == HasBit(Byte(p), Position(f))
    ensures Mask(f) == 1 << Position(f)
  {
  }

  /** A test macro on the byte (`p & mask`) is nonzero exactly when the flag
      the byte holds is set. */
  lemma TestIsMacro(p: bv8, f: Flag)
    ensures p & Mask(f) != 0 <==> IsSet(FromByte(p), f)
  {
  }

  /** The `SET_` macro on the byte (`p |= mask`) is `Put` with a true
      condition on the flags the byte holds. */
  lemma SetIsMacro(p: bv8, f: Flag)
    ensures FromByte(p | Mask(f)) == Put(FromByte(p), f, true)
  {
  }

  /** The `CLEAR_` macro on the byte (`p &= ~mask`) is `Put` with a false
      condition on the flags the byte holds. */
  lemma ClearIsMacro(p: bv8, f: Flag)
    ensures FromByte(p & ClearMask(f)) == Put(FromByte(p), f, false)
  {
  }

  /** `Put` gives its flag the condition and keeps the other six flags and
      the unused bit, so each macro touches exactly its own bit. */
  lemma PutOnlyItsFlag(p: Flags, f: Flag, cond: bool)
    ensures IsSet(Put(p, f, cond), f) == cond
    ensures forall g :: g != f ==> IsSet(Put(p, f, cond), g) == IsSet(p, g)
    ensures Put(p, f, cond).unused == p.unused
  {
  }

  /** Applying a `SET_` or a `CLEAR_` macro twice is applying it once. */
  lemma MacrosIdempotent(p: bv8, f: Flag)
    ensures (p | Mask(f)) | Mask(f) == p | Mask(f)
    ensures (p & ClearMask(f)) & ClearMask(f) == p & ClearMask(f)
  {
  }

  /** `SIGNED` is the identity below 128 and subtracts 256 from 128 on. */
  lemma SignedRange(b: bv8)
    ensures b < 128 ==> Signed(b) == b as int
    ensures b >= 128 ==> Signed(b) == b as int - 256
  {
  }
}
