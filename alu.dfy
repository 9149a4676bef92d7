/** The flag helpers `updateNegFlag`/`updateZeroFlag` and the ALU helpers
    `ADC` ... `TSB` of src/cpu.c, as functions from the operand and the
    registers to the new registers (and, for the read-modify-write helpers,
    the byte to write back). Each contract states the flag rules as the
    code applies them, including where they differ from the 65C02 data
    sheet. */
module Alu {
  import opened Processor
  import Bcd

  /** `updateNegFlag`: the mask it tests is 0x40, so N follows bit 6 of the
      result; no other flag changes. */
  function UpdateNeg(result: bv8, p: Flags): (q: Flags)
    ensures q.n == (result & 0x40 != 0)
    ensures q == p.(n := q.n)
  {
    p.(n := result & 0x40 != 0)
  }

  /** `updateZeroFlag`: Z is set iff the result is zero; no other flag changes. */
  function UpdateZero(result: bv8, p: Flags): (q: Flags)
    ensures q.z <==> result == 0
    ensures q == p.(z := q.z)
  {
    p.(z := result == 0)
  }

  /** The pair `updateNegFlag(v); updateZeroFlag(v)` that follows most
      register updates. */
  function UpdateNZ(result: bv8, p: Flags): (q: Flags)
    ensures q.n == (result & 0x40 != 0)
    ensures q.z <==> result == 0
    ensures q == p.(n := q.n, z := q.z)
  {
    UpdateZero(result, UpdateNeg(result, p))
  }

  /** The 8-bit sum `res = a + operand + C` of `ADC`, wrapping modulo 256. */
  function Sum(a: bv8, operand: bv8, carry: bool): bv8 {
    a + operand + CarryIn(carry)
  }

  /** The borrow `!C(registers)` of `SBC`, as 0 or 1. */
  function Borrow(carry: bool): (b: bv8)
    ensures b <= 1
  {
    if carry then 0 else 1
  }

  /** The 8-bit difference `res = a - operand - !C` of `SBC`, wrapping modulo 256. */
  function Difference(a: bv8, operand: bv8, carry: bool): bv8 {
    a - operand - Borrow(carry)
  }

  /** The decimal-mode sum of `ADC`: the two `BCDToBin` values and the carry. */
  function DecimalSum(a: bv8, operand: bv8, carry: bool): bv8 {
    Bcd.LowBitsAsDigits(a) + Bcd.LowBitsAsDigits(operand) + CarryIn(carry)
  }

  /** The decimal-mode difference of `SBC`: the two `BCDToBin` values and
      the borrow, wrapping modulo 256. */
  function DecimalDifference(a: bv8, operand: bv8, carry: bool): bv8 {
    Bcd.LowBitsAsDigits(a) - Bcd.LowBitsAsDigits(operand) - Borrow(carry)
  }

  /** The byte `ADC` leaves in the accumulator. */
  function AdcResult(a: bv8, operand: bv8, decimal: bool, carry: bool): bv8 {
    if decimal then Bcd.PackedDigits(Bcd.Remainder100(DecimalSum(a, operand, carry)))
    else Sum(a, operand, carry)
  }

  /** The carry `ADC` leaves. */
  function AdcCarry(a: bv8, operand: bv8, decimal: bool, carry: bool): bool {
    if decimal then DecimalSum(a, operand, carry) > 99
    else Sum(a, operand, carry) < operand
  }

  /** `ADC`. V is set when bit 7 of the accumulator and of the binary sum
      differ; N comes from the OLD accumulator and Z from the binary sum,
      in both modes. The result and C are given by `AdcBinary` and
      `AdcDecimal`. */
  function Adc(operand: bv8, r: Registers): (r': Registers)
    ensures KeepsIndexStackPc(r, r') && KeepsControlFlags(r.p, r'.p)
    ensures r'.p.n == (r.a & 0x40 != 0)
    ensures r'.p.z <==> Sum(r.a, operand, r.p.c) == 0
    ensures r'.p.v <==> (r.a < 0x80) != (Sum(r.a, operand, r.p.c) < 0x80)
  {
    r.(a := AdcResult(r.a, operand, r.p.d, r.p.c),
       p := UpdateZero(Sum(r.a, operand, r.p.c),
              UpdateNeg(r.a, r.p.(v := r.a & 0x80 != Sum(r.a, operand, r.p.c) & 0x80)))
            .(c := AdcCarry(r.a, operand, r.p.d, r.p.c)))
  }

  /** The binary-mode test of `SBC` for V: `!(0x80 & a)` is 0 or 1 and
      `0x80 & operand` is 0 or 0x80, so their bitwise and, and with it V,
      is always false. */
  function SbcOverflow(a: bv8, operand: bv8, res: bv8): (v: bool)
    ensures !v
  {
    if (if a & 0x80 == 0 then 1 else 0) & (operand & 0x80) != 0 then
      (operand & 0x80) & (res & 0x80) == 0
    else
      false
  }

  /** The byte `SBC` leaves in the accumulator. */
  function SbcResult(a: bv8, operand: bv8, decimal: bool, carry: bool): bv8 {
    if decimal then Bcd.PackedDigits(Bcd.Remainder100(DecimalDifference(a, operand, carry)))
    else Difference(a, operand, carry)
  }

  /** The overflow flag `SBC` leaves. */
  function SbcV(a: bv8, operand: bv8, decimal: bool, carry: bool): bool {
    if decimal then DecimalDifference(a, operand, carry) > 99
    else SbcOverflow(a, operand, Difference(a, operand, carry))
  }

  /** `SBC`. C is `SIGNED(res) >= 0`, so it is set iff bit 7 of the result
      is clear; N and Z come from the result. The result and V are given
      by `SbcBinary` and `SbcDecimal`. */
  function Sbc(operand: bv8, r: Registers): (r': Registers)
    ensures KeepsIndexStackPc(r, r') && KeepsControlFlags(r.p, r'.p)
    ensures r'.a == SbcResult(r.a, operand, r.p.d, r.p.c)
    ensures r'.p.c <==> r'.a < 0x80
    ensures r'.p.n == (r'.a & 0x40 != 0)
    ensures r'.p.z <==> r'.a == 0
  {
    SignedNonNegative(SbcResult(r.a, operand, r.p.d, r.p.c));
    r.(a := SbcResult(r.a, operand, r.p.d, r.p.c),
       p := UpdateNZ(SbcResult(r.a, operand, r.p.d, r.p.c),
              r.p.(v := SbcV(r.a, operand, r.p.d, r.p.c), c := Signed(SbcResult(r.a, operand, r.p.d, r.p.c)) >= 0)))
  }

  /** `AND`: the accumulator becomes `a & operand`; N and Z follow it. */
  function And(operand: bv8, r: Registers): (r': Registers)
    ensures KeepsIndexStackPc(r, r')
    ensures r'.a & r.a == r'.a && r'.a & operand == r'.a
    ensures (r.a & operand) & r'.a == r.a & operand
    ensures KeepsControlFlags(r.p, r'.p) && r'.p.v == r.p.v && r'.p.c == r.p.c
    ensures r'.p.n == (r'.a & 0x40 != 0) && r'.p.z == (r'.a == 0)
  {
    r.(a := r.a & operand, p := UpdateNZ(r.a & operand, r.p))
  }

  /** `ORA`: the accumulator becomes `a | operand`; N and Z follow it. */
  function Ora(operand: bv8, r: Registers): (r': Registers)
    ensures KeepsIndexStackPc(r, r')
    ensures r'.a & r.a == r.a && r'.a & operand == operand
    ensures r'.a & (r.a | operand) == r'.a
    ensures KeepsControlFlags(r.p, r'.p) && r'.p.v == r.p.v && r'.p.c == r.p.c
    ensures r'.p.n == (r'.a & 0x40 != 0) && r'.p.z == (r'.a == 0)
  {
    r.(a := r.a | operand, p := UpdateNZ(r.a | operand, r.p))
  }

  /** `EOR`: the accumulator becomes `a ^ operand`; N and Z follow it. */
  function Eor(operand: bv8, r: Registers): (r': Registers)
    ensures KeepsIndexStackPc(r, r')
    ensures r'.a ^ operand == r.a
    ensures KeepsControlFlags(r.p, r'.p) && r'.p.v == r.p.v && r'.p.c == r.p.c
    ensures r'.p.n == (r'.a & 0x40 != 0) && r'.p.z == (r'.a == 0)
  {
    r.(a := r.a ^ operand, p := UpdateNZ(r.a ^ operand, r.p))
  }

  /** `ASL`: the byte doubled modulo 256; bit 7 goes into C, N and Z follow
      the result. */
  function Asl(operand: bv8, r: Registers): (out: (bv8, Registers))
    ensures out.0 == operand * 2
    ensures KeepsRegisters(r, out.1) && KeepsControlFlags(r.p, out.1.p) && out.1.p.v == r.p.v
    ensures out.1.p.c == (operand & 0x80 != 0)
    ensures out.1.p.n == (out.0 & 0x40 != 0) && out.1.p.z == (out.0 == 0)
  {
    (operand << 1, r.(p := UpdateNZ(operand << 1, r.p.(c := operand & 0x80 != 0))))
  }

  /** `LSR`: the byte halved; bit 0 goes into C, N is always cleared and Z
      follows the result. */
  function Lsr(operand: bv8, r: Registers): (out: (bv8, Registers))
    ensures out.0 == operand / 2
    ensures KeepsRegisters(r, out.1) && KeepsControlFlags(r.p, out.1.p) && out.1.p.v == r.p.v
    ensures out.1.p.c == (operand & 0x01 != 0)
    ensures !out.1.p.n && out.1.p.z == (operand < 2)
  {
    (operand >> 1, r.(p := UpdateZero(operand >> 1, r.p.(c := operand & 0x01 != 0).(n := false))))
  }

  /** The byte `ROL` computes: shifted left, with the old carry in bit 0. */
  function RotateLeft(operand: bv8, carry: bool): bv8 {
    if carry then (operand << 1) | 0x01 else operand << 1
  }

  /** The byte `ROR` computes: shifted right, with the old carry in bit 7. */
  function RotateRight(operand: bv8, carry: bool): bv8 {
    if carry then (operand >> 1) | 0x80 else operand >> 1
  }

  /** `ROL`: the byte doubled modulo 256 plus the old carry; bit 7 goes into
      C, N and Z follow the result. */
  function Rol(operand: bv8, r: Registers): (out: (bv8, Registers))
    ensures out.0 == operand * 2 + CarryIn(r.p.c)
    ensures KeepsRegisters(r, out.1) && KeepsControlFlags(r.p, out.1.p) && out.1.p.v == r.p.v
    ensures out.1.p.c == (operand & 0x80 != 0)
    ensures out.1.p.n == (out.0 & 0x40 != 0) && out.1.p.z == (out.0 == 0)
  {
    (RotateLeft(operand, r.p.c),
     r.(p := UpdateNZ(RotateLeft(operand, r.p.c), r.p.(c := operand & 0x80 != 0))))
  }

  /** `ROR`: the byte halved plus 128 times the old carry; bit 0 goes into
      C, N and Z follow the result. */
  function Ror(operand: bv8, r: Registers): (out: (bv8, Registers))
    ensures out.0 == operand / 2 + 0x80 * CarryIn(r.p.c)
    ensures KeepsRegisters(r, out.1) && KeepsControlFlags(r.p, out.1.p) && out.1.p.v == r.p.v
    ensures out.1.p.c == (operand & 0x01 != 0)
    ensures out.1.p.n == (out.0 & 0x40 != 0) && out.1.p.z == (out.0 == 0)
  {
    (RotateRight(operand, r.p.c),
     r.(p := UpdateNZ(RotateRight(operand, r.p.c), r.p.(c := operand & 0x01 != 0))))
  }

  /** `BIT`: it tests `operand | 0x80` and `operand | 0x40`, which are never
      zero, so N and V are always set; Z is set iff `a & operand` is zero. */
  function Bit(operand: bv8, r: Registers): (r': Registers)
    ensures KeepsRegisters(r, r') && KeepsControlFlags(r.p, r'.p) && r'.p.c == r.p.c
    ensures r'.p.n && r'.p.v
    ensures r'.p.z <==> r.a & operand == 0
  {
    r.(p := UpdateZero(r.a & operand, r.p.(n := operand | 0x80 != 0).(v := operand | 0x40 != 0)))
  }

  /** `BIT #` (opcode 0x89, written inline in `step`): only Z changes, set
      iff `a & operand` is zero. */
  function BitImmediate(operand: bv8, r: Registers): (r': Registers)
    ensures KeepsRegisters(r, r')
    ensures r'.p == r.p.(z := r.a & operand == 0)
  {
    r.(p := UpdateZero(r.a & operand, r.p))
  }

  /** `CMP`: C iff a >= operand unsigned, Z iff they are equal, N from bit 6
      of `a - operand`; the registers and the other flags are unchanged. */
  function Cmp(operand: bv8, r: Registers): (r': Registers)
    ensures KeepsRegisters(r, r') && KeepsControlFlags(r.p, r'.p) && r'.p.v == r.p.v
    ensures r'.p.c == (r.a >= operand)
    ensures r'.p.z == (r.a == operand)
    ensures r'.p.n == ((r.a - operand) & 0x40 != 0)
  {
    r.(p := UpdateNZ(r.a - operand, r.p.(c := r.a >= operand)))
  }

  /** `CPX`: as `CMP`, on the x register. */
  function Cpx(operand: bv8, r: Registers): (r': Registers)
    ensures KeepsRegisters(r, r') && KeepsControlFlags(r.p, r'.p) && r'.p.v == r.p.v
    ensures r'.p.c == (r.x >= operand)
    ensures r'.p.z == (r.x == operand)
    ensures r'.p.n == ((r.x - operand) & 0x40 != 0)
  {
    r.(p := UpdateNZ(r.x - operand, r.p.(c := r.x >= operand)))
  }

  /** `CPY`: C compares y with the operand, but the difference that gives N
      and Z is computed from x. */
  function Cpy(operand: bv8, r: Registers): (r': Registers)
    ensures KeepsRegisters(r, r') && KeepsControlFlags(r.p, r'.p) && r'.p.v == r.p.v
    ensures r'.p.c == (r.y >= operand)
    ensures r'.p.z == (r.x == operand)
    ensures r'.p.n == ((r.x - operand) & 0x40 != 0)
  {
    r.(p := UpdateNZ(r.x - operand, r.p.(c := r.y >= operand)))
  }

  /** `LDA`: the operand into a, N and Z from it. */
  function Lda(operand: bv8, r: Registers): (r': Registers)
    ensures r'.a == operand && KeepsIndexStackPc(r, r')
    ensures r'.p.n == (operand & 0x40 != 0) && r'.p.z == (operand == 0)
    ensures r'.p == r.p.(n := r'.p.n, z := r'.p.z)
  {
    r.(a := operand, p := UpdateNZ(operand, r.p))
  }

  /** `LDX`: the operand into x, N and Z from it. */
  function Ldx(operand: bv8, r: Registers): (r': Registers)
    ensures r'.x == operand && r'.a == r.a && r'.y == r.y && r'.sp == r.sp && r'.pc == r.pc
    ensures r'.p.n == (operand & 0x40 != 0) && r'.p.z == (operand == 0)
    ensures r'.p == r.p.(n := r'.p.n, z := r'.p.z)
  {
    r.(x := operand, p := UpdateNZ(operand, r.p))
  }

  /** `LDY`: the operand into y, N and Z from it. */
  function Ldy(operand: bv8, r: Registers): (r': Registers)
    ensures r'.y == operand && r'.a == r.a && r'.x == r.x && r'.sp == r.sp && r'.pc == r.pc
    ensures r'.p.n == (operand & 0x40 != 0) && r'.p.z == (operand == 0)
    ensures r'.p == r.p.(n := r'.p.n, z := r'.p.z)
  {
    r.(y := operand, p := UpdateNZ(operand, r.p))
  }

  /** `TRB`: Z from `a & operand`; the result is the operand with the
      accumulator's bits cleared and every other bit kept. */
  function Trb(operand: bv8, r: Registers): (out: (bv8, Registers))
    ensures out.0 & r.a == 0
    ensures out.0 & !r.a == operand & !r.a
    ensures out.1 == r.(p := r.p.(z := r.a & operand == 0))
  {
    (operand & !r.a, r.(p := UpdateZero(r.a & operand, r.p)))
  }

  /** `TSB`: Z from `a & operand`; the result is the operand with the
      accumulator's bits set and every other bit kept. */
  function Tsb(operand: bv8, r: Registers): (out: (bv8, Registers))
    ensures out.0 & r.a == r.a
    ensures out.0 & !r.a == operand & !r.a
    ensures out.1 == r.(p := r.p.(z := r.a & operand == 0))
  {
    (operand | r.a, r.(p := UpdateZero(r.a & operand, r.p)))
  }

  /** `DEC` on memory (written inline in `step`): the byte one less, modulo
      256; N and Z from the result. */
  function Dec(operand: bv8, r: Registers): (out: (bv8, Registers))
    ensures out.0 + 1 == operand
    ensures KeepsRegisters(r, out.1)
    ensures out.1.p.n == (out.0 & 0x40 != 0) && out.1.p.z == (out.0 == 0)
    ensures out.1.p == r.p.(n := out.1.p.n, z := out.1.p.z)
  {
    (operand - 1, r.(p := UpdateNZ(operand - 1, r.p)))
  }

  /** `SIGNED(b) >= 0` holds exactly when bit 7 of `b` is clear. */
  lemma SignedNonNegative(b: bv8)
    ensures Signed(b) >= 0 <==> b < 0x80
  {
  }

  /** In binary mode `ADC` leaves the 8-bit sum, and C iff it is below the
      operand. */
  lemma AdcBinary(operand: bv8, r: Registers)
    requires !r.p.d
    ensures Adc(operand, r).a == Sum(r.a, operand, r.p.c)
    ensures Adc(operand, r).p.c <==> Adc(operand, r).a < operand
  {
  }

  /** In decimal mode `ADC` reads both operands through `BCDToBin`, whose
      values are at most 11, so the sum is at most 23: C is always cleared
      and the accumulator is the sum in packed BCD. */
  lemma AdcDecimal(operand: bv8, r: Registers)
    requires r.p.d
    ensures DecimalSum(r.a, operand, r.p.c) <= 23
    ensures Adc(operand, r).a == Bcd.PackedDigits(DecimalSum(r.a, operand, r.p.c))
    ensures !Adc(operand, r).p.c
  {
  }

  /** In binary mode `SBC` leaves the 8-bit difference and always clears V. */
  lemma SbcBinary(operand: bv8, r: Registers)
    requires !r.p.d
    ensures Sbc(operand, r).a == Difference(r.a, operand, r.p.c)
    ensures !Sbc(operand, r).p.v
  {
  }

  /** In decimal mode `SBC` sets V exactly when the `BCDToBin` difference
      borrows, and leaves that difference modulo 100 in packed BCD. */
  lemma SbcDecimal(operand: bv8, r: Registers)
    requires r.p.d
    ensures Sbc(operand, r).p.v <==>
      Bcd.LowBitsAsDigits(r.a) < Bcd.LowBitsAsDigits(operand) + Borrow(r.p.c)
    ensures Sbc(operand, r).a == Bcd.PackedDigits(Bcd.Remainder100(DecimalDifference(r.a, operand, r.p.c)))
  {
  }

  /** The Negative flag does not follow the sign bit: a result of 0x80 clears
      it and a result of 0x40 sets it. */
  lemma NegativeMissesSignBit(p: Flags)
    ensures !UpdateNeg(0x80, p).n
    ensures UpdateNeg(0x40, p).n
  {
  }

  lemma AndDistributes(u: bv8, v: bv8, m: bv8)
    ensures (u & v) & m == (u & m) & (v & m)
  {
  }

  lemma OrDistributes(u: bv8, v: bv8, m: bv8)
    ensures (u | v) & m == (u & m) | (v & m)
  {
  }

  lemma XorDistributes(u: bv8, v: bv8, m: bv8)
    ensures (u ^ v) & m == (u & m) ^ (v & m)
  {
  }

  /** The mask `1 << k` of `HasBit` is a single bit. */
  lemma SingleBit(k: bv8)
    requires k < 8
    ensures var m: bv8 := 1 << k;
      m == 1 || m == 2 || m == 4 || m == 8 || m == 16 || m == 32 || m == 64 || m == 128
  {
  }

  /** Bit `k` of the accumulator after `AND` is set iff it was set in both
      the accumulator and the operand. */
  lemma AndIsBitwise(operand: bv8, r: Registers, k: bv8)
    requires k < 8
    ensures HasBit(And(operand, r).a, k) == (HasBit(r.a, k) && HasBit(operand, k))
  {
    AndDistributes(r.a, operand, 1 << k);
    SingleBit(k);
  }

  /** Bit `k` after `ORA` is set iff it was set in either. */
  lemma OraIsBitwise(operand: bv8, r: Registers, k: bv8)
    requires k < 8
    ensures HasBit(Ora(operand, r).a, k) == (HasBit(r.a, k) || HasBit(operand, k))
  {
    OrDistributes(r.a, operand, 1 << k);
  }

  /** Bit `k` after `EOR` is set iff it was set in exactly one. */
  lemma EorIsBitwise(operand: bv8, r: Registers, k: bv8)
    requires k < 8
    ensures HasBit(Eor(operand, r).a, k) == (HasBit(r.a, k) != HasBit(operand, k))
  {
    XorDistributes(r.a, operand, 1 << k);
    SingleBit(k);
  }

  /** `EOR` with the same operand twice restores the accumulator. */
  lemma EorTwiceRestores(v: bv8, r: Registers)
    ensures Eor(v, Eor(v, r)).a == r.a
  {
  }

  /** `ROR` undoes `ROL`: rotating right the result of a rotate left, with the
      carry it produced, gives back the byte and the original carry. */
  lemma RorUndoesRol(v: bv8, r: Registers)
    ensures Ror(Rol(v, r).0, Rol(v, r).1).0 == v
    ensures Ror(Rol(v, r).0, Rol(v, r).1).1.p.c == r.p.c
  {
  }

  /** `ROL` undoes `ROR` in the same way. */
  lemma RolUndoesRor(v: bv8, r: Registers)
    ensures Rol(Ror(v, r).0, Ror(v, r).1).0 == v
    ensures Rol(Ror(v, r).0, Ror(v, r).1).1.p.c == r.p.c
  {
  }

  /** The 8-bit sum is below the operand exactly when the 9-bit sum carries
      out, except for an accumulator of 0xFF with a carry in, where the sum
      wraps to the operand itself. */
  lemma SumBelowOperand(a: bv8, operand: bv8, carry: bool)
    ensures Sum(a, operand, carry) < operand <==>
      (a as bv16) + (operand as bv16) + (CarryIn(carry) as bv16) >= 0x100 && !(a == 0xFF && carry)
  {
  }

  /** The carry `ADC` leaves in binary mode is the true carry out of the
      9-bit sum except in one case: accumulator 0xFF with the carry set. */
  lemma AdcCarryMissedAtFF(v: bv8, r: Registers)
    requires !r.p.d
    ensures Adc(v, r).p.c <==>
      (r.a as bv16) + (v as bv16) + (CarryIn(r.p.c) as bv16) >= 0x100 && !(r.a == 0xFF && r.p.c)
  {
    SumBelowOperand(r.a, v, r.p.c);
  }

  /** V follows the sign change of the accumulator, not signed overflow:
      1 + (-128) = -127 fits in a byte, yet V is set. */
  lemma AdcOverflowIsSignChange()
    ensures var r := Registers(0x01, 0, 0, 0xFF, 0, Flags(false, false, false, false, false, false, false, false));
      Signed(0x01) + Signed(0x80) == -127 && Adc(0x80, r).p.v
  {
  }

  /** The carry `SBC` leaves is not "no borrow": 0x80 - 0 with the carry set
      borrows nothing, yet C is cleared because bit 7 of the result is set. */
  lemma SbcCarryIsSignBit()
    ensures var r := Registers(0x80, 0, 0, 0xFF, 0, Flags(false, false, false, false, false, false, false, true));
      Difference(r.a, 0x00, r.p.c) == 0x80 && !Sbc(0x00, r).p.c
  {
  }
}
