/** The decimal-mode converters `binToBCD` and `BCDToBin` of src/cpu.c.
    Both are loops over 8-bit locals; the functions give their results and
    the methods are the loops, proved to compute them. */
module Bcd {

  /** What `binToBCD` computes: the tens digit of `v` (modulo 10) in the high
      nibble and the units digit in the low nibble. The hundreds digit is
      lost because the 8-bit place value `i` overflows to 0 after two rounds.
      Written by repeated subtraction; `PackedDigitsIsDivision` gives it in
      terms of `/` and `%`. */
  function PackedDigits(v: bv8): bv8
    decreases v as int
  {
    if v >= 100 then PackedDigits(v - 100)
    else if v >= 10 then PackedDigits(v - 10) + 0x10
    else v
  }

  /** What `BCDToBin` computes: it adds `value % 2` per nibble, so only bit 0
      of each nibble counts, worth 1 and 10. */
  function LowBitsAsDigits(v: bv8): (r: bv8)
    ensures r <= 11
  {
    (v & 1) + 10 * ((v >> 4) & 1)
  }

  /** The `res %= 100` that precedes `binToBCD` in decimal mode, by
      subtraction (`RemainderIsModulo`). */
  function Remainder100(v: bv8): (r: bv8)
    ensures r < 100
  {
    if v >= 200 then v - 200 else if v >= 100 then v - 100 else v
  }

  /** `binToBCD`, as the source loop over `result`, `value` and `i`. */
  method BinToBcd(value: bv8) returns (result: bv8)
    ensures result == PackedDigits(value)
  {
    PackedDigitsIsDivision(value);
    var v := value;
    var i: bv8 := 1;
    result := 0;
    while v != 0
      invariant (i == 1 && v == value && result == 0)
             || (i == 16 && v == value / 10 && result == value % 10)
             || (i == 0 && (v == value / 100 || v == 0) && result == PackedDigits(value))
      decreases v
    {
      result := result | ((v % 10) * i);
      v := v / 10;
      i := i * 16;
    }
  }

  /** `BCDToBin`, as the source loop over `result`, `value` and `i`. */
  method BcdToBin(value: bv8) returns (result: bv8)
    ensures result == LowBitsAsDigits(value)
  {
    var v := value;
    var i: bv8 := 1;
    result := 0;
    while v != 0
      invariant (i == 1 && v == value && result == 0)
             || (i == 10 && v == value >> 4 && result == value % 2)
             || (i == 100 && v == 0 && result == LowBitsAsDigits(value))
      decreases v
    {
      result := result | ((v % 2) * i);
      v := v >> 4;
      i := i * 10;
    }
  }

  /** `binToBCD` puts the units digit of `v` in the low nibble and its tens
      digit, modulo 10, in the high nibble. */
  lemma {:induction false} PackedDigitsIsDivision(v: bv8)
    ensures PackedDigits(v) == ((v / 10) % 10) * 16 + v % 10
    decreases v as int
  {
    if v >= 100 {
      PackedDigitsIsDivision(v - 100);
    } else if v >= 10 {
      PackedDigitsIsDivision(v - 10);
    }
  }

  /** For values up to 99, `binToBCD` is exact packed BCD: tens digit high, units low. */
  lemma PackedDigitsExact(v: bv8)
    requires v <= 99
    ensures PackedDigits(v) >> 4 == v / 10
    ensures PackedDigits(v) & 0x0F == v % 10
  {
    PackedDigitsIsDivision(v);
  }

  /** The subtraction form of `res %= 100` is the remainder modulo 100. */
  lemma RemainderIsModulo(v: bv8)
    ensures Remainder100(v) == v % 100
  {
  }

  /** `BCDToBin` reads bit 0 of the low nibble as units and bit 0 of the
      high nibble as tens. */
  lemma LowBitsAsDigitsDigits(v: bv8)
    ensures LowBitsAsDigits(v) % 10 == v & 1
    ensures LowBitsAsDigits(v) / 10 == (v >> 4) & 1
  {
  }

  /** Converting to BCD and back returns the value only when both of its
      decimal digits are 0 or 1. */
  lemma RoundTripOnlyForBinaryDigits(v: bv8)
    ensures LowBitsAsDigits(PackedDigits(v)) == v <==> (v == 0 || v == 1 || v == 10 || v == 11)
  {
    PackedDigitsIsDivision(v);
  }
}
