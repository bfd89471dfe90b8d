/** The pure 8-bit transforms behind the operation effects of `Cpu.java`:
    each takes the operand byte(s) and `P` and returns the new byte and `P`.
    Java widens `byte`s to `int` with sign extension before shifting; that
    widening is written out here as `SignExtend`. */
module Alu {
  import opened Bits
  import opened Flags

  datatype AluOut = AluOut(value: bv8, p: bv8)

  /** Java's implicit `byte` to `int` widening, cut to the 16 bits that the
      shift-by-one operations can observe. */
  function SignExtend(b: bv8): (r: bv16)
    ensures LowByte(r) == b
    ensures HighByte(r) == (if b & 0x80 != 0 then 0xFF else 0x00)
  {
    if b & 0x80 != 0 then 0xFF00 | b as bv16 else b as bv16
  }

  /** Z and N describe `value`, and no bit of `p` outside those two changes. */
  predicate ZeroNegativeOf(r: bv8, p: bv8, value: bv8, kept: bv8)
  {
    && IsSet(Zero, r) == (value == 0)
    && IsSet(Negative, r) == (value & 0x80 != 0)
    && SameOutside(r, p, kept)
  }

  /** The sign bit of a byte, read as two's complement. */
  predicate Negative8(b: bv8)
  {
    b & 0x80 != 0
  }

  /** ADC without decimal correction. The carry and the result byte together
      form the exact nine-bit sum A + data + C, and V is set when two operands
      of the same sign give a result of the other sign (the signed sum left
      -128..127). */
  function AddWithCarry(a: bv8, d: bv8, p: bv8): (r: AluOut)
    ensures (if IsSet(Carry, r.p) then 0x0100 else 0) | r.value as bv16
            == a as bv16 + d as bv16 + CarryIn(p) as bv16
    ensures IsSet(Overflow, r.p) <==> Negative8(a) == Negative8(d) && Negative8(r.value) != Negative8(a)
    ensures ZeroNegativeOf(r.p, p, r.value, 0xC3)
  {
    var sum: bv16 := a as bv16 + d as bv16 + CarryIn(p) as bv16;
    var result := LowByte(sum);
    var p1 := SetZeroNegative(p, result);
    var p2 := Assign(Carry, p1, sum & 0x0100 != 0);
    var overflow := (sum ^ SignExtend(a)) & (sum ^ SignExtend(d)) & 0x0080 != 0;
    AluOut(result, Assign(Overflow, p2, overflow))
  }

  /** SBC is ADC of the one's complement of the operand. Read as a
      subtraction: the result is A - data - (1 - C) modulo 256, the carry
      means "no borrow" (A >= data + 1 - C), and V is set when operands of
      different signs give a result whose sign differs from A's. */
  function SubtractWithCarry(a: bv8, d: bv8, p: bv8): (r: AluOut)
    ensures r.value == a - d - (1 - CarryIn(p))
    ensures IsSet(Carry, r.p) <==> a as bv16 >= d as bv16 + (1 - CarryIn(p)) as bv16
    ensures IsSet(Overflow, r.p) <==> Negative8(a) != Negative8(d) && Negative8(r.value) != Negative8(a)
    ensures ZeroNegativeOf(r.p, p, r.value, 0xC3)
  {
    AddWithCarry(a, !d, p)
  }

  /** CMP/CPX/CPY subtract the two bytes as signed Java `byte`s: C when the
      register is at least the operand, Z when equal, N when less. With equal
      sign bits this is the unsigned comparison; with different sign bits the
      carry comes out the opposite of the unsigned comparison. */
  function Compare(register: bv8, d: bv8, p: bv8): (r: bv8)
    ensures IsSet(Zero, r) <==> register == d
    ensures IsSet(Negative, r) <==> !IsSet(Carry, r)
    ensures register & 0x80 == d & 0x80 ==> (IsSet(Carry, r) <==> register >= d)
    ensures register & 0x80 != d & 0x80 ==> (IsSet(Carry, r) <==> register < d)
    ensures SameOutside(r, p, 0x83)
  {
    var difference := Signed(register) - Signed(d);
    var p1 := Assign(Carry, p, difference >= 0);
    var p2 := Assign(Zero, p1, difference == 0);
    Assign(Negative, p2, difference < 0)
  }

  /** BIT: Z from A AND data; N and V are copied from bits 7 and 6 of the
      operand itself, not of the AND. */
  function Bit(a: bv8, d: bv8, p: bv8): (r: bv8)
    ensures IsSet(Zero, r) <==> a & d == 0
    ensures IsSet(Negative, r) <==> d & 0x80 != 0
    ensures IsSet(Overflow, r) <==> d & 0x40 != 0
    ensures SameOutside(r, p, 0xC2)
  {
    var p1 := Assign(Zero, p, a & d == 0);
    var bitMask := Mask(Negative) | Mask(Overflow);
    (p1 & !bitMask) | (d & bitMask)
  }

  /** ASL: the bit shifted out of bit 7 lands in C, a zero enters bit 0. */
  function ShiftLeft(d: bv8, p: bv8): (r: AluOut)
    ensures r.value & 0x01 == 0
    ensures IsSet(Carry, r.p) <==> d & 0x80 != 0
    ensures ZeroNegativeOf(r.p, p, r.value, 0x83)
  {
    var result := SignExtend(d) << 1;
    var value := LowByte(result);
    var p1 := SetZeroNegative(p, value);
    AluOut(value, Assign(Carry, p1, result & 0xFF00 != 0))
  }

  /** LSR: bit 7 of the result is clear and bit 0 of the operand lands in C. */
  function ShiftRight(d: bv8, p: bv8): (r: AluOut)
    ensures r.value & 0x80 == 0
    ensures IsSet(Carry, r.p) <==> d & 0x01 != 0
    ensures ZeroNegativeOf(r.p, p, r.value, 0x83)
  {
    var bit0 := d & 0x01;
    // the mask undoes the sign extension
    var result := (SignExtend(d) >> 1) & 0x007F;
    var value := LowByte(result);
    var p1 := SetZeroNegative(p, value);
    AluOut(value, Assign(Carry, p1, bit0 != 0))
  }

  /** ASL's result is the operand shifted left within the byte: the sign
      extension of the code never reaches the low eight bits. */
  lemma ShiftLeftDoubles(d: bv8, p: bv8)
    ensures ShiftLeft(d, p).value == d << 1
  {
    RotatedLowByte(d, 0);
  }

  /** LSR's result is the operand shifted right as an unsigned byte: the
      mask clears the bit that sign extension shifted in. */
  lemma ShiftRightHalves(d: bv8, p: bv8)
    ensures ShiftRight(d, p).value == d >> 1
  {
  }

  /** ASL loses nothing: shifting its result back right and putting C in
      bit 7 gives the operand again. */
  lemma ShiftLeftUndone(d: bv8, p: bv8)
    ensures var r := ShiftLeft(d, p);
            (r.value >> 1) | (if IsSet(Carry, r.p) then 0x80 else 0) == d
  {
  }

  /** LSR loses nothing: shifting its result back left and putting C in
      bit 0 gives the operand again. */
  lemma ShiftRightUndone(d: bv8, p: bv8)
    ensures var r := ShiftRight(d, p);
            (r.value << 1) | (if IsSet(Carry, r.p) then 0x01 else 0) == d
  {
  }

  /** The low byte of the widened, shifted operand with `c` or-ed in is the
      byte shift with `c` or-ed in: sign extension never reaches it. */
  lemma RotatedLowByte(d: bv8, c: bv8)
    requires c <= 1
    ensures LowByte((SignExtend(d) << 1) | c as bv16) == (d << 1) | c
  {
    assert ((SignExtend(d) << 1) | c as bv16) & 0xFF == ((d << 1) | c) as bv16;
  }

  /** ROL: the old carry enters bit 0 and the old bit 7 becomes the carry. */
  function RotateLeft(d: bv8, p: bv8): (r: AluOut)
    ensures r.value & 0x01 == CarryIn(p)
    ensures r.value >> 1 == d & 0x7F
    ensures IsSet(Carry, r.p) <==> d & 0x80 != 0
    ensures ZeroNegativeOf(r.p, p, r.value, 0x83)
  {
    var bit7 := d & 0x80;
    var result := (SignExtend(d) << 1) | CarryIn(p) as bv16;
    var value := LowByte(result);
    RotatedLowByte(d, CarryIn(p));
    var p1 := SetZeroNegative(p, value);
    AluOut(value, Assign(Carry, p1, bit7 != 0))
  }

  /** ROR as the Java code computes it: the operand is sign-extended before
      the arithmetic shift, so bits 6..0 of the result are the old bits 7..1,
      the old bit 0 becomes the carry, and bit 7 of the result is set when
      either the old carry or the old bit 7 was set. Only for an operand below
      0x80 is this the 6502's rotate. */
  function RotateRight(d: bv8, p: bv8): (r: AluOut)
    ensures r.value & 0x7F == d >> 1
    ensures (r.value & 0x80 != 0) <==> (IsSet(Carry, p) || d & 0x80 != 0)
    ensures d < 0x80 ==> r.value == (d >> 1) | (CarryIn(p) << 7)
    ensures IsSet(Carry, r.p) <==> d & 0x01 != 0
    ensures ZeroNegativeOf(r.p, p, r.value, 0x83)
  {
    var bit0 := d & 0x01;
    var result := (SignExtend(d) >> 1) | (CarryIn(p) as bv16 << 7);
    var value := LowByte(result);
    var p1 := SetZeroNegative(p, value);
    AluOut(value, Assign(Carry, p1, bit0 != 0))
  }

  /** INC/INX/INY: the successor modulo 256; C and V untouched. */
  function Increment(d: bv8, p: bv8): (r: AluOut)
    ensures r.value - 1 == d
    ensures ZeroNegativeOf(r.p, p, r.value, 0x82)
  {
    var value := d + 1;
    AluOut(value, SetZeroNegative(p, value))
  }

  /** DEC/DEX/DEY: the predecessor modulo 256; C and V untouched. */
  function Decrement(d: bv8, p: bv8): (r: AluOut)
    ensures r.value + 1 == d
    ensures ZeroNegativeOf(r.p, p, r.value, 0x82)
  {
    var value := d - 1;
    AluOut(value, SetZeroNegative(p, value))
  }

  /** AND: a result bit is set exactly when it is set in both A and the
      operand. */
  function And(a: bv8, d: bv8, p: bv8): (r: AluOut)
    ensures r.value & !d == 0 && r.value & !a == 0
    ensures a & d & !r.value == 0
    ensures ZeroNegativeOf(r.p, p, r.value, 0x82)
  {
    var value := a & d;
    AluOut(value, SetZeroNegative(p, value))
  }

  /** ORA: a result bit is set exactly when it is set in A or in the
      operand. */
  function Or(a: bv8, d: bv8, p: bv8): (r: AluOut)
    ensures r.value & d == d && r.value & a == a
    ensures r.value & !(a | d) == 0
    ensures ZeroNegativeOf(r.p, p, r.value, 0x82)
  {
    var value := a | d;
    AluOut(value, SetZeroNegative(p, value))
  }

  /** EOR */
  function Xor(a: bv8, d: bv8, p: bv8): (r: AluOut)
    ensures r.value ^ d == a
    ensures ZeroNegativeOf(r.p, p, r.value, 0x82)
  {
    var value := a ^ d;
    AluOut(value, SetZeroNegative(p, value))
  }

  /** AND and ORA are dual: ANDing two bytes is ORing their complements and
      complementing the result, and the other way round. */
  lemma AndOrDual(a: bv8, d: bv8, p: bv8, q: bv8)
    ensures And(a, d, p).value == !Or(!a, !d, q).value
    ensures Or(a, d, p).value == !And(!a, !d, q).value
  {
  }

  /** ORA then AND with the same operand gives A back, and so does AND then
      ORA. */
  lemma AndOrAbsorb(a: bv8, d: bv8, p: bv8, q: bv8)
    ensures And(a, Or(a, d, p).value, q).value == a
    ensures Or(a, And(a, d, p).value, q).value == a
  {
  }

  /** SBC undoes ADC: adding `d` without carry in and subtracting it again
      without borrow gives A back. */
  lemma SubtractUndoesAdd(a: bv8, d: bv8, p: bv8, q: bv8)
    requires !IsSet(Carry, p) && IsSet(Carry, q)
    ensures SubtractWithCarry(AddWithCarry(a, d, p).value, d, q).value == a
  {
  }

  /** CMP is SBC with the borrow cleared, as far as the carry goes, when
      the two bytes have the same sign bit; with different sign bits the
      signed comparison of the code gives the opposite carry. */
  lemma CompareIsSubtractCarry(register: bv8, d: bv8, p: bv8)
    ensures var sbc := SubtractWithCarry(register, d, Flags.Set(Carry, p));
            && (register & 0x80 == d & 0x80 ==> (IsSet(Carry, Compare(register, d, p)) <==> IsSet(Carry, sbc.p)))
            && (register & 0x80 != d & 0x80 ==> (IsSet(Carry, Compare(register, d, p)) <==> !IsSet(Carry, sbc.p)))
  {
  }

  /** DEC undoes INC and INC undoes DEC. */
  lemma IncrementDecrementInverse(d: bv8, p: bv8, q: bv8)
    ensures Decrement(Increment(d, p).value, q).value == d
    ensures Increment(Decrement(d, p).value, q).value == d
  {
  }

  /** EOR with the same operand twice gives A back. */
  lemma XorTwiceRestores(a: bv8, d: bv8, p: bv8, q: bv8)
    ensures Xor(Xor(a, d, p).value, d, q).value == a
  {
  }

  /** ROL after ROR restores the byte: the bit ROR puts into bit 7 is shifted
      out again, whatever the sign extension put there. */
  lemma RotateLeftUndoesRight(d: bv8, p: bv8)
    ensures var r := RotateRight(d, p);
            RotateLeft(r.value, r.p).value == d
  {
  }

  /** ROR after ROL restores the carry, and it restores the byte exactly
      unless bit 6 was set and bit 7 clear: then ROL leaves bit 7 set and C
      clear, and the sign-extending ROR of the code keeps bit 7 set. */
  lemma RotateRightUndoesLeft(d: bv8, p: bv8)
    ensures var l := RotateLeft(d, p);
            var r := RotateRight(l.value, l.p);
            && (r.value == d <==> d & 0x40 == 0 || d & 0x80 != 0)
            && (IsSet(Carry, r.p) <==> IsSet(Carry, p))
  {
  }

  /** The smallest such byte: 0x40 rotated left is 0x80 (0x81 when C was
      set) with C clear, and rotated back right it becomes 0xC0 whatever C
      was. */
  lemma RotateRightSignExtends(p: bv8)
    ensures RotateLeft(0x40, p).value == 0x80 | CarryIn(p)
    ensures !IsSet(Carry, RotateLeft(0x40, p).p)
    ensures RotateRight(RotateLeft(0x40, p).value, RotateLeft(0x40, p).p).value == 0xC0
  {
  }
}
