/** The status register `P` and its bit-mapped flags (`Cpu.Flag`). Bit 5 is
    not a flag of this enum and bit 4 (B) is not held as state. */
module Flags {

  datatype Flag = Carry | Zero | InterruptDisabled | Decimal | Overflow | Negative

  function Mask(f: Flag): bv8
  {
    match f
    case Carry => 0x01
    case Zero => 0x02
    case InterruptDisabled => 0x04
    case Decimal => 0x08
    case Overflow => 0x40
    case Negative => 0x80
  }

  predicate IsSet(f: Flag, p: bv8)
  {
    p & Mask(f) != 0
  }

  /** The bits of `p` outside `mask` are those of `q`. */
  predicate SameOutside(p: bv8, q: bv8, mask: bv8)
  {
    p & !mask == q & !mask
  }

  /** Each flag owns a single bit, and no two flags share it. */
  lemma MasksAreSingleDistinctBits(f: Flag, g: Flag)
    ensures Mask(f) & (Mask(f) - 1) == 0 && Mask(f) != 0
    ensures f != g ==> Mask(f) & Mask(g) == 0
  {
  }

  function Set(f: Flag, p: bv8): (r: bv8)
    ensures IsSet(f, r)
    ensures SameOutside(r, p, Mask(f))
  {
    p | Mask(f)
  }

  function Clear(f: Flag, p: bv8): (r: bv8)
    ensures !IsSet(f, r)
    ensures SameOutside(r, p, Mask(f))
  {
    p & !Mask(f)
  }

  /** `Flag.set(p, isSet)`: the flag's bit becomes `b`, the other seven bits
      keep their values, so every other flag reads as before. */
  function Assign(f: Flag, p: bv8, b: bool): (r: bv8)
    ensures IsSet(f, r) == b
    ensures SameOutside(r, p, Mask(f))
    ensures forall g :: g != f ==> IsSet(g, r) == IsSet(g, p)
  {
    var cleared := Clear(f, p);
    if b then Set(f, cleared) else cleared
  }

  /** `setZeroNegativeFlags`: Z iff the value is zero, N iff its bit 7 is set;
      nothing outside Z and N changes. */
  function SetZeroNegative(p: bv8, value: bv8): (r: bv8)
    ensures IsSet(Zero, r) == (value == 0)
    ensures IsSet(Negative, r) == (value & 0x80 != 0)
    ensures SameOutside(r, p, 0x82)
  {
    var cleared := p & !(Mask(Zero) | Mask(Negative));
    var withZero := Assign(Zero, cleared, value == 0);
    Assign(Negative, withZero, value & 0x80 != 0)
  }

  /** The carry as the 0/1 addend that ADC and ROL feed back in. */
  function CarryIn(p: bv8): (r: bv8)
    ensures r <= 1
    ensures r == 1 <==> IsSet(Carry, p)
  {
    p & Mask(Carry)
  }
}
