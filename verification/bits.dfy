/** Byte and word helpers of the 6502 core: the Java code keeps registers in
    signed `byte`/`short` fields, this model keeps them as `bv8`/`bv16` and
    makes the places where the sign matters explicit. */
module Bits {

  /** The value Java sees in a `byte` holding `b` (two's complement). */
  function Signed(b: bv8): int
  {
    if b < 0x80 then b as int else b as int - 256
  }

  function LowByte(w: bv16): bv8
  {
    (w & 0x00FF) as bv8
  }

  function HighByte(w: bv16): bv8
  {
    (w >> 8) as bv8
  }

  /** The value Java sees in a `short` holding `w`, written as signed high
      byte times 256 plus unsigned low byte. */
  function SignedWord(w: bv16): int
  {
    Signed(HighByte(w)) * 256 + LowByte(w) as int
  }

  /** `setLowByte`: replace the low byte, keep the high byte. */
  function SetLowByte(w: bv16, low: bv8): (r: bv16)
    ensures HighByte(r) == HighByte(w)
    ensures LowByte(r) == low
  {
    (w & 0xFF00) | low as bv16
  }

  /** `setHighByte`: replace the high byte, keep the low byte. */
  function SetHighByte(w: bv16, high: bv8): (r: bv16)
    ensures HighByte(r) == high
    ensures LowByte(r) == LowByte(w)
  {
    (high as bv16 << 8) | (w & 0x00FF)
  }

  /** `initLowByte`: a zero-page address, high byte zero. */
  function InitLowByte(low: bv8): (r: bv16)
    ensures r < 0x0100
    ensures LowByte(r) == low
  {
    SetLowByte(0, low)
  }

  /** `add`: the 6502's ALU works on bytes, so the addend only reaches the low
      byte and a carry out of it is lost; the high byte never changes. */
  function AddToLowByte(w: bv16, addend: bv8): (r: bv16)
    ensures HighByte(r) == HighByte(w)
    ensures LowByte(r) == LowByte(w) + addend
  {
    SetLowByte(w, LowByte(w) + addend)
  }

  /** True when adding `addend` to the low byte of `w` carries into the high
      byte, that is, when the indexed address crosses a page boundary. */
  predicate CarriesOut(w: bv16, addend: bv8)
  {
    LowByte(w) as bv16 + addend as bv16 >= 0x0100
  }

  /** Java's `a <= b` on two `short`s: two's-complement order is unsigned
      order once the sign bits are flipped. */
  predicate ShortAtMost(a: bv16, b: bv16)
  {
    a ^ 0x8000 <= b ^ 0x8000
  }

  /** Java decides a page crossing by comparing the two addresses as signed
      `short`s (`baseAddress <= address`); since the high bytes agree, that
      comparison fails exactly when the low-byte addition carried out. */
  lemma ShortCompareDetectsCarry(w: bv16, addend: bv8)
    ensures ShortAtMost(w, AddToLowByte(w, addend)) <==> !CarriesOut(w, addend)
  {
  }

  /** The same verdict, stated on the integer values Java sees. */
  lemma SignedCompareDetectsCarry(w: bv16, addend: bv8)
    ensures SignedWord(w) <= SignedWord(AddToLowByte(w, addend)) <==> !CarriesOut(w, addend)
  {
  }

  /** The page-crossing test of `fetchAddressHighAddIndex`: the indexed
      address compares below its base as a signed `short`. */
  function PageCrossed(base: bv16, index: bv8): (r: bool)
    ensures r <==> CarriesOut(base, index)
  {
    ShortCompareDetectsCarry(base, index);
    !ShortAtMost(base, AddToLowByte(base, index))
  }

  /** The address `fetchAddressHighAddIndex` forms from a fetched high byte:
      the high byte is the fetched one, the low byte is the indexed one, and
      the page is crossed exactly when the low byte of `w` carries out. */
  lemma IndexedAddressBytes(w: bv16, high: bv8, index: bv8)
    ensures HighByte(AddToLowByte(SetHighByte(w, high), index)) == high
    ensures LowByte(AddToLowByte(SetHighByte(w, high), index)) == LowByte(w) + index
    ensures PageCrossed(SetHighByte(w, high), index) <==> CarriesOut(w, index)
  {
  }

  /** An address below 0x0100 stays in the zero page under `add`, whatever the
      addend: an indexed zero-page address wraps within page 0. */
  lemma ZeroPageWraps(w: bv16, addend: bv8)
    requires w < 0x0100
    ensures AddToLowByte(w, addend) < 0x0100
    ensures AddToLowByte(w, addend) == (w + addend as bv16) & 0x00FF
  {
  }

  /** A word is its two bytes: writing the low then the high byte of `w`
      over any word gives back `w`. This is what lets a byte pair pushed to
      the stack come back as the same address. */
  lemma BytesMakeWord(w: bv16, x: bv16)
    ensures SetHighByte(SetLowByte(x, LowByte(w)), HighByte(w)) == w
  {
  }
}
