/** The effect methods of `Cpu.java` applied to the machine: the ALU
    transforms write back into A, X, Y, S, `data` or P, and the three store
    effects write a register through the bus port. */
module Effects {
  import Alu
  import opened Flags
  import opened Machine
  import opened Opcodes
  import opened Outcomes

  /** The fields an effect may read or write. */
  datatype Registers = Registers(a: bv8, x: bv8, y: bv8, s: bv8, p: bv8, data: bv8)

  function RegistersOf(c: Cpu): Registers
  {
    Registers(c.a, c.x, c.y, c.s, c.p, c.data)
  }

  /** The register side of an effect: the loads and transfers are the
      copies `Copied` names; the stores and the empty effect leave every
      register as it is. */
  function Apply(effect: Effect, r: Registers): Registers
  {
    match Copied(effect)
    case Some(c) => CopyRegister(r, c.source, c.target)
    case None => Compute(effect, r)
  }

  /** The ALU, flag, store and empty effects. */
  function Compute(effect: Effect, r: Registers): Registers
    requires Copied(effect).None?
  {
    match effect
    case NoEffect => r
    case AddWithCarry =>
      var o := Alu.AddWithCarry(r.a, r.data, r.p);
      r.(a := o.value, p := o.p)
    case SubtractWithCarry =>
      // the complemented operand stays in the data latch
      var o := Alu.SubtractWithCarry(r.a, r.data, r.p);
      r.(data := !r.data, a := o.value, p := o.p)
    case And =>
      var o := Alu.And(r.a, r.data, r.p);
      r.(a := o.value, p := o.p)
    case Or =>
      var o := Alu.Or(r.a, r.data, r.p);
      r.(a := o.value, p := o.p)
    case Xor =>
      var o := Alu.Xor(r.a, r.data, r.p);
      r.(a := o.value, p := o.p)
    case Bit => r.(p := Alu.Bit(r.a, r.data, r.p))
    case LeftShift =>
      var o := Alu.ShiftLeft(r.data, r.p);
      r.(data := o.value, p := o.p)
    case RightShift =>
      var o := Alu.ShiftRight(r.data, r.p);
      r.(data := o.value, p := o.p)
    case RotateLeft =>
      var o := Alu.RotateLeft(r.data, r.p);
      r.(data := o.value, p := o.p)
    case RotateRight =>
      var o := Alu.RotateRight(r.data, r.p);
      r.(data := o.value, p := o.p)
    case Increment =>
      var o := Alu.Increment(r.data, r.p);
      r.(data := o.value, p := o.p)
    case IncrementX =>
      var o := Alu.Increment(r.x, r.p);
      r.(x := o.value, p := o.p)
    case IncrementY =>
      var o := Alu.Increment(r.y, r.p);
      r.(y := o.value, p := o.p)
    case Decrement =>
      var o := Alu.Decrement(r.data, r.p);
      r.(data := o.value, p := o.p)
    case DecrementX =>
      var o := Alu.Decrement(r.x, r.p);
      r.(x := o.value, p := o.p)
    case DecrementY =>
      var o := Alu.Decrement(r.y, r.p);
      r.(y := o.value, p := o.p)
    case CompareA => r.(p := Alu.Compare(r.a, r.data, r.p))
    case CompareX => r.(p := Alu.Compare(r.x, r.data, r.p))
    case CompareY => r.(p := Alu.Compare(r.y, r.data, r.p))
    case StoreA => r
    case StoreX => r
    case StoreY => r
    case ClearCarry => r.(p := Clear(Carry, r.p))
    case SetCarry => r.(p := Flags.Set(Carry, r.p))
    case ClearDecimal => r.(p := Clear(Decimal, r.p))
    case SetDecimal => r.(p := Flags.Set(Decimal, r.p))
    case ClearInterrupt => r.(p := Clear(InterruptDisabled, r.p))
    case SetInterrupt => r.(p := Flags.Set(InterruptDisabled, r.p))
    case ClearOverflow => r.(p := Clear(Overflow, r.p))
  }

  /** A flag effect's write: which flag, and the value it gets. */
  datatype FlagWrite = FlagWrite(flag: Flag, value: bool)

  /** The flag effects of `Cpu.java` (CLC, SEC, CLD, SED, CLI, SEI, CLV). */
  function FlagWritten(effect: Effect): Option<FlagWrite>
  {
    match effect
    case ClearCarry => Some(FlagWrite(Carry, false))
    case SetCarry => Some(FlagWrite(Carry, true))
    case ClearDecimal => Some(FlagWrite(Decimal, false))
    case SetDecimal => Some(FlagWrite(Decimal, true))
    case ClearInterrupt => Some(FlagWrite(InterruptDisabled, false))
    case SetInterrupt => Some(FlagWrite(InterruptDisabled, true))
    case ClearOverflow => Some(FlagWrite(Overflow, false))
    case _ => None
  }

  /** A flag effect writes its one bit of P and nothing else. */
  lemma FlagEffectWritesOneBit(effect: Effect, r: Registers)
    requires FlagWritten(effect).Some?
    ensures var w, q := FlagWritten(effect).value, Apply(effect, r);
            && q == r.(p := q.p)
            && IsSet(w.flag, q.p) == w.value
            && SameOutside(q.p, r.p, Mask(w.flag))
  {
    match effect
    case ClearCarry =>
    case SetCarry =>
    case ClearDecimal =>
    case SetDecimal =>
    case ClearInterrupt =>
    case SetInterrupt =>
    case ClearOverflow =>
  }

  /** TXS copies X into S and, unlike the 6502, sets Z and N from it; no
      other register changes. */
  lemma TransferToStackSetsFlags(effect: Effect, r: Registers)
    requires effect == TransferXtoS
    ensures var q := Apply(effect, r);
            && q == r.(s := r.x, p := q.p)
            && IsSet(Zero, q.p) == (r.x == 0)
            && IsSet(Negative, q.p) == (r.x & 0x80 != 0)
            && SameOutside(q.p, r.p, 0x82)
  {
    CopyEffectIsCopy(effect, r, RegisterX, StackPointer);
    CopyRegisterSetsFlags(r, RegisterX, StackPointer);
    assert RegisterValue(r, RegisterX) == r.x;
    assert WithRegister(r, StackPointer, r.x) == r.(s := r.x);
  }

  /** A register a load or transfer copies from or into. */
  datatype RegisterName = RegisterA | RegisterX | RegisterY | StackPointer | DataLatch

  function RegisterValue(r: Registers, name: RegisterName): bv8
  {
    match name
    case RegisterA => r.a
    case RegisterX => r.x
    case RegisterY => r.y
    case StackPointer => r.s
    case DataLatch => r.data
  }

  /** `r` with the named register replaced. */
  function WithRegister(r: Registers, name: RegisterName, value: bv8): Registers
  {
    match name
    case RegisterA => r.(a := value)
    case RegisterX => r.(x := value)
    case RegisterY => r.(y := value)
    case StackPointer => r.(s := value)
    case DataLatch => r.(data := value)
  }

  /** The named register takes the value; every other register and P keep
      theirs. */
  lemma WithRegisterReplacesOne(r: Registers, name: RegisterName, value: bv8)
    ensures var q := WithRegister(r, name, value);
            && RegisterValue(q, name) == value
            && (forall other :: other != name ==> RegisterValue(q, other) == RegisterValue(r, other))
            && q.p == r.p
  {
  }

  /** The loads and transfers (`loadA`, `transferAtoX`, ...): the source's
      byte goes into the target, then Z and N are set from it. */
  function CopyRegister(r: Registers, source: RegisterName, target: RegisterName): Registers
  {
    var value := RegisterValue(r, source);
    WithRegister(r, target, value).(p := SetZeroNegative(r.p, value))
  }

  /** A load or transfer puts the source's byte into the target, sets Z and
      N from it, and changes nothing else. */
  lemma CopyRegisterSetsFlags(r: Registers, source: RegisterName, target: RegisterName)
    ensures var value, q := RegisterValue(r, source), CopyRegister(r, source, target);
            && q == WithRegister(r, target, value).(p := q.p)
            && IsSet(Zero, q.p) == (value == 0)
            && IsSet(Negative, q.p) == (value & 0x80 != 0)
            && SameOutside(q.p, r.p, 0x82)
  {
  }

  /** A load or transfer: the register copied and the register written. */
  datatype Copy = Copy(source: RegisterName, target: RegisterName)

  /** The loads (LDA, LDX, LDY copy the data latch) and the transfers
      (TAX, TAY, TSX, TXA, TXS, TYA) of `Cpu.java`; unlike the 6502's TXS,
      the code's sets Z and N like the others. */
  function Copied(effect: Effect): Option<Copy>
  {
    match effect
    case LoadA => Some(Copy(DataLatch, RegisterA))
    case LoadX => Some(Copy(DataLatch, RegisterX))
    case LoadY => Some(Copy(DataLatch, RegisterY))
    case TransferAtoX => Some(Copy(RegisterA, RegisterX))
    case TransferAtoY => Some(Copy(RegisterA, RegisterY))
    case TransferStoX => Some(Copy(StackPointer, RegisterX))
    case TransferXtoA => Some(Copy(RegisterX, RegisterA))
    case TransferXtoS => Some(Copy(RegisterX, StackPointer))
    case TransferYtoA => Some(Copy(RegisterY, RegisterA))
    case _ => None
  }

  /** Copying back (TXA after TAX, TAX after TXA, TSX after TXS, ...)
      changes nothing: both registers already hold the copied byte and Z
      and N already come from it. */
  lemma CopyBackChangesNothing(r: Registers, source: RegisterName, target: RegisterName)
    ensures var q := CopyRegister(r, source, target);
            && CopyRegister(q, target, source) == q
            && RegisterValue(q, target) == RegisterValue(r, source)
            && RegisterValue(q, source) == RegisterValue(r, source)
  {
    var value := RegisterValue(r, source);
    var q := CopyRegister(r, source, target);
    CopyReadsBoth(r, source, target);
    var q2 := CopyRegister(q, target, source);
    CopyRegisterSetsFlags(q, target, source);
    assert q2 == WithRegister(q, source, value).(p := q2.p);
    WriteSameKeeps(q, source);
    assert WithRegister(q, source, value) == q;
    ZeroNegativeDetermined(q2.p, q.p, value);
    assert q2 == q.(p := q.p);
  }

  /** A transfer followed by the transfer back (TAX then TXA, TXA then TAX,
      TAY then TYA, TYA then TAY, TSX then TXS, TXS then TSX): the target
      holds the source's byte and the second transfer changes nothing, so
      the source register is restored. */
  lemma TransferBackChangesNothing(there: Effect, back: Effect, r: Registers, source: RegisterName, target: RegisterName)
    requires Copied(there) == Some(Copy(source, target)) && Copied(back) == Some(Copy(target, source))
    ensures Apply(back, Apply(there, r)) == Apply(there, r)
    ensures RegisterValue(Apply(there, r), target) == RegisterValue(r, source)
    ensures RegisterValue(Apply(back, Apply(there, r)), source) == RegisterValue(r, source)
  {
    CopyEffectIsCopy(there, r, source, target);
    CopyEffectIsCopy(back, Apply(there, r), target, source);
    CopyBackChangesNothing(r, source, target);
  }

  /** The register side of a load or transfer is its copy. */
  lemma CopyEffectIsCopy(effect: Effect, r: Registers, source: RegisterName, target: RegisterName)
    requires Copied(effect) == Some(Copy(source, target))
    ensures Apply(effect, r) == CopyRegister(r, source, target)
  {
  }

  /** After a copy both the source and the target hold the source's byte. */
  lemma CopyReadsBoth(r: Registers, source: RegisterName, target: RegisterName)
    ensures var q := CopyRegister(r, source, target);
            && RegisterValue(q, target) == RegisterValue(r, source)
            && RegisterValue(q, source) == RegisterValue(r, source)
  {
    var value := RegisterValue(r, source);
    var q := CopyRegister(r, source, target);
    WithRegisterReplacesOne(r, target, value);
    FlagsAside(WithRegister(r, target, value), SetZeroNegative(r.p, value));
  }

  /** Replacing P leaves every named register as it is. */
  lemma FlagsAside(r: Registers, p: bv8)
    ensures forall name :: RegisterValue(r.(p := p), name) == RegisterValue(r, name)
  {
    forall name ensures RegisterValue(r.(p := p), name) == RegisterValue(r, name) {
      match name
      case RegisterA =>
      case RegisterX =>
      case RegisterY =>
      case StackPointer =>
      case DataLatch =>
    }
  }

  /** Writing a register's own value back changes nothing. */
  lemma WriteSameKeeps(r: Registers, name: RegisterName)
    ensures WithRegister(r, name, RegisterValue(r, name)) == r
  {
    match name
    case RegisterA =>
    case RegisterX =>
    case RegisterY =>
    case StackPointer =>
    case DataLatch =>
  }

  /** Two values of P that agree outside Z and N and both have Z and N from
      the same byte are equal. */
  lemma ZeroNegativeDetermined(p: bv8, q: bv8, value: bv8)
    requires IsSet(Zero, p) == (value == 0) && IsSet(Negative, p) == (value & 0x80 != 0)
    requires IsSet(Zero, q) == (value == 0) && IsSet(Negative, q) == (value & 0x80 != 0)
    requires SameOutside(p, q, 0x82)
    ensures p == q
  {
  }

  /** SBC leaves the complemented operand in the data latch; X, Y and S
      are untouched. */
  lemma SubtractComplementsData(effect: Effect, r: Registers)
    requires effect == SubtractWithCarry
    ensures var q := Apply(effect, r);
            && q.data == !r.data
            && q.x == r.x && q.y == r.y && q.s == r.s
  {
  }

  /** The register a store effect writes out, if `effect` is one. */
  function StoredRegister(effect: Effect, c: Cpu): Option<bv8>
  {
    match effect
    case StoreA => Some(c.a)
    case StoreX => Some(c.x)
    case StoreY => Some(c.y)
    case _ => None
  }

  /** The machine after an effect and the bus writes it made. */
  datatype Executed = Executed(machine: Machine, events: seq<BusEvent>)

  /** Run `effect` once (`operation.run()`). */
  function Execute(effect: Effect, m: Machine): (r: Executed)
    // an effect writes registers, flags and the data latch, never the
    // address latches or the driver's state
    ensures r.machine.cpu == m.cpu.(a := r.machine.cpu.a, x := r.machine.cpu.x, y := r.machine.cpu.y,
                                    s := r.machine.cpu.s, p := r.machine.cpu.p, data := r.machine.cpu.data)
    // only the three store effects use the bus, each with one write of its register
    ensures StoredRegister(effect, m.cpu).Some? ==>
              && r.events == [Store(m.cpu.address, StoredRegister(effect, m.cpu).value)]
              && r.machine.memory == m.memory.Updated(m.cpu.address, StoredRegister(effect, m.cpu).value)
    ensures StoredRegister(effect, m.cpu).None? ==> r.events == [] && r.machine.memory == m.memory
  {
    var after := Apply(effect, RegistersOf(m.cpu));
    var c := m.cpu.(a := after.a, x := after.x, y := after.y, s := after.s, p := after.p, data := after.data);
    match StoredRegister(effect, m.cpu)
    case Some(value) => Executed(Machine(c, m.memory.Updated(m.cpu.address, value)), [Store(m.cpu.address, value)])
    case None => Executed(m.(cpu := c), [])
  }
}
