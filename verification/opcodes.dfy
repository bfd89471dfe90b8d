/** The operation table of `Cpu.java`: which addressing mode, operation type
    and effect each opcode byte is bound to. */
module Opcodes {
  import opened Outcomes

  /** Which index register an indexed mode adds (`this::x` or `this::y`). */
  datatype IndexRegister = IndexX | IndexY

  /** One shared instance per addressing-mode record of the Java code. */
  datatype Mode =
    | Immediate
    | ZeroPage
    | ZeroPageIndexed(index: IndexRegister)
    | Absolute
    | AbsoluteIndexed(index: IndexRegister)
    | IndexedIndirect
    | IndirectIndexed
    | AbsoluteIndirect
    | Accumulator
    | Implied

  datatype OperationType = Read | Write | ReadWrite | Jump

  /** The effect methods bound into the table, by name; `NoEffect` is the
      empty runnable of NOP and JMP. */
  datatype Effect =
    | NoEffect
    | AddWithCarry | SubtractWithCarry
    | And | Or | Xor | Bit
    | LeftShift | RightShift | RotateLeft | RotateRight
    | Increment | IncrementX | IncrementY
    | Decrement | DecrementX | DecrementY
    | CompareA | CompareX | CompareY
    | LoadA | LoadX | LoadY
    | StoreA | StoreX | StoreY
    | TransferAtoX | TransferAtoY | TransferStoX | TransferXtoA | TransferXtoS | TransferYtoA
    | ClearCarry | SetCarry | ClearDecimal | SetDecimal
    | ClearInterrupt | SetInterrupt | ClearOverflow

  /** An `Operation`: a standard (mode, type, effect) triple, the unfinished
      BRK, or one of the two subroutine sequences. */
  datatype Instruction =
    | Standard(mode: Mode, kind: OperationType, effect: Effect)
    | Break
    | JumpToSubroutine
    | ReturnFromSubroutine

  /** The Java array has 255 slots, so opcode 0xFF has no slot at all. */
  const TableSize: int := 255

  /** The `operation(opcode, ...)` calls of the table initialiser: the
      operation stored in each array slot, or `None` for a slot left `null`.
      The slots are grouped by the opcode's high nibble: `Row6(0x9)` is the
      slot of opcode 0x69. */
  function Binding(index: int): Option<Instruction>
  {
    if index < 0 || index >= 0x100 then None
    else
      var low := index % 16;
      match index / 16
      case 0x0 => Row0(low)
      case 0x1 => Row1(low)
      case 0x2 => Row2(low)
      case 0x3 => Row3(low)
      case 0x4 => Row4(low)
      case 0x5 => Row5(low)
      case 0x6 => Row6(low)
      case 0x7 => Row7(low)
      case 0x8 => Row8(low)
      case 0x9 => Row9(low)
      case 0xA => RowA(low)
      case 0xB => RowB(low)
      case 0xC => RowC(low)
      case 0xD => RowD(low)
      case 0xE => RowE(low)
      case _ => RowF(low)
  }

  /** One row of sixteen slots, indexed by the opcode's low nibble. */
  function Row0(low: int): Option<Instruction>
  {
    match low
    case 0x0 => Some(Break)
    case 0x1 => Some(Standard(IndexedIndirect, Read, Or))
    case 0x5 => Some(Standard(ZeroPage, Read, Or))
    case 0x6 => Some(Standard(ZeroPage, ReadWrite, LeftShift))
    case 0x9 => Some(Standard(Immediate, Read, Or))
    case 0xA => Some(Standard(Accumulator, Read, LeftShift))
    case 0xD => Some(Standard(Absolute, Read, Or))
    case 0xE => Some(Standard(Absolute, ReadWrite, LeftShift))
    case _ => None
  }

  function Row1(low: int): Option<Instruction>
  {
    match low
    case 0x1 => Some(Standard(IndirectIndexed, Read, Or))
    case 0x5 => Some(Standard(ZeroPageIndexed(IndexX), Read, Or))
    case 0x6 => Some(Standard(ZeroPageIndexed(IndexX), ReadWrite, LeftShift))
    case 0x8 => Some(Standard(Implied, Read, ClearCarry))
    case 0x9 => Some(Standard(AbsoluteIndexed(IndexY), Read, Or))
    case 0xD => Some(Standard(AbsoluteIndexed(IndexX), Read, Or))
    case 0xE => Some(Standard(AbsoluteIndexed(IndexX), ReadWrite, LeftShift))
    case _ => None
  }

  function Row2(low: int): Option<Instruction>
  {
    match low
    case 0x0 => Some(JumpToSubroutine)
    case 0x1 => Some(Standard(IndexedIndirect, Read, And))
    case 0x4 => Some(Standard(ZeroPage, Read, Bit))
    case 0x5 => Some(Standard(ZeroPage, Read, And))
    case 0x6 => Some(Standard(ZeroPage, ReadWrite, RotateLeft))
    case 0x9 => Some(Standard(Immediate, Read, And))
    case 0xA => Some(Standard(Accumulator, Read, RotateLeft))
    case 0xC => Some(Standard(AbsoluteIndexed(IndexX), Read, Bit))
    case 0xD => Some(Standard(Absolute, Read, And))
    case 0xE => Some(Standard(Absolute, ReadWrite, RotateLeft))
    case _ => None
  }

  function Row3(low: int): Option<Instruction>
  {
    match low
    case 0x1 => Some(Standard(IndirectIndexed, Read, And))
    case 0x5 => Some(Standard(ZeroPageIndexed(IndexX), Read, And))
    case 0x6 => Some(Standard(ZeroPageIndexed(IndexX), ReadWrite, RotateLeft))
    case 0x8 => Some(Standard(Implied, Read, SetCarry))
    case 0x9 => Some(Standard(AbsoluteIndexed(IndexY), Read, And))
    case 0xD => Some(Standard(AbsoluteIndexed(IndexX), Read, And))
    case 0xE => Some(Standard(AbsoluteIndexed(IndexX), ReadWrite, RotateLeft))
    case _ => None
  }

  function Row4(low: int): Option<Instruction>
  {
    match low
    case 0x1 => Some(Standard(IndexedIndirect, Read, Xor))
    case 0x5 => Some(Standard(ZeroPage, Read, Xor))
    case 0x6 => Some(Standard(ZeroPage, ReadWrite, RightShift))
    case 0x9 => Some(Standard(Immediate, Read, Xor))
    case 0xA => Some(Standard(Accumulator, Read, RightShift))
    case 0xC => Some(Standard(Absolute, Jump, NoEffect))
    case 0xD => Some(Standard(Absolute, Read, Xor))
    case 0xE => Some(Standard(Absolute, ReadWrite, RightShift))
    case _ => None
  }

  function Row5(low: int): Option<Instruction>
  {
    match low
    case 0x1 => Some(Standard(IndirectIndexed, Read, Xor))
    case 0x5 => Some(Standard(ZeroPageIndexed(IndexX), Read, Xor))
    case 0x6 => Some(Standard(ZeroPageIndexed(IndexX), ReadWrite, RightShift))
    case 0x8 => Some(Standard(Implied, Read, ClearInterrupt))
    case 0x9 => Some(Standard(AbsoluteIndexed(IndexY), Read, Xor))
    case 0xD => Some(Standard(AbsoluteIndexed(IndexX), Read, Xor))
    case 0xE => Some(Standard(AbsoluteIndexed(IndexX), ReadWrite, RightShift))
    case _ => None
  }

  function Row6(low: int): Option<Instruction>
  {
    match low
    case 0x0 => Some(ReturnFromSubroutine)
    case 0x1 => Some(Standard(IndexedIndirect, Read, AddWithCarry))
    case 0x5 => Some(Standard(ZeroPage, Read, AddWithCarry))
    case 0x6 => Some(Standard(ZeroPage, ReadWrite, RotateRight))
    case 0x9 => Some(Standard(Immediate, Read, AddWithCarry))
    case 0xA => Some(Standard(Accumulator, Read, RotateRight))
    case 0xC => Some(Standard(AbsoluteIndirect, Jump, NoEffect))
    case 0xD => Some(Standard(Absolute, Read, AddWithCarry))
    case 0xE => Some(Standard(Absolute, ReadWrite, RotateRight))
    case _ => None
  }

  function Row7(low: int): Option<Instruction>
  {
    match low
    case 0x1 => Some(Standard(IndirectIndexed, Read, AddWithCarry))
    case 0x5 => Some(Standard(ZeroPageIndexed(IndexX), Read, AddWithCarry))
    case 0x6 => Some(Standard(ZeroPageIndexed(IndexX), ReadWrite, RotateRight))
    case 0x8 => Some(Standard(Implied, Read, SetInterrupt))
    case 0x9 => Some(Standard(AbsoluteIndexed(IndexY), Read, AddWithCarry))
    case 0xD => Some(Standard(AbsoluteIndexed(IndexX), Read, AddWithCarry))
    case 0xE => Some(Standard(AbsoluteIndexed(IndexX), ReadWrite, RotateRight))
    case _ => None
  }

  function Row8(low: int): Option<Instruction>
  {
    match low
    case 0x1 => Some(Standard(IndexedIndirect, Write, StoreA))
    case 0x4 => Some(Standard(ZeroPage, Write, StoreY))
    case 0x5 => Some(Standard(ZeroPage, Write, StoreA))
    case 0x6 => Some(Standard(ZeroPage, Write, StoreX))
    case 0x8 => Some(Standard(Implied, Read, DecrementY))
    case 0xA => Some(Standard(Implied, Read, TransferXtoA))
    case 0xC => Some(Standard(Absolute, Write, StoreY))
    case 0xD => Some(Standard(Absolute, Write, StoreA))
    case 0xE => Some(Standard(Absolute, Write, StoreX))
    case _ => None
  }

  function Row9(low: int): Option<Instruction>
  {
    match low
    case 0x1 => Some(Standard(IndirectIndexed, Write, StoreA))
    case 0x4 => Some(Standard(ZeroPageIndexed(IndexX), Write, StoreY))
    case 0x5 => Some(Standard(ZeroPageIndexed(IndexX), Write, StoreA))
    case 0x6 => Some(Standard(ZeroPageIndexed(IndexY), Write, StoreX))
    case 0x8 => Some(Standard(Implied, Read, TransferYtoA))
    case 0x9 => Some(Standard(AbsoluteIndexed(IndexY), Write, StoreA))
    case 0xA => Some(Standard(Implied, Read, TransferXtoS))
    case 0xD => Some(Standard(AbsoluteIndexed(IndexX), Write, StoreA))
    case _ => None
  }

  function RowA(low: int): Option<Instruction>
  {
    match low
    case 0x0 => Some(Standard(Immediate, Read, LoadY))
    case 0x1 => Some(Standard(IndexedIndirect, Read, LoadA))
    case 0x2 => Some(Standard(Immediate, Read, LoadX))
    case 0x4 => Some(Standard(ZeroPage, Read, LoadY))
    case 0x5 => Some(Standard(ZeroPage, Read, LoadA))
    case 0x6 => Some(Standard(ZeroPage, Read, LoadX))
    case 0x8 => Some(Standard(Implied, Read, TransferAtoY))
    case 0x9 => Some(Standard(Immediate, Read, LoadA))
    case 0xA => Some(Standard(Implied, Read, TransferAtoX))
    case 0xC => Some(Standard(Absolute, Read, LoadY))
    case 0xD => Some(Standard(Absolute, Read, LoadA))
    case 0xE => Some(Standard(Absolute, Read, LoadX))
    case _ => None
  }

  function RowB(low: int): Option<Instruction>
  {
    match low
    case 0x1 => Some(Standard(IndirectIndexed, Read, LoadA))
    case 0x4 => Some(Standard(ZeroPageIndexed(IndexX), Read, LoadY))
    case 0x5 => Some(Standard(ZeroPageIndexed(IndexX), Read, LoadA))
    case 0x6 => Some(Standard(ZeroPageIndexed(IndexY), Read, LoadX))
    case 0x8 => Some(Standard(Implied, Read, ClearOverflow))
    case 0x9 => Some(Standard(AbsoluteIndexed(IndexY), Read, LoadA))
    case 0xA => Some(Standard(Implied, Read, TransferStoX))
    case 0xC => Some(Standard(AbsoluteIndexed(IndexX), Read, LoadY))
    case 0xD => Some(Standard(AbsoluteIndexed(IndexX), Read, LoadA))
    case 0xE => Some(Standard(AbsoluteIndexed(IndexY), Read, LoadX))
    case _ => None
  }

  function RowC(low: int): Option<Instruction>
  {
    match low
    case 0x0 => Some(Standard(Immediate, Read, CompareY))
    case 0x1 => Some(Standard(IndexedIndirect, Read, CompareA))
    case 0x4 => Some(Standard(ZeroPage, Read, CompareY))
    case 0x5 => Some(Standard(ZeroPage, Read, CompareA))
    case 0x6 => Some(Standard(ZeroPage, ReadWrite, Decrement))
    case 0x8 => Some(Standard(Implied, Read, IncrementY))
    case 0x9 => Some(Standard(Immediate, Read, CompareA))
    case 0xA => Some(Standard(Implied, Read, DecrementX))
    case 0xC => Some(Standard(Absolute, Read, CompareY))
    case 0xD => Some(Standard(Absolute, Read, CompareA))
    case 0xE => Some(Standard(Absolute, ReadWrite, Decrement))
    case _ => None
  }

  function RowD(low: int): Option<Instruction>
  {
    match low
    case 0x1 => Some(Standard(IndirectIndexed, Read, CompareA))
    case 0x5 => Some(Standard(ZeroPageIndexed(IndexX), Read, CompareA))
    case 0x6 => Some(Standard(ZeroPageIndexed(IndexX), ReadWrite, Decrement))
    case 0x8 => Some(Standard(Implied, Read, ClearDecimal))
    case 0x9 => Some(Standard(AbsoluteIndexed(IndexY), Read, CompareA))
    case 0xD => Some(Standard(AbsoluteIndexed(IndexX), Read, CompareA))
    case 0xE => Some(Standard(AbsoluteIndexed(IndexX), ReadWrite, Decrement))
    case _ => None
  }

  function RowE(low: int): Option<Instruction>
  {
    match low
    case 0x0 => Some(Standard(Immediate, Read, CompareX))
    case 0x1 => Some(Standard(IndexedIndirect, Read, SubtractWithCarry))
    case 0x4 => Some(Standard(ZeroPage, Read, CompareX))
    case 0x5 => Some(Standard(ZeroPage, Read, SubtractWithCarry))
    case 0x6 => Some(Standard(ZeroPage, ReadWrite, Increment))
    case 0x8 => Some(Standard(Implied, Read, IncrementX))
    case 0x9 => Some(Standard(Immediate, Read, SubtractWithCarry))
    case 0xA => Some(Standard(Implied, Read, NoEffect))
    case 0xC => Some(Standard(Absolute, Read, CompareX))
    case 0xD => Some(Standard(Absolute, Read, SubtractWithCarry))
    case 0xE => Some(Standard(Absolute, ReadWrite, Increment))
    case _ => None
  }

  function RowF(low: int): Option<Instruction>
  {
    match low
    case 0x1 => Some(Standard(IndirectIndexed, Read, SubtractWithCarry))
    case 0x5 => Some(Standard(ZeroPageIndexed(IndexX), Read, SubtractWithCarry))
    case 0x6 => Some(Standard(ZeroPageIndexed(IndexX), ReadWrite, Increment))
    case 0x8 => Some(Standard(Implied, Read, SetDecimal))
    case 0x9 => Some(Standard(AbsoluteIndexed(IndexY), Read, SubtractWithCarry))
    case 0xD => Some(Standard(AbsoluteIndexed(IndexX), Read, SubtractWithCarry))
    case 0xE => Some(Standard(AbsoluteIndexed(IndexX), ReadWrite, Increment))
    case _ => None
  }

  /** What the opcode fetch finds in the table. */
  datatype Slot = Bound(instruction: Instruction) | Unbound | OutsideTable

  /** `operations[initLowByte(opcode)]`: an index past the array's end, a
      `null` slot, or the bound operation. */
  function Dispatch(opcode: bv8): (r: Slot)
    ensures r.OutsideTable? <==> opcode as int >= TableSize
    ensures r.Bound? ==> Binding(opcode as int) == Some(r.instruction)
    ensures r.Unbound? <==> opcode as int < TableSize && Binding(opcode as int).None?
  {
    var index := opcode as int;
    if index >= TableSize then OutsideTable
    else match Binding(index)
      case Some(inst) => Bound(inst)
      case None => Unbound
  }

  /** The operation types whose state graph the mode's `switch` covers: every
      state the mode moves to is one of its own cases, and no case throws. */
  predicate WellFormed(inst: Instruction)
  {
    match inst
    case Standard(mode, kind, _) =>
      (match mode
       case Immediate => kind != ReadWrite
       case AbsoluteIndexed(_) => kind != Jump
       case IndexedIndirect => kind != ReadWrite
       case IndirectIndexed => kind != ReadWrite
       case Accumulator => kind != ReadWrite
       case Implied => kind != ReadWrite
       case _ => true)
    case _ => true
  }

  /** Every bound slot holds an operation whose state graph is closed, so a
      dispatched instruction never reaches its mode's `default` branch. */
  lemma TableWellFormed(opcode: bv8)
    ensures Dispatch(opcode).Bound? ==> WellFormed(Dispatch(opcode).instruction)
  {
    var index := opcode as int;
    if Binding(index).Some? {
      BindingsWellFormed(index);
    }
  }

  lemma BindingsWellFormed(index: int)
    requires Binding(index).Some?
    ensures WellFormed(Binding(index).value)
  {
  }

  /** Slots the table leaves in an unusual state: BIT 0x2C is bound to
      absolute-X rather than absolute addressing, 0x02 is one of the
      opcodes left `null`, and 0xFF lies past the 255-slot array. */
  lemma TableQuirks(opcode: bv8)
    ensures opcode == 0x2C ==> Dispatch(opcode) == Bound(Standard(AbsoluteIndexed(IndexX), Read, Bit))
    ensures opcode == 0x02 ==> Dispatch(opcode) == Unbound
    ensures opcode == 0xFF ==> Dispatch(opcode) == OutsideTable
  {
  }
}
