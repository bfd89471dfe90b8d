/** The register file, scratch latches and micro-state of `Cpu.java`, the
    memory behind the bus port, and the bus events one clock cycle emits. */
module Machine {
  import opened Bits
  import opened Flags
  import opened Opcodes
  import opened Outcomes

  /** `Cpu.State`: where the current instruction is within its cycles. */
  datatype State =
    | FetchOpcode
    | FetchOpcodeInSameCycle
    | FetchValue
    | FetchAddress
    | ReadEffectiveAddress
    | RereadEffectiveAddress
    | ReadEffectiveAddressAddIndex
    | FetchEffectiveAddressHigh
    | FetchEffectiveAddressHighAddIndex
    | ReadEffectiveAddressFixHigh
    | FetchPointer
    | FetchPointerHigh
    | ReadPointerAddIndex
    | FetchBogusInstruction
    | StoreResult
    | UpdatePc
    | ReadStackTop
    | PushPch
    | PushPcl
    | IncrementSp
    | PopPcl
    | PopPch
    | IncrementPc
    | DataAvailable

  /** The exceptions `clock()` can end in, as values: the opcode's slot lies
      past the 255-entry array, the slot is `null`, no operation has been
      dispatched yet, or a mode's `switch` reached its `default`. */
  datatype Fault =
    | OpcodeOutsideTable(opcode: bv8)
    | UnboundOpcode(opcode: bv8)
    | NoOperation
    | IllegalState(state: State)

  /** One access through the `Memory` port. */
  datatype BusEvent = Load(address: bv16) | Store(address: bv16, value: bv8)

  /** The memory behind the port: a total map from 16-bit addresses to
      bytes. */
  datatype Memory = Memory(cells: bv16 -> bv8) {
    function At(address: bv16): bv8
    {
      cells(address)
    }

    function Updated(address: bv16, value: bv8): (r: Memory)
      ensures r.At(address) == value
      ensures forall other :: other != address ==> r.At(other) == At(other)
    {
      Memory(a => if a == address then value else cells(a))
    }
  }

  datatype Cpu = Cpu(
    a: bv8, x: bv8, y: bv8,
    pc: bv16, s: bv8, p: bv8,
    address: bv16, pointer: bv16, data: bv8,
    state: State,
    operation: Option<Instruction>)

  datatype Machine = Machine(cpu: Cpu, memory: Memory)

  /** `RESET_VECTOR`: the reset hardcodes PC instead of reading the vector. */
  const ResetVector: bv16 := 0xFFFC

  /** A freshly constructed core: registers zero, S = -3, P = I plus bit 5,
      about to fetch an opcode, no operation dispatched. */
  function PowerOn(): Cpu
  {
    Cpu(0, 0, 0, ResetVector, 0xFD, Mask(InterruptDisabled) | 0x20, 0, 0, 0, FetchOpcode, None)
  }

  /** `reset()`: PC := 0xFFFC, S decreases by 3 modulo 256, I is set; A, X,
      Y, the other bits of P, the latches and the micro-state are untouched. */
  function Reset(c: Cpu): (r: Cpu)
    ensures r.pc == ResetVector
    ensures r.s + 3 == c.s
    ensures IsSet(InterruptDisabled, r.p)
    ensures SameOutside(r.p, c.p, Mask(InterruptDisabled))
    ensures r == c.(pc := r.pc, s := r.s, p := r.p)
  {
    c.(pc := ResetVector, s := c.s - 3, p := Flags.Set(InterruptDisabled, c.p))
  }

  /** The stack page address of stack pointer `s`: always in page 1. */
  function StackTopAddress(s: bv8): (r: bv16)
    ensures HighByte(r) == 0x01
    ensures LowByte(r) == s
  {
    0x0100 + s as bv16
  }
}
