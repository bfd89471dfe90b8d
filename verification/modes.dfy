/** The per-cycle micro-operations of `Cpu.java` and the `switch` tables of
    the addressing-mode records and of JSR/RTS. Each micro-operation performs
    at most one bus access of its own and names the state to move to. */
module Modes {
  import opened Bits
  import opened Effects
  import opened Machine
  import opened Opcodes
  import opened Outcomes

  /** One micro-step: the machine afterwards, the bus accesses made, and the
      state the operation returns to the clock driver. */
  datatype Transition = Transition(machine: Machine, events: seq<BusEvent>, next: State)

  /** Which latch an address is read through: `nextPC` post-increments PC,
      `nextPointer` post-increments the pointer within its page. */
  datatype Cursor = ProgramCounter | PointerLatch

  /** The address the cursor designates. */
  function Source(c: Cpu, cursor: Cursor): bv16
  {
    match cursor
    case ProgramCounter => c.pc
    case PointerLatch => c.pointer
  }

  /** The CPU after the cursor's post-increment; nothing but that latch changes. */
  function Advance(c: Cpu, cursor: Cursor): (r: Cpu)
    ensures r == c.(pc := r.pc, pointer := r.pointer)
    ensures cursor.ProgramCounter? ==> r.pc == c.pc + 1 && r.pointer == c.pointer
    ensures cursor.PointerLatch? ==> r.pc == c.pc && r.pointer == AddToLowByte(c.pointer, 1)
  {
    match cursor
    case ProgramCounter => c.(pc := c.pc + 1)
    case PointerLatch => c.(pointer := AddToLowByte(c.pointer, 1))
  }

  /** A step with no bus access. */
  function Idle(m: Machine, next: State): Transition
  {
    Transition(m, [], next)
  }

  function FetchImmediate(m: Machine): Transition
  {
    var c := m.cpu;
    Transition(m.(cpu := c.(data := m.memory.At(c.pc), pc := c.pc + 1)), [Load(c.pc)], DataAvailable)
  }

  function LoadPointerLow(m: Machine, next: State): Transition
  {
    var c := m.cpu;
    Transition(m.(cpu := c.(pointer := InitLowByte(m.memory.At(c.pc)), pc := c.pc + 1)), [Load(c.pc)], next)
  }

  function LoadPointerHigh(m: Machine): Transition
  {
    var c := m.cpu;
    Transition(m.(cpu := c.(pointer := SetHighByte(c.pointer, m.memory.At(c.pc)), pc := c.pc + 1)),
               [Load(c.pc)], FetchAddress)
  }

  /** The dummy read at the un-indexed pointer, then X is added to the
      pointer's low byte only. */
  function IndexPointer(m: Machine): Transition
  {
    var c := m.cpu;
    Transition(m.(cpu := c.(pointer := AddToLowByte(c.pointer, c.x))), [Load(c.pointer)], FetchAddress)
  }

  function LoadAddressLow(m: Machine, next: State, cursor: Cursor): Transition
  {
    var from, c := Source(m.cpu, cursor), Advance(m.cpu, cursor);
    Transition(m.(cpu := c.(address := InitLowByte(m.memory.At(from)))), [Load(from)], next)
  }

  function LoadAddressHigh(m: Machine, next: State, cursor: Cursor): Transition
  {
    var from, c := Source(m.cpu, cursor), Advance(m.cpu, cursor);
    Transition(m.(cpu := c.(address := SetHighByte(c.address, m.memory.At(from)))), [Load(from)], next)
  }

  /** Fetch the high address byte and add the index to the low byte in the
      same cycle. The effective address keeps the fetched high byte, and the
      fix-up state follows exactly when the low-byte addition carried out
      (decided, as in the code, by a signed comparison of the two words). */
  function LoadAddressHighAddIndex(m: Machine, cursor: Cursor, index: bv8): Transition
  {
    var from, c := Source(m.cpu, cursor), Advance(m.cpu, cursor);
    var baseAddress := SetHighByte(c.address, m.memory.At(from));
    var next := if PageCrossed(baseAddress, index) then ReadEffectiveAddressFixHigh else ReadEffectiveAddress;
    Transition(m.(cpu := c.(address := AddToLowByte(baseAddress, index))), [Load(from)], next)
  }

  /** The bogus read at PC (not advanced); the code loads A, not the bus
      value, into the data latch. */
  function ReadBogusInstruction(m: Machine, next: State): Transition
  {
    var c := m.cpu;
    Transition(m.(cpu := c.(data := c.a)), [Load(c.pc)], next)
  }

  /** Read at the wrong-page address, then carry into the high byte. */
  function ReadAndFixHigh(m: Machine, next: State): Transition
  {
    var c := m.cpu;
    Transition(m.(cpu := c.(data := m.memory.At(c.address), address := c.address + 0x0100)),
               [Load(c.address)], next)
  }

  function ReadOperand(m: Machine, next: State): Transition
  {
    var c := m.cpu;
    Transition(m.(cpu := c.(data := m.memory.At(c.address))), [Load(c.address)], next)
  }

  /** The dummy read at the un-indexed zero-page address, then the index is
      added to the low byte only. */
  function ReadAndAddIndex(m: Machine, next: State, index: bv8): Transition
  {
    var c := m.cpu;
    Transition(m.(cpu := c.(data := m.memory.At(c.address), address := AddToLowByte(c.address, index))),
               [Load(c.address)], next)
  }

  /** The data is available: a read-modify-write first stores the unmodified
      byte back, then the effect runs; a read overlaps the next opcode fetch,
      a write or jump fetches it next cycle, a read-modify-write stores the
      new byte next cycle. */
  function ExecuteOperation(m: Machine, effect: Effect, kind: OperationType): (r: Transition)
    ensures r.machine.cpu.operation == m.cpu.operation && r.machine.cpu.state == m.cpu.state
    ensures kind == ReadWrite ==> |r.events| >= 1 && r.events[0] == Store(m.cpu.address, m.cpu.data)
    ensures r.next == (match kind
                       case Read => FetchOpcodeInSameCycle
                       case ReadWrite => StoreResult
                       case _ => FetchOpcode)
  {
    var c := m.cpu;
    var stored := if kind == ReadWrite then m.(memory := m.memory.Updated(c.address, c.data)) else m;
    var before := if kind == ReadWrite then [Store(c.address, c.data)] else [];
    var executed := Execute(effect, stored);
    var next := match kind
      case Read => FetchOpcodeInSameCycle
      case Write => FetchOpcode
      case Jump => FetchOpcode
      case ReadWrite => StoreResult;
    Transition(executed.machine, before + executed.events, next)
  }

  /** Accumulator mode: the effect works on the data latch, which then goes
      back into A. */
  function ExecuteOperationStoreAccumulator(m: Machine, effect: Effect, kind: OperationType): (r: Transition)
    ensures r.machine.cpu.operation == m.cpu.operation && r.machine.cpu.state == m.cpu.state
  {
    var t := ExecuteOperation(m, effect, kind);
    t.(machine := t.machine.(cpu := t.machine.cpu.(a := t.machine.cpu.data)))
  }

  function SetPcToAddress(m: Machine): Transition
  {
    Idle(m.(cpu := m.cpu.(pc := m.cpu.address)), FetchOpcodeInSameCycle)
  }

  function StoreResultAt(m: Machine): Transition
  {
    var c := m.cpu;
    Transition(m.(memory := m.memory.Updated(c.address, c.data)), [Store(c.address, c.data)], FetchOpcode)
  }

  function ReadStack(m: Machine): Transition
  {
    Transition(m, [Load(StackTopAddress(m.cpu.s))], PushPch)
  }

  function PushPcHigh(m: Machine): Transition
  {
    var c := m.cpu;
    var top := StackTopAddress(c.s);
    Transition(Machine(c.(s := c.s - 1), m.memory.Updated(top, HighByte(c.pc))),
               [Store(top, HighByte(c.pc))], PushPcl)
  }

  function PushPcLow(m: Machine): Transition
  {
    var c := m.cpu;
    var top := StackTopAddress(c.s);
    Transition(Machine(c.(s := c.s - 1), m.memory.Updated(top, LowByte(c.pc))),
               [Store(top, LowByte(c.pc))], UpdatePc)
  }

  /** The last JSR cycle: fetch the target's high byte and jump to it. */
  function FetchAddressHighAndUpdatePc(m: Machine): Transition
  {
    var t := LoadAddressHigh(m, FetchOpcode, ProgramCounter);
    t.(machine := t.machine.(cpu := t.machine.cpu.(pc := t.machine.cpu.address)))
  }

  function IncrementStackPointer(m: Machine): Transition
  {
    var c := m.cpu;
    Transition(m.(cpu := c.(s := c.s + 1)), [Load(StackTopAddress(c.s))], PopPcl)
  }

  function PopPcLow(m: Machine): Transition
  {
    var c := m.cpu;
    var top := StackTopAddress(c.s);
    Transition(m.(cpu := c.(pc := SetLowByte(c.pc, m.memory.At(top)), s := c.s + 1)), [Load(top)], PopPch)
  }

  function PopPcHigh(m: Machine): Transition
  {
    var c := m.cpu;
    var top := StackTopAddress(c.s);
    Transition(m.(cpu := c.(pc := SetHighByte(c.pc, m.memory.At(top)))), [Load(top)], IncrementPc)
  }

  function IncrementProgramCounter(m: Machine): Transition
  {
    var c := m.cpu;
    Transition(m.(cpu := c.(pc := c.pc + 1)), [Load(c.pc)], FetchOpcode)
  }

  function IndexValue(c: Cpu, index: IndexRegister): bv8
  {
    match index
    case IndexX => c.x
    case IndexY => c.y
  }

  /** The states each `switch` names, besides FETCH_OPCODE. */
  predicate Handles(inst: Instruction, st: State)
  {
    match inst
    case Standard(mode, _, _) =>
      (match mode
       case Immediate => (st == FetchValue || st == DataAvailable)
       case ZeroPage => (st == FetchAddress || st == ReadEffectiveAddress || st == DataAvailable || st == StoreResult)
       case ZeroPageIndexed(_) =>
         (st == FetchAddress || st == ReadEffectiveAddressAddIndex || st == ReadEffectiveAddress || st == DataAvailable || st == StoreResult)
       case Absolute =>
         (st == FetchAddress || st == FetchEffectiveAddressHigh || st == ReadEffectiveAddress || st == DataAvailable || st == StoreResult || st == UpdatePc)
       case AbsoluteIndexed(_) =>
         (st == FetchAddress || st == FetchEffectiveAddressHighAddIndex || st == ReadEffectiveAddress || st == RereadEffectiveAddress || st == ReadEffectiveAddressFixHigh || st == DataAvailable || st == StoreResult)
       case IndexedIndirect =>
         (st == FetchPointer || st == ReadPointerAddIndex || st == FetchAddress || st == FetchEffectiveAddressHigh || st == ReadEffectiveAddress || st == DataAvailable)
       case IndirectIndexed =>
         (st == FetchPointer || st == FetchAddress || st == FetchEffectiveAddressHighAddIndex || st == ReadEffectiveAddress || st == ReadEffectiveAddressFixHigh || st == DataAvailable)
       case AbsoluteIndirect =>
         (st == FetchPointer || st == FetchPointerHigh || st == FetchAddress || st == FetchEffectiveAddressHigh || st == UpdatePc)
       case Accumulator => (st == FetchBogusInstruction || st == DataAvailable)
       case Implied => (st == FetchBogusInstruction || st == DataAvailable))
    case Break => st == FetchValue
    case JumpToSubroutine => (st == FetchAddress || st == ReadStackTop || st == PushPch || st == PushPcl || st == UpdatePc)
    case ReturnFromSubroutine => (st == FetchBogusInstruction || st == IncrementSp || st == PopPcl || st == PopPch || st == IncrementPc)
  }

  /** A step never touches the latches the clock driver owns: the current
      operation and the state field. */
  predicate KeepsDriverLatches(m: Machine, r: Result<Transition, Fault>)
  {
    r.Ok? ==> r.value.machine.cpu.operation == m.cpu.operation && r.value.machine.cpu.state == m.cpu.state
  }

  function ImmediateMode(m: Machine, effect: Effect, kind: OperationType)
    : (r: Result<Transition, Fault>)
    ensures KeepsDriverLatches(m, r)
  {
    match m.cpu.state
    case FetchOpcode => Ok(Idle(m, FetchValue))
    case FetchValue => Ok(FetchImmediate(m))
    case DataAvailable => Ok(ExecuteOperation(m, effect, kind))
    case _ => Err(IllegalState(m.cpu.state))
  }

  function ZeroPageMode(m: Machine, effect: Effect, kind: OperationType)
    : (r: Result<Transition, Fault>)
    ensures KeepsDriverLatches(m, r)
  {
    match m.cpu.state
    case FetchOpcode => Ok(Idle(m, FetchAddress))
    case FetchAddress =>
      // a write has its data in a register already
      Ok(LoadAddressLow(m, if kind == Write then DataAvailable else ReadEffectiveAddress, ProgramCounter))
    case ReadEffectiveAddress => Ok(ReadOperand(m, DataAvailable))
    case DataAvailable => Ok(ExecuteOperation(m, effect, kind))
    case StoreResult => Ok(StoreResultAt(m))
    case _ => Err(IllegalState(m.cpu.state))
  }

  function ZeroPageIndexedMode(m: Machine, effect: Effect, kind: OperationType, index: IndexRegister)
    : (r: Result<Transition, Fault>)
    ensures KeepsDriverLatches(m, r)
  {
    match m.cpu.state
    case FetchOpcode => Ok(Idle(m, FetchAddress))
    case FetchAddress => Ok(LoadAddressLow(m, ReadEffectiveAddressAddIndex, ProgramCounter))
    case ReadEffectiveAddressAddIndex =>
      Ok(ReadAndAddIndex(m, if kind == Write then DataAvailable else ReadEffectiveAddress,
                                      IndexValue(m.cpu, index)))
    case ReadEffectiveAddress => Ok(ReadOperand(m, DataAvailable))
    case DataAvailable => Ok(ExecuteOperation(m, effect, kind))
    case StoreResult => Ok(StoreResultAt(m))
    case _ => Err(IllegalState(m.cpu.state))
  }

  function AbsoluteMode(m: Machine, effect: Effect, kind: OperationType)
    : (r: Result<Transition, Fault>)
    ensures KeepsDriverLatches(m, r)
  {
    match m.cpu.state
    case FetchOpcode => Ok(Idle(m, FetchAddress))
    case FetchAddress => Ok(LoadAddressLow(m, FetchEffectiveAddressHigh, ProgramCounter))
    case FetchEffectiveAddressHigh =>
      var next := match kind
        case Write => DataAvailable
        case Jump => UpdatePc
        case _ => ReadEffectiveAddress;
      Ok(LoadAddressHigh(m, next, ProgramCounter))
    case ReadEffectiveAddress => Ok(ReadOperand(m, DataAvailable))
    case DataAvailable => Ok(ExecuteOperation(m, effect, kind))
    case StoreResult => Ok(StoreResultAt(m))
    case UpdatePc => Ok(SetPcToAddress(m))
    case _ => Err(IllegalState(m.cpu.state))
  }

  function AbsoluteIndexedMode(m: Machine, effect: Effect, kind: OperationType, index: IndexRegister)
    : (r: Result<Transition, Fault>)
    ensures KeepsDriverLatches(m, r)
  {
    match m.cpu.state
    case FetchOpcode => Ok(Idle(m, FetchAddress))
    case FetchAddress => Ok(LoadAddressLow(m, FetchEffectiveAddressHighAddIndex, ProgramCounter))
    case FetchEffectiveAddressHighAddIndex =>
      Ok(LoadAddressHighAddIndex(m, ProgramCounter, IndexValue(m.cpu, index)))
    case ReadEffectiveAddress =>
      // a read-modify-write reads the effective address twice
      Ok(ReadOperand(m, if kind == ReadWrite then RereadEffectiveAddress else DataAvailable))
    case RereadEffectiveAddress => Ok(ReadOperand(m, DataAvailable))
    case ReadEffectiveAddressFixHigh =>
      (match kind
       case Write => Ok(ReadAndFixHigh(m, DataAvailable))
       case Read => Ok(ReadAndFixHigh(m, ReadEffectiveAddress))
       case ReadWrite => Ok(ReadAndFixHigh(m, RereadEffectiveAddress))
       case Jump => Err(IllegalState(m.cpu.state)))
    case DataAvailable => Ok(ExecuteOperation(m, effect, kind))
    case StoreResult => Ok(StoreResultAt(m))
    case _ => Err(IllegalState(m.cpu.state))
  }

  function IndexedIndirectMode(m: Machine, effect: Effect, kind: OperationType)
    : (r: Result<Transition, Fault>)
    ensures KeepsDriverLatches(m, r)
  {
    match m.cpu.state
    case FetchOpcode => Ok(Idle(m, FetchPointer))
    case FetchPointer => Ok(LoadPointerLow(m, ReadPointerAddIndex))
    case ReadPointerAddIndex => Ok(IndexPointer(m))
    case FetchAddress => Ok(LoadAddressLow(m, FetchEffectiveAddressHigh, PointerLatch))
    case FetchEffectiveAddressHigh =>
      Ok(LoadAddressHigh(m, if kind == Read then ReadEffectiveAddress else DataAvailable, PointerLatch))
    case ReadEffectiveAddress => Ok(ReadOperand(m, DataAvailable))
    case DataAvailable => Ok(ExecuteOperation(m, effect, kind))
    case _ => Err(IllegalState(m.cpu.state))
  }

  function IndirectIndexedMode(m: Machine, effect: Effect, kind: OperationType)
    : (r: Result<Transition, Fault>)
    ensures KeepsDriverLatches(m, r)
  {
    match m.cpu.state
    case FetchOpcode => Ok(Idle(m, FetchPointer))
    case FetchPointer => Ok(LoadPointerLow(m, FetchAddress))
    case FetchAddress => Ok(LoadAddressLow(m, FetchEffectiveAddressHighAddIndex, PointerLatch))
    case FetchEffectiveAddressHighAddIndex => Ok(LoadAddressHighAddIndex(m, PointerLatch, m.cpu.y))
    case ReadEffectiveAddress => Ok(ReadOperand(m, DataAvailable))
    case ReadEffectiveAddressFixHigh =>
      Ok(ReadAndFixHigh(m, if kind == Read then ReadEffectiveAddress else DataAvailable))
    case DataAvailable => Ok(ExecuteOperation(m, effect, kind))
    case _ => Err(IllegalState(m.cpu.state))
  }

  function AbsoluteIndirectMode(m: Machine)
    : (r: Result<Transition, Fault>)
    ensures KeepsDriverLatches(m, r)
  {
    match m.cpu.state
    case FetchOpcode => Ok(Idle(m, FetchPointer))
    case FetchPointer => Ok(LoadPointerLow(m, FetchPointerHigh))
    case FetchPointerHigh => Ok(LoadPointerHigh(m))
    case FetchAddress => Ok(LoadAddressLow(m, FetchEffectiveAddressHigh, PointerLatch))
    case FetchEffectiveAddressHigh => Ok(LoadAddressHigh(m, UpdatePc, PointerLatch))
    case UpdatePc => Ok(SetPcToAddress(m))
    case _ => Err(IllegalState(m.cpu.state))
  }

  function AccumulatorMode(m: Machine, effect: Effect, kind: OperationType)
    : (r: Result<Transition, Fault>)
    ensures KeepsDriverLatches(m, r)
  {
    match m.cpu.state
    // the CPU needs two cycles at least, so it reads PC once more
    case FetchOpcode => Ok(Idle(m, FetchBogusInstruction))
    case FetchBogusInstruction => Ok(ReadBogusInstruction(m, DataAvailable))
    case DataAvailable => Ok(ExecuteOperationStoreAccumulator(m, effect, kind))
    case _ => Err(IllegalState(m.cpu.state))
  }

  function ImpliedMode(m: Machine, effect: Effect, kind: OperationType)
    : (r: Result<Transition, Fault>)
    ensures KeepsDriverLatches(m, r)
  {
    match m.cpu.state
    case FetchOpcode => Ok(Idle(m, FetchBogusInstruction))
    case FetchBogusInstruction => Ok(ReadBogusInstruction(m, DataAvailable))
    case DataAvailable => Ok(ExecuteOperation(m, effect, kind))
    case _ => Err(IllegalState(m.cpu.state))
  }

  function JumpToSubroutineStep(m: Machine)
    : (r: Result<Transition, Fault>)
    ensures KeepsDriverLatches(m, r)
  {
    match m.cpu.state
    case FetchOpcode => Ok(Idle(m, FetchAddress))
    case FetchAddress => Ok(LoadAddressLow(m, ReadStackTop, ProgramCounter))
    case ReadStackTop => Ok(ReadStack(m))
    case PushPch => Ok(PushPcHigh(m))
    case PushPcl => Ok(PushPcLow(m))
    case UpdatePc => Ok(FetchAddressHighAndUpdatePc(m))
    case _ => Err(IllegalState(m.cpu.state))
  }

  function ReturnFromSubroutineStep(m: Machine)
    : (r: Result<Transition, Fault>)
    ensures KeepsDriverLatches(m, r)
  {
    match m.cpu.state
    case FetchOpcode => Ok(Idle(m, FetchBogusInstruction))
    case FetchBogusInstruction => Ok(ReadBogusInstruction(m, IncrementSp))
    case IncrementSp => Ok(IncrementStackPointer(m))
    case PopPcl => Ok(PopPcLow(m))
    case PopPch => Ok(PopPcHigh(m))
    case IncrementPc => Ok(IncrementProgramCounter(m))
    case _ => Err(IllegalState(m.cpu.state))
  }

  /** `operation.clock(state)`: advance the dispatched operation by one
      micro-state. BRK only ever answers FETCH_VALUE, without a bus access. */
  function Operate(inst: Instruction, m: Machine)
    : (r: Result<Transition, Fault>)
    ensures KeepsDriverLatches(m, r)
  {
    match inst
    case Standard(mode, kind, effect) =>
      (match mode
       case Immediate => ImmediateMode(m, effect, kind)
       case ZeroPage => ZeroPageMode(m, effect, kind)
       case ZeroPageIndexed(index) => ZeroPageIndexedMode(m, effect, kind, index)
       case Absolute => AbsoluteMode(m, effect, kind)
       case AbsoluteIndexed(index) => AbsoluteIndexedMode(m, effect, kind, index)
       case IndexedIndirect => IndexedIndirectMode(m, effect, kind)
       case IndirectIndexed => IndirectIndexedMode(m, effect, kind)
       case AbsoluteIndirect => AbsoluteIndirectMode(m)
       case Accumulator => AccumulatorMode(m, effect, kind)
       case Implied => ImpliedMode(m, effect, kind))
    case Break => Ok(Idle(m, FetchValue))
    case JumpToSubroutine => JumpToSubroutineStep(m)
    case ReturnFromSubroutine => ReturnFromSubroutineStep(m)
  }

  /** The machine a step leaves behind, with the state it answered. */
  function Settle(t: Transition): Machine
  {
    t.machine.(cpu := t.machine.cpu.(state := t.next))
  }

  /** The machine after some steps of one operation and each step's bus
      accesses. */
  datatype Micro = Micro(machine: Machine, cycles: seq<seq<BusEvent>>)

  /** `n` consecutive steps of the operation `step` (one of the `switch`
      tables above), each settling into the state it answered; a fault stops
      the sequence. Its own contract only counts the cycles: what a sequence
      of steps does is stated by `PerformCons` and the JSR/RTS chain lemmas
      of module `Subroutines`. */
  function Perform(step: Machine -> Result<Transition, Fault>, m: Machine, n: nat): (r: Result<Micro, Fault>)
    ensures r.Ok? ==> |r.value.cycles| == n
    decreases n
  {
    if n == 0 then Ok(Micro(m, []))
    else
      var t :- step(m);
      var rest :- Perform(step, Settle(t), n - 1);
      Ok(Micro(rest.machine, [t.events] + rest.cycles))
  }

  /** One more step in front of a sequence. */
  lemma PerformCons(step: Machine -> Result<Transition, Fault>, m: Machine, n: nat)
    requires n > 0 && step(m).Ok? && Perform(step, Settle(step(m).value), n - 1).Ok?
    ensures var rest := Perform(step, Settle(step(m).value), n - 1).value;
            Perform(step, m, n) == Ok(Micro(rest.machine, [step(m).value.events] + rest.cycles))
  {
  }

  /** A well-formed operation, asked for a state its `switch` names (or for
      the first step after the opcode fetch), never reaches the `default`
      branch, and it answers FETCH_OPCODE, the same-cycle sentinel, or
      another state it names. The step right after the opcode fetch never
      answers the sentinel, so `clock()` recurses at most once. */
  lemma OperateClosed(inst: Instruction, m: Machine)
    requires WellFormed(inst)
    requires m.cpu.state == FetchOpcode || Handles(inst, m.cpu.state)
    ensures Operate(inst, m).Ok?
    ensures var next := Operate(inst, m).value.next;
            next == FetchOpcode || next == FetchOpcodeInSameCycle || Handles(inst, next)
    ensures m.cpu.state == FetchOpcode ==> Handles(inst, Operate(inst, m).value.next)
  {
    match inst
    case Standard(mode, kind, effect) =>
      if mode.AbsoluteIndexed? || mode.IndexedIndirect? || mode.IndirectIndexed? {
        IndexedModesClosed(Standard(mode, kind, effect), m);
      } else {
        DirectModesClosed(Standard(mode, kind, effect), m);
      }
    case Break =>
    case JumpToSubroutine =>
    case ReturnFromSubroutine =>
  }

  /** OperateClosed for the three modes that add an index to a fetched
      address. */
  lemma IndexedModesClosed(inst: Instruction, m: Machine)
    requires inst.Standard? && (inst.mode.AbsoluteIndexed? || inst.mode.IndexedIndirect? || inst.mode.IndirectIndexed?)
    requires WellFormed(inst)
    requires m.cpu.state == FetchOpcode || Handles(inst, m.cpu.state)
    ensures Operate(inst, m).Ok?
    ensures var next := Operate(inst, m).value.next;
            && (next == FetchOpcode || next == FetchOpcodeInSameCycle || Handles(inst, next))
            && (m.cpu.state == FetchOpcode ==> Handles(inst, next))
  {
  }

  /** OperateClosed for the other standard modes. */
  lemma DirectModesClosed(inst: Instruction, m: Machine)
    requires inst.Standard? && !(inst.mode.AbsoluteIndexed? || inst.mode.IndexedIndirect? || inst.mode.IndirectIndexed?)
    requires WellFormed(inst)
    requires m.cpu.state == FetchOpcode || Handles(inst, m.cpu.state)
    ensures Operate(inst, m).Ok?
    ensures var next := Operate(inst, m).value.next;
            && (next == FetchOpcode || next == FetchOpcodeInSameCycle || Handles(inst, next))
            && (m.cpu.state == FetchOpcode ==> Handles(inst, next))
  {
  }

}
