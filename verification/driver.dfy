/** `Cpu.clock`: the opcode fetch, one step of the dispatched operation, and
    the extra step when a read overlaps the next opcode fetch. */
module Driver {
  import opened Machine
  import opened Modes
  import opened Opcodes
  import opened Outcomes

  /** The machine after a whole clock cycle and the bus accesses of the cycle,
      in order. */
  datatype Cycle = Cycle(machine: Machine, events: seq<BusEvent>)

  /** `fetchOpcode`: read the opcode at PC, advance PC and look the operation
      up; an index past the table and an empty slot are faults. */
  function FetchOpcode(m: Machine): (r: Result<Cycle, Fault>)
    ensures var opcode := m.memory.At(m.cpu.pc);
            && (r.Ok? <==> Dispatch(opcode).Bound?)
            && (Dispatch(opcode).OutsideTable? ==> r == Err(OpcodeOutsideTable(opcode)))
            && (Dispatch(opcode).Unbound? ==> r == Err(UnboundOpcode(opcode)))
            && (r.Ok? ==> r.value.events == [Load(m.cpu.pc)]
                          && r.value.machine.memory == m.memory
                          && r.value.machine.cpu == m.cpu.(pc := m.cpu.pc + 1, operation := Some(Dispatch(opcode).instruction)))
  {
    var opcode := m.memory.At(m.cpu.pc);
    match Dispatch(opcode)
    case OutsideTable => Err(OpcodeOutsideTable(opcode))
    case Unbound => Err(UnboundOpcode(opcode))
    case Bound(inst) => Ok(Cycle(m.(cpu := m.cpu.(pc := m.cpu.pc + 1, operation := Some(inst))), [Load(m.cpu.pc)]))
  }

  /** One pass through `clock()` up to the same-cycle check: fetch the opcode
      when the state asks for it, then advance the operation one state. */
  function ClockOnce(m: Machine): Result<Cycle, Fault>
  {
    var fetched :- if m.cpu.state == State.FetchOpcode then FetchOpcode(m) else Ok(Cycle(m, []));
    var pre := fetched.machine;
    if pre.cpu.operation.None? then Err(NoOperation)
    else
      var t :- Operate(pre.cpu.operation.value, pre);
      Ok(Cycle(t.machine.(cpu := t.machine.cpu.(state := t.next)), fetched.events + t.events))
  }

  /** The step right after an opcode fetch: only the fetch itself can fail,
      and the bound operation lands in a state its `switch` names, never in
      the same-cycle sentinel. */
  lemma ClockOnceAfterFetch(m: Machine)
    requires m.cpu.state == State.FetchOpcode
    ensures ClockOnce(m).Err? ==> FetchFault(ClockOnce(m).error)
    ensures ClockOnce(m).Ok? ==>
              var c := ClockOnce(m).value.machine.cpu;
              && c.operation.Some?
              && WellFormed(c.operation.value)
              && Handles(c.operation.value, c.state)
              && c.state != FetchOpcodeInSameCycle
  {
    var opcode := m.memory.At(m.cpu.pc);
    if Dispatch(opcode).Bound? {
      FetchLandsInHandledState(m, Dispatch(opcode).instruction);
    }
  }

  /** After a successful opcode fetch, the first step leaves the bound
      operation latched, in a state its `switch` names. */
  lemma FetchLandsInHandledState(m: Machine, inst: Instruction)
    requires m.cpu.state == State.FetchOpcode && Dispatch(m.memory.At(m.cpu.pc)) == Bound(inst)
    ensures ClockOnce(m).Ok?
    ensures var c := ClockOnce(m).value.machine.cpu;
            c.operation == Some(inst) && WellFormed(inst) && Handles(inst, c.state)
  {
    var fetched := m.(cpu := m.cpu.(pc := m.cpu.pc + 1, operation := Some(inst)));
    TableWellFormed(m.memory.At(m.cpu.pc));
    OperateClosed(inst, fetched);
    FetchThenOperate(m, inst);
  }

  /** `clock()`: when the step ends in FETCH_OPCODE_IN_SAME_CYCLE the next
      opcode is fetched, and its first step run, in this same cycle; so a
      completed cycle never leaves the sentinel behind. */
  function Clock(m: Machine): (r: Result<Cycle, Fault>)
    ensures r.Ok? ==> r.value.machine.cpu.state != FetchOpcodeInSameCycle
  {
    var first :- ClockOnce(m);
    if first.machine.cpu.state == FetchOpcodeInSameCycle then
      var again := first.machine.(cpu := first.machine.cpu.(state := State.FetchOpcode));
      ClockOnceAfterFetch(again);
      var second :- ClockOnce(again);
      Ok(Cycle(second.machine, first.events + second.events))
    else
      Ok(first)
  }

  /** The machine after `n` cycles and each cycle's bus accesses; a fault
      stops the run. */
  datatype Trace = Trace(machine: Machine, cycles: seq<seq<BusEvent>>)

  /** `n` successive calls of `step`, each starting from the machine the
      previous one left behind. Its own contract only counts the cycles:
      what a run keeps is stated by `RepeatKeeps` and
      `RunPreservesConsistency`, and the PPU counterpart, repeated
      increments, by `VRam.IncrementXSteps` and `VRam.IncrementYSteps`. */
  function Repeat(step: Machine -> Result<Cycle, Fault>, m: Machine, n: nat): (r: Result<Trace, Fault>)
    ensures r.Ok? ==> |r.value.cycles| == n
    decreases n
  {
    if n == 0 then Ok(Trace(m, []))
    else
      var c :- step(m);
      var rest :- Repeat(step, c.machine, n - 1);
      Ok(Trace(rest.machine, [c.events] + rest.cycles))
  }

  /** `n` calls of `clock()`. */
  function Run(m: Machine, n: nat): Result<Trace, Fault>
  {
    Repeat(Clock, m, n)
  }

  /** A property every step keeps, and a class of faults every step stays
      within, hold of any number of steps. */
  lemma {:induction false} RepeatKeeps(step: Machine -> Result<Cycle, Fault>, keep: Machine -> bool,
                                       allowed: Fault -> bool, m: Machine, n: nat)
    requires keep(m)
    requires forall c :: keep(c) ==> (step(c).Err? ==> allowed(step(c).error))
                                     && (step(c).Ok? ==> keep(step(c).value.machine))
    ensures Repeat(step, m, n).Err? ==> allowed(Repeat(step, m, n).error)
    ensures Repeat(step, m, n).Ok? ==> keep(Repeat(step, m, n).value.machine)
    decreases n
  {
    if n > 0 && step(m).Ok? {
      RepeatKeeps(step, keep, allowed, step(m).value.machine, n - 1);
    }
  }

  /** What the machine keeps between cycles: the state is never the
      sentinel, and any state other than FETCH_OPCODE belongs to a
      well-formed operation whose `switch` names it. */
  predicate Consistent(m: Machine)
  {
    && m.cpu.state != FetchOpcodeInSameCycle
    && (m.cpu.state != State.FetchOpcode ==>
          && m.cpu.operation.Some?
          && WellFormed(m.cpu.operation.value)
          && Handles(m.cpu.operation.value, m.cpu.state))
  }

  /** A consistent machine stays consistent, and the only faults a clock
      cycle can raise are the two opcode-fetch faults: IllegalState and the
      missing operation never happen. */
  lemma ClockPreservesConsistency(m: Machine)
    requires Consistent(m)
    ensures Clock(m).Err? ==> FetchFault(Clock(m).error)
    ensures Clock(m).Ok? ==> Consistent(Clock(m).value.machine)
  {
    if m.cpu.state == State.FetchOpcode {
      ClockOnceAfterFetch(m);
    } else {
      OperateClosed(m.cpu.operation.value, m);
    }
    if ClockOnce(m).Ok? {
      var first := ClockOnce(m).value.machine;
      if first.cpu.state == FetchOpcodeInSameCycle {
        ClockOnceAfterFetch(first.(cpu := first.cpu.(state := State.FetchOpcode)));
      }
    }
  }

  /** The machine after power-on is consistent, and so is one after reset. */
  lemma PowerOnConsistent()
    ensures Consistent(Machine(PowerOn(), Memory(a => 0)))
  {
  }

  lemma ResetKeepsConsistency(m: Machine)
    requires Consistent(m)
    ensures Consistent(m.(cpu := Reset(m.cpu)))
  {
  }

  /** Any number of cycles from a consistent machine faults only on an
      opcode fetch and ends consistent. */
  lemma RunPreservesConsistency(m: Machine, n: nat)
    requires Consistent(m)
    ensures Run(m, n).Err? ==> FetchFault(Run(m, n).error)
    ensures Run(m, n).Ok? ==> Consistent(Run(m, n).value.machine)
  {
    forall c | Consistent(c)
      ensures Clock(c).Err? ==> FetchFault(Clock(c).error)
      ensures Clock(c).Ok? ==> Consistent(Clock(c).value.machine)
    {
      ClockPreservesConsistency(c);
    }
    RepeatKeeps(Clock, Consistent, FetchFault, m, n);
  }

  /** The two faults of the opcode fetch. */
  predicate FetchFault(f: Fault)
  {
    f.OpcodeOutsideTable? || f.UnboundOpcode?
  }

  /** A cycle whose pass through the operation does not end in the
      same-cycle sentinel is that one pass. */
  lemma ClockIsOnePass(m: Machine)
    requires ClockOnce(m).Ok? && ClockOnce(m).value.machine.cpu.state != FetchOpcodeInSameCycle
    ensures Clock(m) == ClockOnce(m)
  {
  }

  /** A cycle in the middle of an instruction is one step of its operation. */
  lemma ClockOnceMid(m: Machine, inst: Instruction)
    requires m.cpu.state != State.FetchOpcode && m.cpu.operation == Some(inst) && Operate(inst, m).Ok?
    ensures ClockOnce(m) == Ok(Cycle(Settle(Operate(inst, m).value), Operate(inst, m).value.events))
  {
    var t := Operate(inst, m).value;
    assert [] + t.events == t.events;
  }

  lemma ClockMidInstruction(m: Machine, inst: Instruction)
    requires m.cpu.state != State.FetchOpcode && m.cpu.operation == Some(inst)
    requires Operate(inst, m).Ok? && Operate(inst, m).value.next != FetchOpcodeInSameCycle
    ensures Clock(m) == Ok(Cycle(Settle(Operate(inst, m).value), Operate(inst, m).value.events))
  {
    ClockOnceMid(m, inst);
    ClockIsOnePass(m);
  }

  /** The pass through `clock()` that starts with an opcode fetch: the
      opcode read, then the first step of the operation it selects. */
  lemma FetchThenOperate(m: Machine, inst: Instruction)
    requires m.cpu.state == State.FetchOpcode && Dispatch(m.memory.At(m.cpu.pc)) == Bound(inst)
    requires Operate(inst, m.(cpu := m.cpu.(pc := m.cpu.pc + 1, operation := Some(inst)))).Ok?
    ensures var t := Operate(inst, m.(cpu := m.cpu.(pc := m.cpu.pc + 1, operation := Some(inst)))).value;
            ClockOnce(m) == Ok(Cycle(Settle(t), [Load(m.cpu.pc)] + t.events))
  {
    var fetched := m.(cpu := m.cpu.(pc := m.cpu.pc + 1, operation := Some(inst)));
    assert FetchOpcode(m).value.machine == fetched;
  }

  /** The step right after the opcode fetch is defined and never answers
      the same-cycle sentinel. */
  lemma FirstStepSettles(inst: Instruction, m: Machine)
    requires Dispatch(m.memory.At(m.cpu.pc - 1)) == Bound(inst) && m.cpu.state == State.FetchOpcode
    ensures Operate(inst, m).Ok? && Operate(inst, m).value.next != FetchOpcodeInSameCycle
  {
    TableWellFormed(m.memory.At(m.cpu.pc - 1));
    OperateClosed(inst, m);
  }

  /** The first cycle of an instruction: the opcode read, then the first step
      of the operation it selects, which cannot fail or end in the sentinel. */
  lemma ClockFirstCycle(m: Machine, inst: Instruction)
    requires m.cpu.state == State.FetchOpcode && Dispatch(m.memory.At(m.cpu.pc)) == Bound(inst)
    ensures var fetched := m.(cpu := m.cpu.(pc := m.cpu.pc + 1, operation := Some(inst)));
            && Operate(inst, fetched).Ok?
            && Clock(m) == Ok(Cycle(Settle(Operate(inst, fetched).value), [Load(m.cpu.pc)] + Operate(inst, fetched).value.events))
  {
    var fetched := m.(cpu := m.cpu.(pc := m.cpu.pc + 1, operation := Some(inst)));
    FirstStepSettles(inst, fetched);
    FetchThenOperate(m, inst);
    ClockIsOnePass(m);
  }

  /** One more cycle in front of a run. */
  lemma RunCons(m: Machine, n: nat)
    requires n > 0 && Clock(m).Ok? && Run(Clock(m).value.machine, n - 1).Ok?
    ensures var rest := Run(Clock(m).value.machine, n - 1).value;
            Run(m, n) == Ok(Trace(rest.machine, [Clock(m).value.events] + rest.cycles))
  {
  }
}
