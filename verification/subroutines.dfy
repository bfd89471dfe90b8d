/** JSR and RTS step by step: what they put on and take off the stack, and
    that RTS returns just past the JSR that called. Each chain lemma covers
    the steps from one state of the `switch` to the end of the instruction;
    `n` is that number of steps. */
module Subroutines {
  import opened Bits
  import opened Machine
  import opened Modes
  import opened Outcomes

  /** JSR's first step after the opcode fetch reads the target's low byte at
      PC into the address latch and moves PC onto JSR's last byte. */
  lemma JumpFetchesTargetLow(m: Machine)
    requires m.cpu.state == FetchAddress
    ensures JumpToSubroutineStep(m).Ok?
    ensures var t := JumpToSubroutineStep(m).value;
            && t.events == [Load(m.cpu.pc)]
            && t.next == ReadStackTop
            && LowByte(t.machine.cpu.address) == m.memory.At(m.cpu.pc)
            && t.machine == m.(cpu := m.cpu.(pc := m.cpu.pc + 1, address := t.machine.cpu.address))
  {
  }

  /** JSR's last step reads the target's high byte at PC and jumps. */
  lemma JumpLastStep(m: Machine, n: nat)
    requires m.cpu.state == UpdatePc && n == 1
    ensures Perform(JumpToSubroutineStep, m, n).Ok?
    ensures var target := SetHighByte(m.cpu.address, m.memory.At(m.cpu.pc));
            var after := Perform(JumpToSubroutineStep, m, n).value.machine;
            && Perform(JumpToSubroutineStep, m, n).value.cycles[0] == [Load(m.cpu.pc)]
            && after.memory == m.memory
            && after.cpu == m.cpu.(pc := target, address := target, state := FetchOpcode)
  {
    var t := FetchAddressHighAndUpdatePc(m);
    assert JumpToSubroutineStep(m) == Ok(t);
    assert Perform(JumpToSubroutineStep, Settle(t), n - 1) == Ok(Micro(Settle(t), []));
    PerformCons(JumpToSubroutineStep, m, n);
  }

  lemma JumpPushLow(m: Machine, n: nat)
    requires m.cpu.state == PushPcl && n == 2
    ensures Perform(JumpToSubroutineStep, m, n).Ok?
    ensures var pc, top := m.cpu.pc, StackTopAddress(m.cpu.s);
            var after := Perform(JumpToSubroutineStep, m, n).value.machine;
            var target := SetHighByte(m.cpu.address, after.memory.At(pc));
            && Perform(JumpToSubroutineStep, m, n).value.cycles[0] == [Store(top, LowByte(pc))]
            && Perform(JumpToSubroutineStep, m, n).value.cycles[1] == [Load(pc)]
            && after.memory == m.memory.Updated(top, LowByte(pc))
            && after.cpu == m.cpu.(pc := target, s := m.cpu.s - 1, address := target, state := FetchOpcode)
  {
    var t := PushPcLow(m);
    assert JumpToSubroutineStep(m) == Ok(t);
    JumpLastStep(Settle(t), n - 1);
    PerformCons(JumpToSubroutineStep, m, n);
  }

  lemma JumpPushHigh(m: Machine, n: nat)
    requires m.cpu.state == PushPch && n == 3
    ensures Perform(JumpToSubroutineStep, m, n).Ok?
    ensures var pc, s := m.cpu.pc, m.cpu.s;
            var after := Perform(JumpToSubroutineStep, m, n).value.machine;
            var target := SetHighByte(m.cpu.address, after.memory.At(pc));
            && Perform(JumpToSubroutineStep, m, n).value.cycles[0] == [Store(StackTopAddress(s), HighByte(pc))]
            && Perform(JumpToSubroutineStep, m, n).value.cycles[1] == [Store(StackTopAddress(s - 1), LowByte(pc))]
            && Perform(JumpToSubroutineStep, m, n).value.cycles[2] == [Load(pc)]
            && after.memory == m.memory.Updated(StackTopAddress(s), HighByte(pc))
                                       .Updated(StackTopAddress(s - 1), LowByte(pc))
            && after.cpu == m.cpu.(pc := target, s := s - 2, address := target, state := FetchOpcode)
  {
    var t := PushPcHigh(m);
    assert JumpToSubroutineStep(m) == Ok(t);
    JumpPushLow(Settle(t), n - 1);
    PerformCons(JumpToSubroutineStep, m, n);
  }

  /** The rest of JSR once PC is on its last byte and the target's low byte
      is latched: a dummy read of the stack top, a push of PC's high byte to
      0x0100+S and of its low byte to 0x0100+S-1, then the target's high byte
      is read at PC (after the pushes) and becomes PC's high byte. S drops
      by two; A, X, Y, P, the data and pointer latches and the operation are
      untouched. */
  lemma JumpToSubroutinePushes(m: Machine, n: nat)
    requires m.cpu.state == ReadStackTop && n == 4
    ensures Perform(JumpToSubroutineStep, m, n).Ok?
    ensures var pc, s := m.cpu.pc, m.cpu.s;
            var after := Perform(JumpToSubroutineStep, m, n).value.machine;
            var target := SetHighByte(m.cpu.address, after.memory.At(pc));
            && Perform(JumpToSubroutineStep, m, n).value.cycles[0] == [Load(StackTopAddress(s))]
            && Perform(JumpToSubroutineStep, m, n).value.cycles[1] == [Store(StackTopAddress(s), HighByte(pc))]
            && Perform(JumpToSubroutineStep, m, n).value.cycles[2] == [Store(StackTopAddress(s - 1), LowByte(pc))]
            && Perform(JumpToSubroutineStep, m, n).value.cycles[3] == [Load(pc)]
            && after.memory == m.memory.Updated(StackTopAddress(s), HighByte(pc))
                                       .Updated(StackTopAddress(s - 1), LowByte(pc))
            && after.cpu == m.cpu.(pc := target, s := s - 2, address := target, state := FetchOpcode)
  {
    var t := ReadStack(m);
    assert JumpToSubroutineStep(m) == Ok(t);
    JumpPushHigh(Settle(t), n - 1);
    PerformCons(JumpToSubroutineStep, m, n);
  }

  /** RTS's first step after the opcode fetch is a read at PC that changes
      nothing but the data latch (which receives A, not the bus value). */
  lemma ReturnReadsBogusByte(m: Machine)
    requires m.cpu.state == FetchBogusInstruction
    ensures ReturnFromSubroutineStep(m).Ok?
    ensures var t := ReturnFromSubroutineStep(m).value;
            && t.events == [Load(m.cpu.pc)]
            && t.next == IncrementSp
            && t.machine == m.(cpu := m.cpu.(data := m.cpu.a))
  {
  }

  /** RTS's last step reads at the popped address and steps past it. */
  lemma ReturnLastStep(m: Machine, n: nat)
    requires m.cpu.state == IncrementPc && n == 1
    ensures Perform(ReturnFromSubroutineStep, m, n).Ok?
    ensures Perform(ReturnFromSubroutineStep, m, n).value
            == Micro(m.(cpu := m.cpu.(pc := m.cpu.pc + 1, state := FetchOpcode)), [[Load(m.cpu.pc)]])
  {
    var t := IncrementProgramCounter(m);
    assert ReturnFromSubroutineStep(m) == Ok(t);
    assert Perform(ReturnFromSubroutineStep, Settle(t), n - 1) == Ok(Micro(Settle(t), []));
    PerformCons(ReturnFromSubroutineStep, m, n);
  }

  lemma ReturnPopHigh(m: Machine, n: nat)
    requires m.cpu.state == PopPch && n == 2
    ensures var top := StackTopAddress(m.cpu.s);
            var popped := SetHighByte(m.cpu.pc, m.memory.At(top));
            Perform(ReturnFromSubroutineStep, m, n).Ok? &&
            Perform(ReturnFromSubroutineStep, m, n).value == Micro(m.(cpu := m.cpu.(pc := popped + 1, state := FetchOpcode)), [[Load(top)], [Load(popped)]])
  {
    var t := PopPcHigh(m);
    assert ReturnFromSubroutineStep(m) == Ok(t);
    ReturnLastStep(Settle(t), n - 1);
    PerformCons(ReturnFromSubroutineStep, m, n);
  }

  /** The return address RTS pulls when the low byte sits at 0x0100+s and
      the high byte at 0x0100+s+1: `popPcl` writes the low byte into PC and
      `popPch` the high byte, so nothing of the old PC survives. */
  function PulledAddress(memory: Memory, pc: bv16, s: bv8): bv16
  {
    SetHighByte(SetLowByte(pc, memory.At(StackTopAddress(s))), memory.At(StackTopAddress(s + 1)))
  }

  lemma ReturnPopLow(m: Machine, n: nat)
    requires m.cpu.state == PopPcl && n == 3
    ensures var s := m.cpu.s;
            var popped := PulledAddress(m.memory, m.cpu.pc, s);
            Perform(ReturnFromSubroutineStep, m, n).Ok? &&
            Perform(ReturnFromSubroutineStep, m, n).value
            == Micro(m.(cpu := m.cpu.(pc := popped + 1, s := s + 1, state := FetchOpcode)),
                     [[Load(StackTopAddress(s))], [Load(StackTopAddress(s + 1))], [Load(popped)]])
  {
    var t := PopPcLow(m);
    assert ReturnFromSubroutineStep(m) == Ok(t);
    var next := Settle(t);
    ReturnPopHigh(next, n - 1);
    PerformCons(ReturnFromSubroutineStep, m, n);
    PopHighAfterPopLow(m, next, Perform(ReturnFromSubroutineStep, next, n - 1).value);
    PopLowCycles(m, t.events, Perform(ReturnFromSubroutineStep, m, n).value,
                 Perform(ReturnFromSubroutineStep, next, n - 1).value);
  }

  /** `ReturnPopHigh` read from before the step that pulls the low byte. */
  lemma PopHighAfterPopLow(m: Machine, next: Machine, rest: Micro)
    requires next == m.(cpu := m.cpu.(pc := SetLowByte(m.cpu.pc, m.memory.At(StackTopAddress(m.cpu.s))),
                                      s := m.cpu.s + 1, state := PopPch))
    requires var top := StackTopAddress(next.cpu.s);
             var popped := SetHighByte(next.cpu.pc, next.memory.At(top));
             rest == Micro(next.(cpu := next.cpu.(pc := popped + 1, state := FetchOpcode)),
                           [[Load(top)], [Load(popped)]])
    ensures var s := m.cpu.s;
            var popped := PulledAddress(m.memory, m.cpu.pc, s);
            rest == Micro(m.(cpu := m.cpu.(pc := popped + 1, s := s + 1, state := FetchOpcode)),
                          [[Load(StackTopAddress(s + 1))], [Load(popped)]])
  {
  }

  /** `ReturnPopLow` from the rest of RTS: the step in front only adds its
      read of the stack top. */
  lemma PopLowCycles(m: Machine, first: seq<BusEvent>, r: Micro, rest: Micro)
    requires first == [Load(StackTopAddress(m.cpu.s))]
    requires r == Micro(rest.machine, [first] + rest.cycles)
    requires var s := m.cpu.s;
             var popped := PulledAddress(m.memory, m.cpu.pc, s);
             rest == Micro(m.(cpu := m.cpu.(pc := popped + 1, s := s + 1, state := FetchOpcode)),
                           [[Load(StackTopAddress(s + 1))], [Load(popped)]])
    ensures var s := m.cpu.s;
            var popped := PulledAddress(m.memory, m.cpu.pc, s);
            r == Micro(m.(cpu := m.cpu.(pc := popped + 1, s := s + 1, state := FetchOpcode)),
                       [[Load(StackTopAddress(s))], [Load(StackTopAddress(s + 1))], [Load(popped)]])
  {
  }

  /** The rest of RTS after its bogus read: a dummy read of the stack top,
      then the low byte of the return address is pulled from 0x0100+S+1 and
      the high byte from 0x0100+S+2, and a last read at that address moves
      PC one past it. S grows by two; memory and every other register are
      untouched. */
  lemma ReturnFromSubroutinePops(m: Machine, n: nat)
    requires m.cpu.state == IncrementSp && n == 4
    ensures Perform(ReturnFromSubroutineStep, m, n).Ok?
    ensures var s := m.cpu.s;
            var popped := PulledAddress(m.memory, m.cpu.pc, s + 1);
            Perform(ReturnFromSubroutineStep, m, n).value
            == Micro(m.(cpu := m.cpu.(pc := popped + 1, s := s + 2, state := FetchOpcode)),
                     [[Load(StackTopAddress(s))], [Load(StackTopAddress(s + 1))],
                      [Load(StackTopAddress(s + 2))], [Load(popped)]])
  {
    var t := IncrementStackPointer(m);
    assert ReturnFromSubroutineStep(m) == Ok(t);
    var next := m.(cpu := m.cpu.(s := m.cpu.s + 1, state := PopPcl));
    assert Settle(t) == next;
    ReturnPopLow(next, n - 1);
    PerformCons(ReturnFromSubroutineStep, m, n);
    PopLowAfterIncrement(m, next, Perform(ReturnFromSubroutineStep, next, n - 1).value);
    PopsAfterIncrement(m, t.events, Perform(ReturnFromSubroutineStep, m, n).value,
                       Perform(ReturnFromSubroutineStep, next, n - 1).value);
  }

  /** `ReturnPopLow` read from before the step that increments S. */
  lemma PopLowAfterIncrement(m: Machine, next: Machine, rest: Micro)
    requires next == m.(cpu := m.cpu.(s := m.cpu.s + 1, state := PopPcl))
    requires var popped := PulledAddress(next.memory, next.cpu.pc, next.cpu.s);
             rest == Micro(next.(cpu := next.cpu.(pc := popped + 1, s := next.cpu.s + 1, state := FetchOpcode)),
                           [[Load(StackTopAddress(next.cpu.s))], [Load(StackTopAddress(next.cpu.s + 1))],
                            [Load(popped)]])
    ensures var s := m.cpu.s;
            var popped := PulledAddress(m.memory, m.cpu.pc, s + 1);
            rest == Micro(m.(cpu := m.cpu.(pc := popped + 1, s := s + 2, state := FetchOpcode)),
                          [[Load(StackTopAddress(s + 1))], [Load(StackTopAddress(s + 2))], [Load(popped)]])
  {
    assert next.cpu.pc == m.cpu.pc && next.memory == m.memory;
    assert next.cpu.s == m.cpu.s + 1 && next.cpu.s + 1 == m.cpu.s + 2;
  }

  /** `ReturnFromSubroutinePops` from the rest of RTS: the step in front
      only adds its read of the stack top. */
  lemma PopsAfterIncrement(m: Machine, first: seq<BusEvent>, r: Micro, rest: Micro)
    requires first == [Load(StackTopAddress(m.cpu.s))]
    requires r == Micro(rest.machine, [first] + rest.cycles)
    requires var s := m.cpu.s;
             var popped := PulledAddress(m.memory, m.cpu.pc, s + 1);
             rest == Micro(m.(cpu := m.cpu.(pc := popped + 1, s := s + 2, state := FetchOpcode)),
                           [[Load(StackTopAddress(s + 1))], [Load(StackTopAddress(s + 2))], [Load(popped)]])
    ensures var s := m.cpu.s;
            var popped := PulledAddress(m.memory, m.cpu.pc, s + 1);
            r == Micro(m.(cpu := m.cpu.(pc := popped + 1, s := s + 2, state := FetchOpcode)),
                       [[Load(StackTopAddress(s))], [Load(StackTopAddress(s + 1))],
                        [Load(StackTopAddress(s + 2))], [Load(popped)]])
  {
  }

  /** JSR then RTS: if, by the time RTS starts pulling, S and the two stack
      cells JSR pushed are as JSR left them, RTS lands one past the byte PC
      was on when JSR pushed it — the instruction after the three-byte JSR —
      and S is back where it was before the JSR. */
  lemma SubroutineRoundTrip(m: Machine, back: Machine, n: nat)
    requires m.cpu.state == ReadStackTop && n == 4
    requires Perform(JumpToSubroutineStep, m, n).Ok?
    requires var called := Perform(JumpToSubroutineStep, m, n).value.machine;
             && back.cpu.state == IncrementSp
             && back.cpu.s == called.cpu.s
             && back.memory.At(StackTopAddress(m.cpu.s - 1)) == called.memory.At(StackTopAddress(m.cpu.s - 1))
             && back.memory.At(StackTopAddress(m.cpu.s)) == called.memory.At(StackTopAddress(m.cpu.s))
    ensures Perform(ReturnFromSubroutineStep, back, n).Ok?
    ensures Perform(ReturnFromSubroutineStep, back, n).value.machine.cpu.pc == m.cpu.pc + 1
    ensures Perform(ReturnFromSubroutineStep, back, n).value.machine.cpu.s == m.cpu.s
  {
    JumpToSubroutinePushes(m, n);
    ReturnFromSubroutinePops(back, n);
    ReturnMatchesCall(m, Perform(JumpToSubroutineStep, m, n).value.machine, back,
                      Perform(ReturnFromSubroutineStep, back, n).value.machine);
  }

  /** The round trip on the machine values alone: what JSR leaves, what RTS
      finds and what RTS leaves. */
  lemma ReturnMatchesCall(m: Machine, called: Machine, back: Machine, returned: Machine)
    requires called.memory == m.memory.Updated(StackTopAddress(m.cpu.s), HighByte(m.cpu.pc))
                                      .Updated(StackTopAddress(m.cpu.s - 1), LowByte(m.cpu.pc))
    requires called.cpu.s == m.cpu.s - 2
    requires back.cpu.s == called.cpu.s
    requires back.memory.At(StackTopAddress(m.cpu.s - 1)) == called.memory.At(StackTopAddress(m.cpu.s - 1))
    requires back.memory.At(StackTopAddress(m.cpu.s)) == called.memory.At(StackTopAddress(m.cpu.s))
    requires returned.cpu.pc == PulledAddress(back.memory, back.cpu.pc, back.cpu.s + 1) + 1
    requires returned.cpu.s == back.cpu.s + 2
    ensures returned.cpu.pc == m.cpu.pc + 1
    ensures returned.cpu.s == m.cpu.s
  {
    var low := back.cpu.s + 1;
    assert low == m.cpu.s - 1 && low + 1 == m.cpu.s;
    PushedBytesSurvive(m, called, back);
    PulledAddressIsPushed(back.memory, back.cpu.pc, low, m.cpu.pc);
  }

  /** What RTS finds in the two stack cells is what JSR pushed there. */
  lemma PushedBytesSurvive(m: Machine, called: Machine, back: Machine)
    requires called.memory == m.memory.Updated(StackTopAddress(m.cpu.s), HighByte(m.cpu.pc))
                                      .Updated(StackTopAddress(m.cpu.s - 1), LowByte(m.cpu.pc))
    requires back.memory.At(StackTopAddress(m.cpu.s - 1)) == called.memory.At(StackTopAddress(m.cpu.s - 1))
    requires back.memory.At(StackTopAddress(m.cpu.s)) == called.memory.At(StackTopAddress(m.cpu.s))
    ensures back.memory.At(StackTopAddress(m.cpu.s - 1)) == LowByte(m.cpu.pc)
    ensures back.memory.At(StackTopAddress(m.cpu.s)) == HighByte(m.cpu.pc)
  {
    PushedBytesReadBack(m.memory, m.cpu.s, m.cpu.pc, called.memory);
  }

  /** Pulling a low and a high byte that are those of `pc` gives `pc`. */
  lemma PulledAddressIsPushed(memory: Memory, old_pc: bv16, low: bv8, pc: bv16)
    requires memory.At(StackTopAddress(low)) == LowByte(pc)
    requires memory.At(StackTopAddress(low + 1)) == HighByte(pc)
    ensures PulledAddress(memory, old_pc, low) == pc
  {
    BytesMakeWord(pc, old_pc);
  }

  /** The two stack cells JSR writes hold the high and the low byte of the
      pushed address afterwards. */
  lemma PushedBytesReadBack(memory: Memory, s: bv8, pc: bv16, pushed: Memory)
    requires pushed == memory.Updated(StackTopAddress(s), HighByte(pc)).Updated(StackTopAddress(s - 1), LowByte(pc))
    ensures pushed.At(StackTopAddress(s - 1)) == LowByte(pc)
    ensures pushed.At(StackTopAddress(s)) == HighByte(pc)
  {
    assert StackTopAddress(s) != StackTopAddress(s - 1) by {
      assert LowByte(StackTopAddress(s)) != LowByte(StackTopAddress(s - 1));
    }
  }
}
