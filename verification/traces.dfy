/** Cycle traces that `CpuTest.java` records, stated over the model: which
    address each cycle reads or writes and which state follows. Each trace
    starts at the state the test has reached and takes the memory contents
    the test stores as requirements. The instruction's effect (`load` for
    LDA, `shift` for ASL) is a parameter that a `requires` pins to that one
    effect: the mode's `switch` receives it the way the Java mode receives
    its `Runnable`, and the trace holds for that effect only. */
module Traces {
  import opened Bits
  import opened Flags
  import opened Effects
  import opened Machine
  import opened Modes
  import opened Opcodes
  import opened Outcomes

  /** LDA $12FF,X and LDA $FFFF,X with X = 2, from the cycle that fetches the
      high address byte: that cycle reads at PC and adds X to the low byte
      without carrying; the next reads the wrong page ($1201, or $FF01) and
      carries; the third reads the effective address ($1301, or $0001 after
      wrapping past the end of memory) and makes the data available. */
  lemma AbsoluteXCrossesPage(m: Machine, high: bv8, load: Effect)
    requires load == LoadA
    requires m.cpu.state == FetchEffectiveAddressHighAddIndex
    requires LowByte(m.cpu.address) == 0xFF && m.cpu.x == 0x02
    requires m.memory.At(m.cpu.pc) == high && (high == 0x12 || high == 0xFF)
    ensures var wrong: bv16 := if high == 0x12 then 0x1201 else 0xFF01;
            var effective: bv16 := if high == 0x12 then 0x1301 else 0x0001;
            var first := AbsoluteIndexedMode(m, load, Read, IndexX);
            && first.Ok?
            && first.value.events == [Load(m.cpu.pc)]
            && first.value.next == ReadEffectiveAddressFixHigh
            && var second := AbsoluteIndexedMode(Settle(first.value), load, Read, IndexX);
            && second.Ok?
            && second.value.events == [Load(wrong)]
            && second.value.next == ReadEffectiveAddress
            && var third := AbsoluteIndexedMode(Settle(second.value), load, Read, IndexX);
            && third.Ok?
            && third.value.events == [Load(effective)]
            && third.value.next == DataAvailable
  {
    var first := LoadAddressHighAddIndex(m, ProgramCounter, 0x02);
    HighFetchAddsIndexAt(m, high);
    var second := ReadAndFixHigh(Settle(first), ReadEffectiveAddress);
    assert Settle(second).cpu.address == Settle(first).cpu.address + 0x0100;
  }

  /** The first of the three cycles, on its own: the address latch after the
      high-byte fetch holds the fetched high byte and the low byte $01. */
  lemma HighFetchAddsIndexAt(m: Machine, high: bv8)
    requires LowByte(m.cpu.address) == 0xFF && m.cpu.x == 0x02 && m.memory.At(m.cpu.pc) == high
    ensures var t := LoadAddressHighAddIndex(m, ProgramCounter, m.cpu.x);
            && t.events == [Load(m.cpu.pc)]
            && t.machine.cpu.address == (high as bv16 << 8) | 0x0001
            && t.next == ReadEffectiveAddressFixHigh
  {
    IndexedAddressBytes(m.cpu.address, high, 0x02);
  }

  /** LDA $FF,X with X = 2, from the cycle that fetches the zero-page
      address: the dummy read at $00FF, then the read at $0001 (the index
      wraps within page 0), which makes that byte available. */
  lemma ZeroPageXWraps(m: Machine, load: Effect)
    requires load == LoadA
    requires m.cpu.state == FetchAddress && m.cpu.x == 0x02
    requires m.memory.At(m.cpu.pc) == 0xFF && m.memory.At(0x0001) == 0x01
    ensures var first := ZeroPageIndexedMode(m, load, Read, IndexX);
            && first.Ok?
            && first.value.events == [Load(m.cpu.pc)]
            && first.value.next == ReadEffectiveAddressAddIndex
            && var second := ZeroPageIndexedMode(Settle(first.value), load, Read, IndexX);
            && second.Ok?
            && second.value.events == [Load(0x00FF)]
            && second.value.next == ReadEffectiveAddress
            && var third := ZeroPageIndexedMode(Settle(second.value), load, Read, IndexX);
            && third.Ok?
            && third.value.events == [Load(0x0001)]
            && third.value.machine.cpu.data == 0x01
            && third.value.next == DataAvailable
  {
  }

  /** The cycle after the operand read of an LDA: no bus access of its own,
      A takes the byte read, and the next opcode is fetched in the same
      cycle. */
  lemma LoadCompletes(m: Machine, load: Effect)
    requires load == LoadA && m.cpu.state == DataAvailable
    ensures var t := ZeroPageIndexedMode(m, load, Read, IndexX);
            && t.Ok?
            && t.value.events == []
            && t.value.machine.cpu.a == m.cpu.data
            && t.value.next == FetchOpcodeInSameCycle
  {
    var registers := RegistersOf(m.cpu);
    CopyEffectIsCopy(load, registers, DataLatch, RegisterA);
    CopyRegisterSetsFlags(registers, DataLatch, RegisterA);
    assert WithRegister(registers, RegisterA, registers.data) == registers.(a := registers.data);
  }

  /** ASL $01 with $01 holding 1, from the cycle that fetches the address:
      read the address byte, then read $0001. */
  lemma ShiftZeroPageReads(m: Machine, shift: Effect)
    requires shift == LeftShift
    requires m.cpu.state == FetchAddress && m.cpu.pc == 0x0105
    requires m.memory.At(0x0105) == 0x01 && m.memory.At(0x0001) == 0x01
    ensures var first := ZeroPageMode(m, shift, ReadWrite);
            && first.Ok?
            && first.value.events == [Load(0x0105)]
            && first.value.next == ReadEffectiveAddress
            && var second := ZeroPageMode(Settle(first.value), shift, ReadWrite);
            && second.Ok?
            && second.value.events == [Load(0x0001)]
            && second.value.machine.cpu.data == 0x01
            && second.value.machine.cpu.address == 0x0001
            && second.value.next == DataAvailable
  {
  }

  /** The two write cycles of that ASL: the old value 1 goes back to $0001,
      then the shifted value 2. */
  lemma ShiftZeroPageWritesTwice(m: Machine, shift: Effect)
    requires shift == LeftShift
    requires m.cpu.state == DataAvailable && m.cpu.address == 0x0001 && m.cpu.data == 0x01
    ensures var third := ZeroPageMode(m, shift, ReadWrite);
            && third.Ok?
            && third.value.events == [Store(0x0001, 0x01)]
            && third.value.next == StoreResult
            && var fourth := ZeroPageMode(Settle(third.value), shift, ReadWrite);
            && fourth.Ok?
            && fourth.value.events == [Store(0x0001, 0x02)]
            && fourth.value.next == FetchOpcode
  {
    ShiftWritesOldValue(m, shift);
    var third := ZeroPageMode(m, shift, ReadWrite).value;
    StoreResultWritesNew(Settle(third), shift);
  }

  /** The first write cycle: the unmodified byte goes back, the shifted one
      is left in the data latch. */
  lemma ShiftWritesOldValue(m: Machine, shift: Effect)
    requires shift == LeftShift
    requires m.cpu.state == DataAvailable && m.cpu.address == 0x0001 && m.cpu.data == 0x01
    ensures var t := ZeroPageMode(m, shift, ReadWrite);
            && t.Ok?
            && t.value.events == [Store(0x0001, 0x01)]
            && t.value.next == StoreResult
            && t.value.machine.cpu.address == 0x0001
            && t.value.machine.cpu.data == 0x02
  {
  }

  /** STORE_RESULT of a zero-page read-modify-write: the data latch is
      written at the address latch. */
  lemma StoreResultWritesNew(m: Machine, shift: Effect)
    requires m.cpu.state == StoreResult
    ensures var t := ZeroPageMode(m, shift, ReadWrite);
            && t.Ok?
            && t.value.events == [Store(m.cpu.address, m.cpu.data)]
            && t.value.next == FetchOpcode
  {
  }

  /** LDA ($FE,X) with X = 1, from the cycle that fetches the pointer: the
      pointer $FE is read back as a dummy and X makes it $FF. */
  lemma IndexedIndirectPointer(m: Machine, load: Effect)
    requires load == LoadA
    requires m.cpu.state == FetchPointer && m.cpu.x == 0x01 && m.cpu.pc == 0x0103
    requires m.memory.At(0x0103) == 0xFE
    ensures var first := IndexedIndirectMode(m, load, Read);
            && first.Ok?
            && first.value.events == [Load(0x0103)]
            && var second := IndexedIndirectMode(Settle(first.value), load, Read);
            && second.Ok?
            && second.value.events == [Load(0x00FE)]
            && second.value.machine.cpu.pointer == 0x00FF
            && second.value.next == FetchAddress
  {
  }

  /** The rest of that LDA: the address low byte comes from $00FF and the
      high byte from $0000, not $0100; then the effective address $1234 is
      read. */
  lemma IndexedIndirectStraddles(m: Machine, load: Effect)
    requires load == LoadA
    requires m.cpu.state == FetchAddress && m.cpu.pointer == 0x00FF
    requires m.memory.At(0x00FF) == 0x34 && m.memory.At(0x0000) == 0x12
    ensures var third := IndexedIndirectMode(m, load, Read);
            && third.Ok?
            && third.value.events == [Load(0x00FF)]
            && var fourth := IndexedIndirectMode(Settle(third.value), load, Read);
            && fourth.Ok?
            && fourth.value.events == [Load(0x0000)]
            && var fifth := IndexedIndirectMode(Settle(fourth.value), load, Read);
            && fifth.Ok?
            && fifth.value.events == [Load(0x1234)]
            && fifth.value.next == DataAvailable
  {
  }

  /** A new core: A, X and Y zero, PC at the reset vector, S = $FD, and of
      the six flags only I set. */
  lemma InitialState()
    ensures var c := PowerOn();
            && c.a == 0 && c.x == 0 && c.y == 0
            && c.pc == 0xFFFC && c.s == 0xFD
            && IsSet(InterruptDisabled, c.p)
            && !IsSet(Carry, c.p) && !IsSet(Zero, c.p) && !IsSet(Decimal, c.p)
            && !IsSet(Overflow, c.p) && !IsSet(Negative, c.p)
  {
  }

  /** Reset with every register at $FF, S = $FD and every flag but I set:
      A, X and Y stay $FF, PC becomes $FFFC, S becomes $FA, and all six
      flags read as set. */
  lemma ResetExample(c: Cpu)
    requires c.a == 0xFF && c.x == 0xFF && c.y == 0xFF
    requires c.pc == 0x0000 && c.s == 0xFD && c.p == 0xFB
    ensures var r := Reset(c);
            && r.a == 0xFF && r.x == 0xFF && r.y == 0xFF
            && r.pc == 0xFFFC && r.s == 0xFA
            && IsSet(Carry, r.p) && IsSet(Zero, r.p) && IsSet(InterruptDisabled, r.p)
            && IsSet(Decimal, r.p) && IsSet(Overflow, r.p) && IsSet(Negative, r.p)
  {
  }
}
