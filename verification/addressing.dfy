/** What the address-forming micro-operations promise: an index only reaches
    the low address byte, a page crossing costs one wrong-page read and a
    carry into the high byte, zero-page indexing wraps within page 0, and a
    read-modify-write writes the operand twice. */
module Addressing {
  import opened Bits
  import opened Effects
  import opened Machine
  import opened Modes
  import opened Opcodes

  /** `fetchAddressHighAddIndex`: one read through the cursor supplies the
      high byte and the index goes into the low byte only. */
  lemma HighFetchAddsIndex(m: Machine, cursor: Cursor, index: bv8)
    ensures var t := LoadAddressHighAddIndex(m, cursor, index);
            && t.events == [Load(Source(m.cpu, cursor))]
            && HighByte(t.machine.cpu.address) == m.memory.At(Source(m.cpu, cursor))
            && LowByte(t.machine.cpu.address) == LowByte(m.cpu.address) + index
  {
    IndexedAddressBytes(m.cpu.address, m.memory.At(Source(m.cpu, cursor)), index);
  }

  /** The state after `fetchAddressHighAddIndex`: the fix-up state exactly
      when the low-byte addition carried out, the operand read otherwise. */
  lemma HighFetchDetectsCrossing(m: Machine, cursor: Cursor, index: bv8)
    ensures var t := LoadAddressHighAddIndex(m, cursor, index);
            && (t.next == ReadEffectiveAddressFixHigh <==> CarriesOut(m.cpu.address, index))
            && (t.next == ReadEffectiveAddressFixHigh || t.next == ReadEffectiveAddress)
  {
    IndexedAddressBytes(m.cpu.address, m.memory.At(Source(m.cpu, cursor)), index);
  }

  /** `readEffectiveAddressFixHigh`: the read goes to the address still in
      the wrong page, and then the high byte is carried into; the low byte
      stays. */
  lemma FixHighReadsWrongPage(m: Machine, next: State)
    ensures var t := ReadAndFixHigh(m, next);
            && t.events == [Load(m.cpu.address)]
            && t.machine.cpu.data == m.memory.At(m.cpu.address)
            && HighByte(t.machine.cpu.address) == HighByte(m.cpu.address) + 1
            && LowByte(t.machine.cpu.address) == LowByte(m.cpu.address)
            && t.next == next
  {
  }

  /** The two steps together form the full 16-bit sum of base and index:
      without a carry the indexed address is already the sum, with one the
      fix-up's 0x0100 completes it (wrapping past 0xFFFF to page 0). */
  lemma FixedAddressIsSum(base: bv16, index: bv8)
    ensures !CarriesOut(base, index) ==> AddToLowByte(base, index) == base + index as bv16
    ensures CarriesOut(base, index) ==> AddToLowByte(base, index) + 0x0100 == base + index as bv16
  {
  }

  /** `readEffectiveAddressAddIndex` on a zero-page address: the dummy read
      goes to the un-indexed address and the indexed one wraps within page 0,
      so $FF plus 2 is $01. */
  lemma ZeroPageIndexWraps(m: Machine, next: State, index: bv8)
    requires m.cpu.address < 0x0100
    ensures var t := ReadAndAddIndex(m, next, index);
            && t.events == [Load(m.cpu.address)]
            && t.machine.cpu.address < 0x0100
            && t.machine.cpu.address == (m.cpu.address + index as bv16) & 0x00FF
  {
    ZeroPageWraps(m.cpu.address, index);
  }

  /** `readPointerAddIndex` of (zp,X): the dummy read goes to the un-indexed
      pointer and X is added within page 0. */
  lemma IndexedPointerWraps(m: Machine)
    requires m.cpu.pointer < 0x0100
    ensures var t := IndexPointer(m);
            && t.events == [Load(m.cpu.pointer)]
            && t.machine.cpu.pointer < 0x0100
            && t.machine.cpu.pointer == (m.cpu.pointer + m.cpu.x as bv16) & 0x00FF
            && t.next == FetchAddress
  {
    ZeroPageWraps(m.cpu.pointer, m.cpu.x);
  }

  /** `nextPointer` as the low address byte is read: the pointer moves on
      within its page, so a zero-page pointer at $FF takes its high byte
      from $00. */
  lemma PointerStepsWithinPage(m: Machine, next: State)
    requires m.cpu.pointer < 0x0100
    ensures var t := LoadAddressLow(m, next, PointerLatch);
            && t.events == [Load(m.cpu.pointer)]
            && t.machine.cpu.address == m.memory.At(m.cpu.pointer) as bv16
            && t.machine.cpu.pointer == (m.cpu.pointer + 1) & 0x00FF
            && t.machine.cpu.pc == m.cpu.pc
  {
    ZeroPageWraps(m.cpu.pointer, 1);
  }

  /** `fetchImmediate`: one read at PC, which moves onto the next byte; the
      byte goes to the data latch and memory is untouched. */
  lemma ImmediateAdvancesPc(m: Machine)
    ensures var t, byte := FetchImmediate(m), m.memory.At(m.cpu.pc);
            && t.events == [Load(m.cpu.pc)] && t.next == DataAvailable
            && t.machine.memory == m.memory && t.machine.cpu.pc == m.cpu.pc + 1
            && t.machine.cpu.data == byte
  {
  }

  /** `fetchPointer` and `fetchPointerHigh`: one read at PC, which moves onto
      the next byte, and memory is untouched. The byte becomes a pointer into
      page 0, or the pointer's high byte beside the low byte already
      fetched. */
  lemma PointerBytesAdvancePc(m: Machine, next: State)
    ensures var t, byte := LoadPointerLow(m, next), m.memory.At(m.cpu.pc);
            && t.events == [Load(m.cpu.pc)] && t.next == next
            && t.machine.memory == m.memory && t.machine.cpu.pc == m.cpu.pc + 1
            && t.machine.cpu.pointer < 0x0100 && LowByte(t.machine.cpu.pointer) == byte
    ensures var t, byte := LoadPointerHigh(m), m.memory.At(m.cpu.pc);
            && t.events == [Load(m.cpu.pc)] && t.next == FetchAddress
            && t.machine.memory == m.memory && t.machine.cpu.pc == m.cpu.pc + 1
            && HighByte(t.machine.cpu.pointer) == byte
            && LowByte(t.machine.cpu.pointer) == LowByte(m.cpu.pointer)
  {
  }

  /** `fetchAddress` and `fetchAddressHigh` through either cursor: one read
      at the cursor's address, after which the cursor has moved on; the byte
      read starts a page-0 address or becomes its high byte beside the low
      byte already fetched. */
  lemma AddressBytesThroughCursor(m: Machine, next: State, cursor: Cursor)
    ensures var t, byte := LoadAddressLow(m, next, cursor), m.memory.At(Source(m.cpu, cursor));
            && t.events == [Load(Source(m.cpu, cursor))] && t.next == next
            && t.machine.memory == m.memory
            && t.machine.cpu == Advance(m.cpu, cursor).(address := t.machine.cpu.address)
            && t.machine.cpu.address < 0x0100 && LowByte(t.machine.cpu.address) == byte
    ensures var t, byte := LoadAddressHigh(m, next, cursor), m.memory.At(Source(m.cpu, cursor));
            && t.events == [Load(Source(m.cpu, cursor))] && t.next == next
            && t.machine.memory == m.memory
            && t.machine.cpu == Advance(m.cpu, cursor).(address := t.machine.cpu.address)
            && HighByte(t.machine.cpu.address) == byte
            && LowByte(t.machine.cpu.address) == LowByte(m.cpu.address)
  {
  }

  /** `readEffectiveAddress` reads the operand at the address latch and
      changes nothing else; `updatePC` jumps to that address without a bus
      access and lets the next opcode be fetched in the same cycle. */
  lemma OperandReadAndJump(m: Machine, next: State)
    ensures var t := ReadOperand(m, next);
            && t.events == [Load(m.cpu.address)] && t.next == next
            && t.machine == m.(cpu := m.cpu.(data := m.memory.At(m.cpu.address)))
    ensures var t := SetPcToAddress(m);
            && t.events == [] && t.next == FetchOpcodeInSameCycle
            && t.machine.memory == m.memory && t.machine.cpu.pc == m.cpu.address
            && t.machine.cpu.address == m.cpu.address
  {
  }

  /** A read-modify-write writes its operand twice: `executeOperation` first
      stores the unmodified byte back, then the effect runs on the data
      latch; STORE_RESULT, next cycle, stores the new byte at the same
      address and hands over to FETCH_OPCODE. */
  lemma ReadModifyWriteStoresTwice(m: Machine, effect: Effect, kind: OperationType)
    requires kind == ReadWrite && StoredRegister(effect, m.cpu).None?
    ensures var t := ExecuteOperation(m, effect, kind);
            var u := StoreResultAt(Settle(t));
            && t.events == [Store(m.cpu.address, m.cpu.data)]
            && t.next == StoreResult
            && u.events == [Store(m.cpu.address, t.machine.cpu.data)]
            && u.machine.memory.At(m.cpu.address) == t.machine.cpu.data
            && u.next == FetchOpcode
  {
    var t := ExecuteOperation(m, effect, kind);
    WriteBackKeepsAddress(m, effect, kind);
    StoreResultWrites(Settle(t));
  }

  /** The first read-modify-write cycle: one write of the unmodified byte,
      and the address latch survives the effect. */
  lemma WriteBackKeepsAddress(m: Machine, effect: Effect, kind: OperationType)
    requires kind == ReadWrite && StoredRegister(effect, m.cpu).None?
    ensures var t := ExecuteOperation(m, effect, kind);
            && t.events == [Store(m.cpu.address, m.cpu.data)]
            && Settle(t).cpu.address == m.cpu.address
  {
    var t := ExecuteOperation(m, effect, kind);
    var executed := Execute(effect, m.(memory := m.memory.Updated(m.cpu.address, m.cpu.data)));
    WriteBackRunsEffect(m, effect, kind);
    assert t.machine.cpu.address == executed.machine.cpu.address;
  }

  /** Unfolding that cycle: the write of the unmodified byte, then the
      effect on the machine that holds it. */
  lemma WriteBackRunsEffect(m: Machine, effect: Effect, kind: OperationType)
    requires kind == ReadWrite
    ensures var executed := Execute(effect, m.(memory := m.memory.Updated(m.cpu.address, m.cpu.data)));
            var t := ExecuteOperation(m, effect, kind);
            && t.machine == executed.machine
            && t.events == [Store(m.cpu.address, m.cpu.data)] + executed.events
  {
  }

  /** `storeResult`: one write of the data latch at the address latch. */
  lemma StoreResultWrites(m: Machine)
    ensures var u := StoreResultAt(m);
            && u.events == [Store(m.cpu.address, m.cpu.data)]
            && u.machine.memory.At(m.cpu.address) == m.cpu.data
            && u.next == FetchOpcode
  {
  }

  /** The bogus read of the implied and accumulator modes reads the byte at
      PC without moving PC, and the data latch receives A, not the byte
      read. */
  lemma BogusReadTakesAccumulator(m: Machine, next: State)
    ensures var t := ReadBogusInstruction(m, next);
            && t.events == [Load(m.cpu.pc)]
            && t.machine.cpu == m.cpu.(data := m.cpu.a)
            && t.machine.memory == m.memory
  {
  }
}
