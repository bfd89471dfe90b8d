# A Dafny model of the NES emulator's 6502 core and loopy VRAM address

This project models two pieces of a Java NES emulator.

- **The 6502 CPU core (`Cpu.java`).** It is a cycle-stepped micro-state machine. Each `clock()` does three things:
  - On FETCH_OPCODE it fetches an opcode at PC and looks it up in a 255-slot operation table.
  - It advances the bound operation by one micro-state through its addressing mode's `switch` table.
  - When that state is FETCH_OPCODE_IN_SAME_CYCLE, it overlaps the next opcode fetch with the last cycle of a read instruction.

  The operation effects (ADC, SBC, shifts and rotates, INC/DEC, AND/ORA/EOR, CMP/CPX/CPY, BIT, loads, stores, transfers, flag set/clear) are byte transforms of A, X, Y, S, P and the data latch.
- **The PPU's "loopy" VRAM address register (`VRamAddress.java`).** It is a 16-bit pattern laid out as `yyy NN YYYYY XXXXX`: fine Y, nametable select, coarse Y and coarse X. It has a coarse-X and a fine/coarse-Y increment, X/Y copies from another register, and the derived nametable, attribute, palette and pattern-tile addresses.

The model is functional:

- **Registers and state.** `Machine.Cpu` is an immutable record of `bv8`/`bv16` registers, the address, pointer and data latches, the micro-state and the dispatched operation.
- **Memory.** `Machine.Memory` is a total map from 16-bit addresses to bytes.
- **Micro-steps.** Every micro-step returns the new machine, the bus accesses of the cycle (`Load`/`Store`), and the state it hands back to the driver.
- **Faults.** Java's exceptions become `Fault` values:
  - an opcode past the 255-slot array;
  - an empty (`null`) slot;
  - no operation dispatched yet;
  - a `switch` reaching `default`.
- **Effects.** `Effects.Apply` maps each effect method to its pure transform in module `Alu`.
- **Driver.** `Driver.Clock` is `clock()`, and `Driver.Run` is `n` calls of it.
- **VRAM address.** `VRam` keeps the register as a `bv16`, so every `(short)` cast of the Java code is the 16-bit truncation `bv16` arithmetic already performs.

Modules, one per file:
- `Outcomes`: `Option`, `Result`.
- `Bits`: byte/word helpers and Java's signed view of them.
- `Flags`: the P register.
- `Opcodes`: the operation table.
- `Machine`: CPU record, memory, bus events, faults, power-on and reset.
- `Alu` and `Effects`: the effect methods.
- `Modes`: micro-operations and mode tables.
- `Driver`: `clock()` and runs.
- `Subroutines`: JSR/RTS.
- `Addressing`: address-forming properties.
- `Traces`: cycle traces from the unit tests.
- `VRam`: the PPU register.

## Where the code departs from the documented 6502

The model follows the code:

- TXS (`transferXtoS`) sets Z and N from X; the 6502's TXS leaves P alone.
- CMP/CPX/CPY subtract the two bytes as signed Java `byte`s. When the sign bits differ, C comes out opposite to the 6502's unsigned comparison (`Alu.Compare`, `Alu.CompareIsSubtractCarry`).
- ROR shifts a sign-extended byte, so bit 7 of the result is set whenever the old bit 7 or the old carry was. ROL after ROR still restores the byte, but ROR after ROL does not when bit 6 was set and bit 7 clear, whatever C was (`Alu.RotateRightUndoesLeft`, `Alu.RotateRightSignExtends`).
- BIT 0x2C is bound to absolute-X rather than absolute addressing (`Opcodes.TableQuirks`).
- The operation table has 255 slots, so opcode 0xFF lies outside it and faults. Unbound slots fault too.
- The dummy read of the implied and accumulator modes loads A, not the bus value, into the data latch.
- SBC complements the data latch in place and leaves it complemented.
- `reset()` sets PC to the constant 0xFFFC; it does not read the reset vector.
- BRK answers FETCH_VALUE for ever, with no bus access.
- In `VRamAddress`, the fine-Y mask 0xF000 also covers bit 15: `setY` copies it and `incrementY` clears it.

## Model

Source paths are relative to the repository root; trace lemmas cite the unit test whose cycle trace they state.

| member | source | states |
|---|---|---|
| Flags.MasksAreSingleDistinctBits | cpu/src/main/java/com/experiments/nes/cpu/Cpu.java:8-16 | each flag mask is a single bit and no two flags share one |
| Flags.Set | cpu/src/main/java/com/experiments/nes/cpu/Cpu.java:26-28 | the flag reads as set and the other seven bits of P are unchanged |
| Flags.Clear | cpu/src/main/java/com/experiments/nes/cpu/Cpu.java:30-32 | the flag reads as clear and the other seven bits of P are unchanged |
| Flags.Assign | cpu/src/main/java/com/experiments/nes/cpu/Cpu.java:34-37 | the flag reads as `b`, the other seven bits are unchanged, every other flag reads as before |
| Flags.SetZeroNegative | cpu/src/main/java/com/experiments/nes/cpu/Cpu.java:540-544 | Z iff the value is zero, N iff its bit 7 is set, no other bit of P changes |
| Flags.CarryIn | cpu/src/main/java/com/experiments/nes/cpu/Cpu.java:653 | the carry term is 0 or 1, and 1 exactly when C is set |
| Bits.SetLowByte | cpu/src/main/java/com/experiments/nes/cpu/Cpu.java:366-368 | the low byte is replaced, the high byte kept |
| Bits.SetHighByte | cpu/src/main/java/com/experiments/nes/cpu/Cpu.java:362-364 | the high byte is replaced, the low byte kept |
| Bits.InitLowByte | cpu/src/main/java/com/experiments/nes/cpu/Cpu.java:370-372 | a zero-page address whose low byte is the given byte |
| Bits.AddToLowByte | cpu/src/main/java/com/experiments/nes/cpu/Cpu.java:378-382 | the addend reaches only the low byte (mod 256); the high byte never changes |
| Bits.ShortCompareDetectsCarry | cpu/src/main/java/com/experiments/nes/cpu/Cpu.java:434-437 | Java's signed `short` comparison `base <= address` holds exactly when the low-byte addition did not carry |
| Bits.SignedCompareDetectsCarry | cpu/src/main/java/com/experiments/nes/cpu/Cpu.java:434-437 | the same verdict on the integer values Java sees in the two `short`s |
| Bits.PageCrossed | cpu/src/main/java/com/experiments/nes/cpu/Cpu.java:437 | the code's page-crossing test is true exactly when the low byte carries out |
| Bits.IndexedAddressBytes | cpu/src/main/java/com/experiments/nes/cpu/Cpu.java:433-437 | after the high-byte fetch the address has the fetched high byte and the indexed low byte, and crosses a page exactly on a carry |
| Bits.ZeroPageWraps | cpu/src/main/java/com/experiments/nes/cpu/Cpu.java:378-382 | an address below 0x100 stays below 0x100 under `add`: indexing wraps within page 0 |
| Bits.BytesMakeWord | cpu/src/main/java/com/experiments/nes/cpu/Cpu.java:525-531 | writing a word's low then high byte over any word gives the word back |
| Machine.PowerOn | cpu/src/main/java/com/experiments/nes/cpu/Cpu.java:71-82 | no contract of its own: the field initialisers, stated by `Traces.InitialState` and `Driver.PowerOnConsistent` |
| Machine.Reset | cpu/src/main/java/com/experiments/nes/cpu/Cpu.java:341-345 | PC = 0xFFFC, S drops by 3 mod 256, I set, other P bits and every other field unchanged |
| Machine.StackTopAddress | cpu/src/main/java/com/experiments/nes/cpu/Cpu.java:491-493 | the stack address is always in page 1 with low byte S |
| Alu.SignExtend | cpu/src/main/java/com/experiments/nes/cpu/Cpu.java:576 | Java's `byte` widening: low byte kept, high byte all ones exactly for a negative byte |
| Alu.AddWithCarry | cpu/src/main/java/com/experiments/nes/cpu/Cpu.java:652-661 | C and the result byte form the exact 9-bit sum A + data + C; V iff same-sign operands give a result of the other sign; Z/N from the result, other P bits kept |
| Alu.SubtractWithCarry | cpu/src/main/java/com/experiments/nes/cpu/Cpu.java:663-666 | ADC of the complement, read as subtraction: result A - data - (1 - C) mod 256, C iff no borrow, V iff differently-signed operands give a result whose sign differs from A's |
| Alu.Compare | cpu/src/main/java/com/experiments/nes/cpu/Cpu.java:668-673 | Z iff equal, N iff not C, C the unsigned comparison when the sign bits agree and its opposite when they differ; only C, Z, N change |
| Alu.Bit | cpu/src/main/java/com/experiments/nes/cpu/Cpu.java:687-692 | Z iff A AND data is zero, N and V copied from bits 7 and 6 of the operand, other bits kept |
| Alu.ShiftLeft | cpu/src/main/java/com/experiments/nes/cpu/Cpu.java:575-580 | bit 0 of the result is clear, C is the old bit 7, Z/N from the result |
| Alu.ShiftLeftDoubles | cpu/src/main/java/com/experiments/nes/cpu/Cpu.java:575-577 | the ASL result is the operand shifted left within the byte |
| Alu.ShiftLeftUndone | cpu/src/main/java/com/experiments/nes/cpu/Cpu.java:575-580 | shifting the result back right with C in bit 7 restores the operand |
| Alu.ShiftRight | cpu/src/main/java/com/experiments/nes/cpu/Cpu.java:582-589 | bit 7 of the result is clear, C is the old bit 0, Z/N from the result |
| Alu.ShiftRightHalves | cpu/src/main/java/com/experiments/nes/cpu/Cpu.java:582-586 | the LSR result is the operand shifted right as an unsigned byte |
| Alu.ShiftRightUndone | cpu/src/main/java/com/experiments/nes/cpu/Cpu.java:582-589 | shifting the result back left with C in bit 0 restores the operand |
| Alu.RotatedLowByte | cpu/src/main/java/com/experiments/nes/cpu/Cpu.java:593-594 | the sign extension of the widened operand never reaches the stored low byte of ROL |
| Alu.RotateLeft | cpu/src/main/java/com/experiments/nes/cpu/Cpu.java:591-597 | the old C enters bit 0, bits 7..1 are the old bits 6..0, C is the old bit 7, Z/N from the result |
| Alu.RotateRight | cpu/src/main/java/com/experiments/nes/cpu/Cpu.java:599-605 | bits 6..0 are the old bits 7..1, bit 7 is old C OR old bit 7, C is the old bit 0; for operands below 0x80 the true rotate |
| Alu.Increment | cpu/src/main/java/com/experiments/nes/cpu/Cpu.java:622-635 | the successor mod 256, Z/N from it, C and V kept |
| Alu.Decrement | cpu/src/main/java/com/experiments/nes/cpu/Cpu.java:607-620 | the predecessor mod 256, Z/N from it, C and V kept |
| Alu.And | cpu/src/main/java/com/experiments/nes/cpu/Cpu.java:642-645 | a result bit is set exactly when it is set in both A and data; Z/N from the result, other flags kept |
| Alu.Or | cpu/src/main/java/com/experiments/nes/cpu/Cpu.java:647-650 | a result bit is set exactly when it is set in A or in data; Z/N from the result, other flags kept |
| Alu.Xor | cpu/src/main/java/com/experiments/nes/cpu/Cpu.java:637-640 | the result XOR data gives A back, Z/N from the result |
| Alu.AndOrDual | cpu/src/main/java/com/experiments/nes/cpu/Cpu.java:642-650 | AND and ORA are De Morgan duals: AND is the complement of ORA on the complemented operands, and the other way round |
| Alu.AndOrAbsorb | cpu/src/main/java/com/experiments/nes/cpu/Cpu.java:642-650 | absorption: A AND (A OR d) and A OR (A AND d) are both A |
| Alu.SubtractUndoesAdd | cpu/src/main/java/com/experiments/nes/cpu/Cpu.java:652-666 | ADC without carry in followed by SBC without borrow restores A |
| Alu.CompareIsSubtractCarry | cpu/src/main/java/com/experiments/nes/cpu/Cpu.java:663-673 | CMP's carry is SBC's (borrow cleared) for same-sign bytes and its opposite otherwise |
| Alu.IncrementDecrementInverse | cpu/src/main/java/com/experiments/nes/cpu/Cpu.java:607-635 | DEC undoes INC and INC undoes DEC |
| Alu.XorTwiceRestores | cpu/src/main/java/com/experiments/nes/cpu/Cpu.java:637-640 | EOR with the same operand twice restores A |
| Alu.RotateLeftUndoesRight | cpu/src/main/java/com/experiments/nes/cpu/Cpu.java:591-605 | ROL after ROR restores the byte |
| Alu.RotateRightUndoesLeft | cpu/src/main/java/com/experiments/nes/cpu/Cpu.java:591-605 | ROR after ROL restores the carry always, and restores the byte exactly when bit 6 was clear or bit 7 was set, whatever C was |
| Alu.RotateRightSignExtends | cpu/src/main/java/com/experiments/nes/cpu/Cpu.java:599-605 | the counterexample for either C: 0x40 rotated left is 0x80 plus the carry and leaves C clear; rotated back right it is 0xC0 |
| Effects.Apply | cpu/src/main/java/com/experiments/nes/cpu/Cpu.java:540-750 | no contract of its own: loads and transfers are the copies listed by `Effects.Copied` and stated by `Effects.CopyEffectIsCopy` and `Effects.CopyRegisterSetsFlags`; the flag effects by `Effects.FlagEffectWritesOneBit`; SBC by `Effects.SubtractComplementsData`; the ALU effects by the `Alu` contracts |
| Effects.Copied | cpu/src/main/java/com/experiments/nes/cpu/Cpu.java:546-561 | no contract of its own: LDA/LDX/LDY copy the data latch into A/X/Y, TAX, TAY, TSX, TXA, TXS, TYA copy the named register; every other effect is no copy |
| Effects.CopyEffectIsCopy | cpu/src/main/java/com/experiments/nes/cpu/Cpu.java:546-561 | each load and transfer is the register copy `Effects.Copied` names for it |
| Effects.WithRegisterReplacesOne | cpu/src/main/java/com/experiments/nes/cpu/Cpu.java:722-750 | writing a register gives it the value and leaves every other register and P as they were |
| Effects.CopyRegisterSetsFlags | cpu/src/main/java/com/experiments/nes/cpu/Cpu.java:540-561 | a load or transfer puts the source byte in the target, sets Z iff it is zero and N iff its bit 7 is set, and changes no other register or P bit |
| Effects.CopyBackChangesNothing | cpu/src/main/java/com/experiments/nes/cpu/Cpu.java:722-750 | after a copy, copying back from the target changes nothing and both registers hold the source byte |
| Effects.TransferBackChangesNothing | cpu/src/main/java/com/experiments/nes/cpu/Cpu.java:722-750 | a transfer followed by its opposite (TAX then TXA, TXS then TSX, ...) is the first transfer alone: the source is restored, the target holds the source byte |
| Effects.FlagEffectWritesOneBit | cpu/src/main/java/com/experiments/nes/cpu/Cpu.java:694-720 | CLC, SEC, CLD, SED, CLI, SEI, CLV write their one flag and change nothing else |
| Effects.TransferToStackSetsFlags | cpu/src/main/java/com/experiments/nes/cpu/Cpu.java:742-745 | TXS copies X into S and sets Z/N from it; no other register changes |
| Effects.SubtractComplementsData | cpu/src/main/java/com/experiments/nes/cpu/Cpu.java:663-666 | SBC leaves the complemented operand in the data latch; X, Y, S untouched |
| Effects.Execute | cpu/src/main/java/com/experiments/nes/cpu/Cpu.java:546-573 | an effect changes only A, X, Y, S, P and data; STA/STX/STY write their register once at the address latch, every other effect makes no bus access |
| Opcodes.Binding | cpu/src/main/java/com/experiments/nes/cpu/Cpu.java:99-278 | no contract of its own: the `operation(opcode, ...)` calls by index; each bound slot is well-formed by `Opcodes.BindingsWellFormed`, and `Opcodes.TableQuirks` states the odd slots |
| Opcodes.Row0 | cpu/src/main/java/com/experiments/nes/cpu/Cpu.java:99-220 | no contract of its own: the slots of opcodes 0x00 to 0x0F; every bound one is well-formed by `Opcodes.BindingsWellFormed` |
| Opcodes.Row1 | cpu/src/main/java/com/experiments/nes/cpu/Cpu.java:121-221 | no contract of its own: the slots of opcodes 0x10 to 0x1F; every bound one is well-formed by `Opcodes.BindingsWellFormed` |
| Opcodes.Row2 | cpu/src/main/java/com/experiments/nes/cpu/Cpu.java:110-226 | no contract of its own: the slots of opcodes 0x20 to 0x2F; every bound one is well-formed by `Opcodes.BindingsWellFormed` |
| Opcodes.Row3 | cpu/src/main/java/com/experiments/nes/cpu/Cpu.java:112-246 | no contract of its own: the slots of opcodes 0x30 to 0x3F; every bound one is well-formed by `Opcodes.BindingsWellFormed` |
| Opcodes.Row4 | cpu/src/main/java/com/experiments/nes/cpu/Cpu.java:162-209 | no contract of its own: the slots of opcodes 0x40 to 0x4F; every bound one is well-formed by `Opcodes.BindingsWellFormed` |
| Opcodes.Row5 | cpu/src/main/java/com/experiments/nes/cpu/Cpu.java:132-210 | no contract of its own: the slots of opcodes 0x50 to 0x5F; every bound one is well-formed by `Opcodes.BindingsWellFormed` |
| Opcodes.Row6 | cpu/src/main/java/com/experiments/nes/cpu/Cpu.java:101-235 | no contract of its own: the slots of opcodes 0x60 to 0x6F; every bound one is well-formed by `Opcodes.BindingsWellFormed` |
| Opcodes.Row7 | cpu/src/main/java/com/experiments/nes/cpu/Cpu.java:103-250 | no contract of its own: the slots of opcodes 0x70 to 0x7F; every bound one is well-formed by `Opcodes.BindingsWellFormed` |
| Opcodes.Row8 | cpu/src/main/java/com/experiments/nes/cpu/Cpu.java:160-274 | no contract of its own: the slots of opcodes 0x80 to 0x8F; every bound one is well-formed by `Opcodes.BindingsWellFormed` |
| Opcodes.Row9 | cpu/src/main/java/com/experiments/nes/cpu/Cpu.java:253-278 | no contract of its own: the slots of opcodes 0x90 to 0x9F; every bound one is well-formed by `Opcodes.BindingsWellFormed` |
| Opcodes.RowA | cpu/src/main/java/com/experiments/nes/cpu/Cpu.java:185-270 | no contract of its own: the slots of opcodes 0xA0 to 0xAF; every bound one is well-formed by `Opcodes.BindingsWellFormed` |
| Opcodes.RowB | cpu/src/main/java/com/experiments/nes/cpu/Cpu.java:134-272 | no contract of its own: the slots of opcodes 0xB0 to 0xBF; every bound one is well-formed by `Opcodes.BindingsWellFormed` |
| Opcodes.RowC | cpu/src/main/java/com/experiments/nes/cpu/Cpu.java:136-178 | no contract of its own: the slots of opcodes 0xC0 to 0xCF; every bound one is well-formed by `Opcodes.BindingsWellFormed` |
| Opcodes.RowD | cpu/src/main/java/com/experiments/nes/cpu/Cpu.java:130-156 | no contract of its own: the slots of opcodes 0xD0 to 0xDF; every bound one is well-formed by `Opcodes.BindingsWellFormed` |
| Opcodes.RowE | cpu/src/main/java/com/experiments/nes/cpu/Cpu.java:145-243 | no contract of its own: the slots of opcodes 0xE0 to 0xEF; every bound one is well-formed by `Opcodes.BindingsWellFormed` |
| Opcodes.RowF | cpu/src/main/java/com/experiments/nes/cpu/Cpu.java:172-248 | no contract of its own: the slots of opcodes 0xF0 to 0xFF; every bound one is well-formed by `Opcodes.BindingsWellFormed` |
| Opcodes.WellFormed | cpu/src/main/java/com/experiments/nes/cpu/Cpu.java:803-1018 | no contract of its own: the operation types each mode's `switch` covers; `Modes.OperateClosed` proves such an operation never reaches `default` |
| Opcodes.Dispatch | cpu/src/main/java/com/experiments/nes/cpu/Cpu.java:392-394 | the slot is outside the table exactly for indexes past 254, empty exactly when nothing is bound there, otherwise the bound operation |
| Opcodes.TableWellFormed | cpu/src/main/java/com/experiments/nes/cpu/Cpu.java:99-278 | every bound operation pairs its mode with an operation type whose state graph the mode's `switch` covers |
| Opcodes.BindingsWellFormed | cpu/src/main/java/com/experiments/nes/cpu/Cpu.java:99-278 | the same, per table index |
| Opcodes.TableQuirks | cpu/src/main/java/com/experiments/nes/cpu/Cpu.java:84-126 | 0x2C is BIT in absolute-X mode, 0x02 is an empty slot, 0xFF lies outside the 255-slot table |
| Modes.FetchImmediate | cpu/src/main/java/com/experiments/nes/cpu/Cpu.java:396-399 | no contract of its own: one read at PC into the data latch, PC + 1, by `Addressing.ImmediateAdvancesPc` |
| Modes.LoadPointerLow | cpu/src/main/java/com/experiments/nes/cpu/Cpu.java:401-404 | no contract of its own: one read at PC starts a page-0 pointer, PC + 1, by `Addressing.PointerBytesAdvancePc` |
| Modes.LoadPointerHigh | cpu/src/main/java/com/experiments/nes/cpu/Cpu.java:406-409 | no contract of its own: one read at PC gives the pointer's high byte, PC + 1, by `Addressing.PointerBytesAdvancePc` |
| Modes.IndexPointer | cpu/src/main/java/com/experiments/nes/cpu/Cpu.java:417-421 | no contract of its own: dummy read at the pointer, X added within page 0, by `Addressing.IndexedPointerWraps` |
| Modes.LoadAddressLow | cpu/src/main/java/com/experiments/nes/cpu/Cpu.java:423-426 | no contract of its own: one read through the cursor starts a page-0 address and advances the cursor, by `Addressing.AddressBytesThroughCursor` and `Addressing.PointerStepsWithinPage` |
| Modes.LoadAddressHigh | cpu/src/main/java/com/experiments/nes/cpu/Cpu.java:428-431 | no contract of its own: one read through the cursor gives the address's high byte and advances the cursor, by `Addressing.AddressBytesThroughCursor` |
| Modes.LoadAddressHighAddIndex | cpu/src/main/java/com/experiments/nes/cpu/Cpu.java:433-438 | no contract of its own: by `Addressing.HighFetchAddsIndex` and `Addressing.HighFetchDetectsCrossing` |
| Modes.ReadBogusInstruction | cpu/src/main/java/com/experiments/nes/cpu/Cpu.java:440-444 | no contract of its own: by `Addressing.BogusReadTakesAccumulator` |
| Modes.ReadAndFixHigh | cpu/src/main/java/com/experiments/nes/cpu/Cpu.java:446-450 | no contract of its own: by `Addressing.FixHighReadsWrongPage` |
| Modes.ReadOperand | cpu/src/main/java/com/experiments/nes/cpu/Cpu.java:452-455 | no contract of its own: one read at the address latch into the data latch and nothing else, by `Addressing.OperandReadAndJump` |
| Modes.ReadAndAddIndex | cpu/src/main/java/com/experiments/nes/cpu/Cpu.java:457-461 | no contract of its own: by `Addressing.ZeroPageIndexWraps` |
| Modes.SetPcToAddress | cpu/src/main/java/com/experiments/nes/cpu/Cpu.java:481-484 | no contract of its own: PC takes the address latch with no bus access, by `Addressing.OperandReadAndJump` |
| Modes.StoreResultAt | cpu/src/main/java/com/experiments/nes/cpu/Cpu.java:486-489 | no contract of its own: by `Addressing.StoreResultWrites` |
| Modes.ReadStack | cpu/src/main/java/com/experiments/nes/cpu/Cpu.java:495-498 | no contract of its own: the dummy stack read, by `Subroutines.JumpToSubroutinePushes` |
| Modes.PushPcHigh | cpu/src/main/java/com/experiments/nes/cpu/Cpu.java:500-504 | no contract of its own: by `Subroutines.JumpPushHigh` |
| Modes.PushPcLow | cpu/src/main/java/com/experiments/nes/cpu/Cpu.java:506-510 | no contract of its own: by `Subroutines.JumpPushLow` |
| Modes.FetchAddressHighAndUpdatePc | cpu/src/main/java/com/experiments/nes/cpu/Cpu.java:512-516 | no contract of its own: by `Subroutines.JumpLastStep` |
| Modes.IncrementStackPointer | cpu/src/main/java/com/experiments/nes/cpu/Cpu.java:518-522 | no contract of its own: by `Subroutines.ReturnFromSubroutinePops` |
| Modes.PopPcLow | cpu/src/main/java/com/experiments/nes/cpu/Cpu.java:524-528 | no contract of its own: by `Subroutines.ReturnPopLow` |
| Modes.PopPcHigh | cpu/src/main/java/com/experiments/nes/cpu/Cpu.java:530-533 | no contract of its own: by `Subroutines.ReturnPopHigh` |
| Modes.IncrementProgramCounter | cpu/src/main/java/com/experiments/nes/cpu/Cpu.java:535-538 | no contract of its own: by `Subroutines.ReturnLastStep` |
| Modes.Handles | cpu/src/main/java/com/experiments/nes/cpu/Cpu.java:803-1018 | no contract of its own: the states each `switch` names; `Modes.OperateClosed` and `Driver.ClockPreservesConsistency` prove the operation stays among them |
| Modes.Advance | cpu/src/main/java/com/experiments/nes/cpu/Cpu.java:411-415 | reading through PC moves PC on by one; reading through the pointer moves the pointer on within its page; nothing else changes |
| Modes.ExecuteOperation | cpu/src/main/java/com/experiments/nes/cpu/Cpu.java:463-473 | a read-modify-write first writes the unmodified data back; the next state is FETCH_OPCODE_IN_SAME_CYCLE for Read, STORE_RESULT for ReadWrite, FETCH_OPCODE for Write and Jump |
| Modes.ExecuteOperationStoreAccumulator | cpu/src/main/java/com/experiments/nes/cpu/Cpu.java:475-479 | the driver's latches are untouched |
| Modes.ImmediateMode | cpu/src/main/java/com/experiments/nes/cpu/Cpu.java:803-813 | the step leaves the dispatched operation and the state field to the driver |
| Modes.ZeroPageMode | cpu/src/main/java/com/experiments/nes/cpu/Cpu.java:815-832 | the step leaves the dispatched operation and the state field to the driver |
| Modes.ZeroPageIndexedMode | cpu/src/main/java/com/experiments/nes/cpu/Cpu.java:834-852 | the step leaves the dispatched operation and the state field to the driver |
| Modes.AbsoluteMode | cpu/src/main/java/com/experiments/nes/cpu/Cpu.java:854-875 | the step leaves the dispatched operation and the state field to the driver |
| Modes.AbsoluteIndexedMode | cpu/src/main/java/com/experiments/nes/cpu/Cpu.java:877-905 | the step leaves the dispatched operation and the state field to the driver |
| Modes.IndexedIndirectMode | cpu/src/main/java/com/experiments/nes/cpu/Cpu.java:907-926 | the step leaves the dispatched operation and the state field to the driver |
| Modes.IndirectIndexedMode | cpu/src/main/java/com/experiments/nes/cpu/Cpu.java:928-946 | the step leaves the dispatched operation and the state field to the driver |
| Modes.AbsoluteIndirectMode | cpu/src/main/java/com/experiments/nes/cpu/Cpu.java:948-961 | the step leaves the dispatched operation and the state field to the driver |
| Modes.AccumulatorMode | cpu/src/main/java/com/experiments/nes/cpu/Cpu.java:963-974 | the step leaves the dispatched operation and the state field to the driver |
| Modes.ImpliedMode | cpu/src/main/java/com/experiments/nes/cpu/Cpu.java:976-987 | the step leaves the dispatched operation and the state field to the driver |
| Modes.JumpToSubroutineStep | cpu/src/main/java/com/experiments/nes/cpu/Cpu.java:989-1002 | the step leaves the dispatched operation and the state field to the driver |
| Modes.ReturnFromSubroutineStep | cpu/src/main/java/com/experiments/nes/cpu/Cpu.java:1004-1018 | the step leaves the dispatched operation and the state field to the driver |
| Modes.Operate | cpu/src/main/java/com/experiments/nes/cpu/Cpu.java:786-797 | `operation.clock(state)` leaves the dispatched operation and the state field to the driver |
| Modes.Perform | cpu/src/main/java/com/experiments/nes/cpu/Cpu.java:347-356 | `n` successful micro-steps record `n` cycles of bus accesses |
| Modes.PerformCons | cpu/src/main/java/com/experiments/nes/cpu/Cpu.java:347-356 | a run of micro-steps is its first step followed by the rest |
| Modes.OperateClosed | cpu/src/main/java/com/experiments/nes/cpu/Cpu.java:803-1018 | a well-formed operation asked for a state its `switch` names never reaches `default`, answers FETCH_OPCODE, the sentinel or a named state, and never the sentinel right after the opcode fetch |
| Modes.IndexedModesClosed | cpu/src/main/java/com/experiments/nes/cpu/Cpu.java:877-946 | the same for absolute-indexed, (zp,X) and (zp),Y |
| Modes.DirectModesClosed | cpu/src/main/java/com/experiments/nes/cpu/Cpu.java:803-987 | the same for the other standard modes |
| Driver.FetchOpcode | cpu/src/main/java/com/experiments/nes/cpu/Cpu.java:392-394 | succeeds exactly for a bound slot; faults with OpcodeOutsideTable or UnboundOpcode otherwise; on success one read at PC, PC + 1, the operation latched, memory unchanged |
| Driver.ClockOnce | cpu/src/main/java/com/experiments/nes/cpu/Cpu.java:347-351 | no contract of its own: by `Driver.ClockOnceAfterFetch`, `Driver.FetchThenOperate` and `Driver.ClockOnceMid` |
| Driver.Clock | cpu/src/main/java/com/experiments/nes/cpu/Cpu.java:347-356 | a completed cycle never leaves the same-cycle sentinel behind |
| Driver.ClockOnceAfterFetch | cpu/src/main/java/com/experiments/nes/cpu/Cpu.java:347-351 | after an opcode fetch only the fetch faults can occur, and the bound operation lands in a state its `switch` names, never the sentinel |
| Driver.FetchLandsInHandledState | cpu/src/main/java/com/experiments/nes/cpu/Cpu.java:347-351 | a bound opcode's first step succeeds with that operation latched in a state it names |
| Driver.Repeat | cpu/src/main/java/com/experiments/nes/cpu/Cpu.java:347-356 | a successful run of `n` steps records `n` cycles of bus accesses; what the steps keep is stated by `Driver.RepeatKeeps` |
| Driver.Run | cpu/src/main/java/com/experiments/nes/cpu/Cpu.java:347-356 | no contract of its own: by `Driver.RunPreservesConsistency` and `Driver.RunCons` |
| Driver.RepeatKeeps | cpu/src/main/java/com/experiments/nes/cpu/Cpu.java:347-356 | a property each clock keeps and a class of faults each clock stays within hold over any number of clocks |
| Driver.ClockPreservesConsistency | cpu/src/main/java/com/experiments/nes/cpu/Cpu.java:347-356 | from a consistent machine a clock faults only on an opcode fetch and ends consistent |
| Driver.PowerOnConsistent | cpu/src/main/java/com/experiments/nes/cpu/Cpu.java:71-81 | a freshly constructed core is consistent |
| Driver.ResetKeepsConsistency | cpu/src/main/java/com/experiments/nes/cpu/Cpu.java:341-345 | reset keeps a machine consistent |
| Driver.RunPreservesConsistency | cpu/src/main/java/com/experiments/nes/cpu/Cpu.java:347-356 | any number of clocks from a consistent machine faults only on an opcode fetch and ends consistent |
| Driver.ClockIsOnePass | cpu/src/main/java/com/experiments/nes/cpu/Cpu.java:352-355 | a cycle that does not end in the sentinel is one pass through the operation |
| Driver.ClockOnceMid | cpu/src/main/java/com/experiments/nes/cpu/Cpu.java:347-351 | in mid-instruction a pass is one step of the latched operation |
| Driver.ClockMidInstruction | cpu/src/main/java/com/experiments/nes/cpu/Cpu.java:347-356 | a mid-instruction cycle is exactly one step of the latched operation and its bus accesses |
| Driver.FetchThenOperate | cpu/src/main/java/com/experiments/nes/cpu/Cpu.java:347-351 | the first pass of an instruction is the opcode read followed by the first step of the selected operation |
| Driver.FirstStepSettles | cpu/src/main/java/com/experiments/nes/cpu/Cpu.java:352-355 | the step right after an opcode fetch succeeds and never answers the sentinel, so `clock()` recurses at most once |
| Driver.ClockFirstCycle | cpu/src/main/java/com/experiments/nes/cpu/Cpu.java:347-356 | an instruction's first cycle is the opcode read then the first step of its operation, which neither faults nor ends in the sentinel |
| Driver.RunCons | cpu/src/main/java/com/experiments/nes/cpu/Cpu.java:347-356 | a run of `n` clocks is one clock followed by `n - 1` clocks |
| Subroutines.JumpFetchesTargetLow | cpu/src/main/java/com/experiments/nes/cpu/Cpu.java:989-994 | JSR's first step reads the target's low byte at PC and moves PC onto JSR's last byte; nothing else changes |
| Subroutines.JumpLastStep | cpu/src/main/java/com/experiments/nes/cpu/Cpu.java:512-516 | the last step reads the target's high byte at PC and jumps there |
| Subroutines.JumpPushLow | cpu/src/main/java/com/experiments/nes/cpu/Cpu.java:506-516 | push of PC's low byte at 0x0100+S, S - 1, then the jump |
| Subroutines.JumpPushHigh | cpu/src/main/java/com/experiments/nes/cpu/Cpu.java:500-516 | pushes of PC's high then low byte, S - 2, then the jump |
| Subroutines.JumpToSubroutinePushes | cpu/src/main/java/com/experiments/nes/cpu/Cpu.java:495-516 | JSR's four cycles: dummy stack read, the two pushes into page 1, the high-byte read and jump; S drops by 2; every other register untouched |
| Subroutines.ReturnReadsBogusByte | cpu/src/main/java/com/experiments/nes/cpu/Cpu.java:440-444 | RTS's first step reads at PC and changes only the data latch, which receives A |
| Subroutines.ReturnLastStep | cpu/src/main/java/com/experiments/nes/cpu/Cpu.java:535-538 | the last step reads at PC and moves PC one past it |
| Subroutines.ReturnPopHigh | cpu/src/main/java/com/experiments/nes/cpu/Cpu.java:530-538 | pulling the high byte from the stack top and stepping past the pulled address |
| Subroutines.ReturnPopLow | cpu/src/main/java/com/experiments/nes/cpu/Cpu.java:524-538 | pulling the low then the high byte, S + 1, PC the pulled address + 1 |
| Subroutines.PopHighAfterPopLow | cpu/src/main/java/com/experiments/nes/cpu/Cpu.java:524-533 | the high-byte pull restated from before the low-byte pull |
| Subroutines.PopLowCycles | cpu/src/main/java/com/experiments/nes/cpu/Cpu.java:524-527 | the low-byte pull adds only its stack read in front |
| Subroutines.ReturnFromSubroutinePops | cpu/src/main/java/com/experiments/nes/cpu/Cpu.java:518-538 | RTS's four cycles after its bogus read: dummy stack read, low byte from 0x0100+S+1, high byte from 0x0100+S+2, a read at that address; S grows by 2, PC is the pulled address + 1, nothing else changes |
| Subroutines.PopLowAfterIncrement | cpu/src/main/java/com/experiments/nes/cpu/Cpu.java:518-528 | the pulls restated from before the S increment |
| Subroutines.PopsAfterIncrement | cpu/src/main/java/com/experiments/nes/cpu/Cpu.java:518-522 | the S increment adds only its stack read in front |
| Subroutines.SubroutineRoundTrip | cpu/src/main/java/com/experiments/nes/cpu/Cpu.java:495-538 | JSR then RTS, with S and the two pushed cells intact in between, returns to the instruction after the JSR with S restored |
| Subroutines.ReturnMatchesCall | cpu/src/main/java/com/experiments/nes/cpu/Cpu.java:500-533 | the round trip on the machine values JSR leaves and RTS finds |
| Subroutines.PushedBytesSurvive | cpu/src/main/java/com/experiments/nes/cpu/Cpu.java:500-510 | RTS finds in the two stack cells the bytes JSR pushed |
| Subroutines.PulledAddressIsPushed | cpu/src/main/java/com/experiments/nes/cpu/Cpu.java:524-533 | pulling the low and high bytes of an address gives that address |
| Subroutines.PushedBytesReadBack | cpu/src/main/java/com/experiments/nes/cpu/Cpu.java:500-510 | the two cells JSR writes read back as PC's low and high byte |
| Addressing.HighFetchAddsIndex | cpu/src/main/java/com/experiments/nes/cpu/Cpu.java:433-435 | one read through the cursor supplies the high byte; the index reaches only the low byte |
| Addressing.HighFetchDetectsCrossing | cpu/src/main/java/com/experiments/nes/cpu/Cpu.java:433-437 | the next state is the fix-up exactly when the low byte carries, the operand read otherwise |
| Addressing.FixHighReadsWrongPage | cpu/src/main/java/com/experiments/nes/cpu/Cpu.java:446-450 | the fix-up reads the wrong-page address, then carries into the high byte, keeping the low byte |
| Addressing.FixedAddressIsSum | cpu/src/main/java/com/experiments/nes/cpu/Cpu.java:433-450 | the indexed address, plus 0x0100 when it carried, is the full 16-bit sum of base and index |
| Addressing.ZeroPageIndexWraps | cpu/src/main/java/com/experiments/nes/cpu/Cpu.java:457-461 | the dummy read goes to the un-indexed zero-page address; the indexed one wraps within page 0 |
| Addressing.IndexedPointerWraps | cpu/src/main/java/com/experiments/nes/cpu/Cpu.java:417-421 | (zp,X): dummy read at the pointer, X added within page 0 |
| Addressing.PointerStepsWithinPage | cpu/src/main/java/com/experiments/nes/cpu/Cpu.java:411-426 | reading the address low byte moves a zero-page pointer on within page 0, so 0xFF is followed by 0x00 |
| Addressing.ImmediateAdvancesPc | cpu/src/main/java/com/experiments/nes/cpu/Cpu.java:396-399 | one read at PC, whose byte goes to the data latch; PC moves on, memory untouched |
| Addressing.PointerBytesAdvancePc | cpu/src/main/java/com/experiments/nes/cpu/Cpu.java:401-409 | one read at PC gives a page-0 pointer or its high byte beside the low byte already fetched; PC moves on, memory untouched |
| Addressing.AddressBytesThroughCursor | cpu/src/main/java/com/experiments/nes/cpu/Cpu.java:423-431 | one read through either cursor gives a page-0 address or its high byte beside the low byte; only the cursor and the address latch change |
| Addressing.OperandReadAndJump | cpu/src/main/java/com/experiments/nes/cpu/Cpu.java:452-455 | the operand read loads the byte at the address latch and changes nothing else; `updatePC` (Cpu.java:481-484) jumps to the address latch with no bus access |
| Addressing.ReadModifyWriteStoresTwice | cpu/src/main/java/com/experiments/nes/cpu/Cpu.java:463-489 | a read-modify-write writes the unmodified byte, then, in STORE_RESULT, the new byte at the same address, then fetches the next opcode |
| Addressing.WriteBackKeepsAddress | cpu/src/main/java/com/experiments/nes/cpu/Cpu.java:463-467 | the first write is the only bus access of that cycle and the address latch survives the effect |
| Addressing.WriteBackRunsEffect | cpu/src/main/java/com/experiments/nes/cpu/Cpu.java:463-467 | that cycle is the write-back followed by the effect on the machine holding it |
| Addressing.StoreResultWrites | cpu/src/main/java/com/experiments/nes/cpu/Cpu.java:486-489 | STORE_RESULT writes the data latch at the address latch, then FETCH_OPCODE |
| Addressing.BogusReadTakesAccumulator | cpu/src/main/java/com/experiments/nes/cpu/Cpu.java:440-444 | the dummy read is at PC, PC does not move, the data latch receives A |
| Traces.AbsoluteXCrossesPage | cpu/src/test/java/com/experiments/nes/cpu/CpuTest.java:476-518 | LDA $12FF,X and LDA $FFFF,X with X = 2 read the high byte, then $1201 / $FF01, then $1301 / $0001 |
| Traces.HighFetchAddsIndexAt | cpu/src/test/java/com/experiments/nes/cpu/CpuTest.java:476-496 | the high-byte fetch of those traces latches the fetched high byte with low byte $01 and goes to the fix-up |
| Traces.ZeroPageXWraps | cpu/src/test/java/com/experiments/nes/cpu/CpuTest.java:418-436 | LDA $FF,X with X = 2 reads the address byte, $00FF, then $0001 |
| Traces.LoadCompletes | cpu/src/test/java/com/experiments/nes/cpu/CpuTest.java:418-436 | the cycle after the operand read loads A and overlaps the next opcode fetch |
| Traces.ShiftZeroPageReads | cpu/src/test/java/com/experiments/nes/cpu/CpuTest.java:186-187 | ASL $01 reads $0105 then $0001 |
| Traces.ShiftZeroPageWritesTwice | cpu/src/test/java/com/experiments/nes/cpu/CpuTest.java:169-191 | then writes 1 and then 2 to $0001 |
| Traces.ShiftWritesOldValue | cpu/src/test/java/com/experiments/nes/cpu/CpuTest.java:188 | the first write is the old value 1; the shifted 2 waits in the data latch |
| Traces.StoreResultWritesNew | cpu/src/test/java/com/experiments/nes/cpu/CpuTest.java:189 | STORE_RESULT writes the data latch and ends the instruction |
| Traces.IndexedIndirectPointer | cpu/src/test/java/com/experiments/nes/cpu/CpuTest.java:589-611 | LDA ($FE,X) with X = 1 reads $0103, then $00FE, leaving pointer $FF |
| Traces.IndexedIndirectStraddles | cpu/src/test/java/com/experiments/nes/cpu/CpuTest.java:589-611 | then reads $00FF, $0000 (not $0100) and $1234 |
| Traces.InitialState | cpu/src/test/java/com/experiments/nes/cpu/CpuTest.java:30-42 | a new core has A, X, Y zero, PC $FFFC, S $FD and only I of the six flags set |
| Traces.ResetExample | cpu/src/test/java/com/experiments/nes/cpu/CpuTest.java:45-66 | reset from S $FD with every flag but I set gives S $FA and all six flags set, A/X/Y kept |
| VRam.TileX | src/main/java/experiments/nes/ppu/VRamAddress.java:34-36 | coarse X is below 32 |
| VRam.TileY | src/main/java/experiments/nes/ppu/VRamAddress.java:38-40 | coarse Y is below 32 |
| VRam.FineY | src/main/java/experiments/nes/ppu/VRamAddress.java:42-44 | fine Y is below 8 |
| VRam.FieldsMakeValue | src/main/java/experiments/nes/ppu/VRamAddress.java:24-44 | bit 15, fine Y, nametable, coarse Y and coarse X put back in place give the value |
| VRam.GettersReadFields | src/main/java/experiments/nes/ppu/VRamAddress.java:24-44 | fields placed in the layout read back through the getters |
| VRam.SetX | src/main/java/experiments/nes/ppu/VRamAddress.java:51-54 | the horizontal nametable bit and coarse X come from `that`; every other bit stays |
| VRam.SetY | src/main/java/experiments/nes/ppu/VRamAddress.java:46-49 | the vertical nametable bit, the four fine-Y mask bits and coarse Y come from `that`; every other bit stays |
| VRam.SetXThenSetYCopies | src/main/java/experiments/nes/ppu/VRamAddress.java:46-54 | copying X then Y from `that` yields exactly `that` |
| VRam.SetXSetYCommute | src/main/java/experiments/nes/ppu/VRamAddress.java:46-54 | the two copies commute |
| VRam.SetXIdempotent | src/main/java/experiments/nes/ppu/VRamAddress.java:51-54 | copying the same X twice is copying it once |
| VRam.NameTableAddress | src/main/java/experiments/nes/ppu/VRamAddress.java:56-60 | within 0x2000..0x2FFF, low twelve bits those of the register |
| VRam.NameTableEntry | src/main/java/experiments/nes/ppu/VRamAddress.java:56-60 | 0x2000 + 0x400 per nametable + 32 per coarse Y + coarse X |
| VRam.IncrementX | src/main/java/experiments/nes/ppu/VRamAddress.java:62-70 | at column 31 the column becomes 0 and the horizontal nametable toggles, else the column grows by one and the bit stays; no bit outside those two fields changes |
| VRam.ColumnsRight | src/main/java/experiments/nes/ppu/VRamAddress.java:62-70 | reference for `n <= 32` column steps: column + n mod 32, horizontal bit toggled exactly when the column passes 31 |
| VRam.IncrementXStep | src/main/java/experiments/nes/ppu/VRamAddress.java:62-70 | one `incrementX` moves the reference one column on |
| VRam.IncrementXSteps | src/main/java/experiments/nes/ppu/VRamAddress.java:62-70 | `n <= 32` calls of `incrementX` equal the reference |
| VRam.IncrementXCrossesOneScreen | src/main/java/experiments/nes/ppu/VRamAddress.java:62-70 | 32 calls return to the same column with only the horizontal nametable toggled |
| VRam.IncrementY | src/main/java/experiments/nes/ppu/VRamAddress.java:72-92 | bit 15 cleared; below fine Y 7 fine Y grows by one and the low twelve bits stay; at 7 fine Y becomes 0 and coarse X and the horizontal bit stay |
| VRam.IncrementYNextRow | src/main/java/experiments/nes/ppu/VRamAddress.java:79-91 | at fine Y 7: row 29 goes to row 0 with the vertical nametable toggled, row 31 to row 0 without, any other row to the next |
| VRam.FineRowsDown | src/main/java/experiments/nes/ppu/VRamAddress.java:72-78 | reference for steps inside a tile row: fine Y + n, low twelve bits kept, bit 15 clear |
| VRam.IncrementYFirstStep | src/main/java/experiments/nes/ppu/VRamAddress.java:72-78 | one `incrementY` below fine Y 7 is one row down |
| VRam.IncrementYStep | src/main/java/experiments/nes/ppu/VRamAddress.java:72-78 | one `incrementY` moves the reference one row on |
| VRam.IncrementYSteps | src/main/java/experiments/nes/ppu/VRamAddress.java:72-78 | `n` calls inside a tile row equal the reference |
| VRam.EightRowsMakeATile | src/main/java/experiments/nes/ppu/VRamAddress.java:72-92 | from fine Y 0 on a row before 29, eight calls reach fine Y 0 of the next row, same nametable and column |
| VRam.AttrTableAddress | src/main/java/experiments/nes/ppu/VRamAddress.java:94-100 | 0x23C0 in the register's nametable; low six bits (coarse Y / 4) * 8 + coarse X / 4 |
| VRam.AttributeOfTile | src/main/java/experiments/nes/ppu/VRamAddress.java:94-100 | the attribute byte follows the 30 rows of tile bytes of the same nametable and covers a 4x4 block |
| VRam.BackgroundPalette | src/main/java/experiments/nes/ppu/VRamAddress.java:102-113 | in 0..3: bits 1-0, 3-2, 5-4 or 7-6 of the attribute byte for the top-left, top-right, bottom-left, bottom-right quadrant |
| VRam.TileAddress | src/main/java/experiments/nes/ppu/VRamAddress.java:131-133 | no contract of its own: by `VRam.TileAddressIsTileStart` |
| VRam.TileAddressIsTileStart | src/main/java/experiments/nes/ppu/VRamAddress.java:131-133 | a tile is sixteen bytes: in a 0x1000-aligned table it starts at start + 16 * entry, and the entry reaches only bits 11..4 |
| VRam.TileAddressPlane1 | src/main/java/experiments/nes/ppu/VRamAddress.java:115-117 | bits 11..4 are those of the table start OR-ed with the entry; in a 0x1000-aligned table it is start + 16 * entry + fine Y |
| VRam.TileAddressPlane2 | src/main/java/experiments/nes/ppu/VRamAddress.java:119-121 | plane 1 OR 0x08; in an aligned table plane 1 + 8 |
| VRam.FineYPicksRowOnly | src/main/java/experiments/nes/ppu/VRamAddress.java:115-133 | fine Y only decides the low three bits of a tile address |

## Left out

- Memory (`Memory.java`) is a port whose implementation is not part of this model. It is a total map from 16-bit addresses to bytes, and every access is recorded as a bus event.
- The public register accessors of `Cpu` (Cpu.java:289-339) are not modelled. Tests that set registers are stated as lemma preconditions on a `Cpu` value instead.
- After a Java exception, the partially updated `Cpu` object is not modelled. A fault ends the cycle and the run.
- BRK is modelled as written: it answers FETCH_VALUE, with no bus access. Its real behaviour, IRQ/NMI and decimal-mode correction are absent from the code and so from the model.
- `PPU.java` (scanline rendering into an AWT image through an unseen bus), `NesPalette.java` (a colour table), `FileBus.java`, `PpuFileBus.java` and `PPUTester.java` (file I/O and a Swing UI) are not part of this model.
- The test harness (`MemoryStub.java`, `HexAssertions.java`) is not modelled. Traces from `CpuTest.java` appear as lemmas that start from the state each test reaches.
- Modes.ImmediateMode, Modes.ZeroPageMode, Modes.ZeroPageIndexedMode, Modes.AbsoluteMode, Modes.AbsoluteIndexedMode, Modes.IndexedIndirectMode, Modes.IndirectIndexedMode, Modes.AbsoluteIndirectMode, Modes.AccumulatorMode, Modes.ImpliedMode, Modes.JumpToSubroutineStep, Modes.ReturnFromSubroutineStep and Modes.Operate:
  - their own contracts state only that the driver's latches are kept;
  - the cycle behaviour is stated by the lemmas in `Addressing`, `Subroutines`, `Traces` and `Modes.OperateClosed`.
- Modes.ExecuteOperationStoreAccumulator: the contract does not restate that A receives the data latch.
- Effects.SubtractComplementsData: states the data latch and the untouched registers only. The new A and P are those of `Alu.SubtractWithCarry`, which `Effects.Apply` writes back.
- Driver.Clock: its own contract says only that the sentinel never survives a cycle. Its cycle behaviour is stated by `Driver.ClockFirstCycle`, `Driver.ClockMidInstruction` and `Driver.ClockIsOnePass`.
- VRam.TileAddressPlane1 and VRam.TileAddressPlane2: the `int` table start is taken as its low 16 bits, the only bits the `(short)` result keeps. The closed form is stated for 0x1000-aligned tables only.
- VRam.IncrementXSteps: bounded to 32 steps, one full screen width.
- VRam.IncrementYSteps: bounded to the steps inside one tile row. The row change itself is `VRam.IncrementYNextRow`.
