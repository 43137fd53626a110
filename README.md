# Game Boy emulator core, modelled in Dafny

This project models the core of a Game Boy (Sharp LR35902) emulator written in Rust and
proves properties of that model. It covers:

- the CPU: its registers and flags, the 256-entry opcode decode table, the register
  reader, the operand resolver `fetch_data`, the execution routines with their dispatch
  table, and `step`;
- the stack protocol and the interrupt controller;
- the timer;
- the memory devices: cartridge with header parsing and checksum, the ROM-only bus, work
  and high RAM, the PPU's OAM and VRAM, and the OAM DMA unit;
- the LCD register file with its palettes;
- the IO register decode and the serial debug capture.

Files are one Dafny module each, named after the source file they model:

- `instruction.dfy`, `cpu.dfy`, `cpu_util.dfy`, `cpu_fetch_data.dfy`,
  `cpu_processor.dfy`, `cpu_step.dfy`;
- `stack.dfy`, `interrupts.dfy`, `timer.dfy`;
- `cart.dfy`, `bus.dfy`, `ram.dfy`, `ppu.dfy`, `dma.dfy`, `lcd.dfy`, `io.dfy`, `dbg.dfy`;
- `registers.dfy`, `common.dfy`, `enums.dfy`.

Two support modules have no source file of their own. `wrappers.dfy` holds `Option` and
`Result`; a `Failure` result (or a `false` success flag) stands for a Rust `panic!`.
`memory.dfy` holds the abstract 64 KiB bus memory.

The emulator's objects are Dafny classes whose methods update their fields:

- `Cpu`, `Timer`, `Cart`, `Ram`, `Ppu`, `Dma`, `Lcd`, `Io` and `Dbg`.
- The fixed-size RAM, OAM and VRAM buffers are arrays.
- The small header arrays and palettes are sequence fields.
- The code that only computes is functions and lemmas: the decode table, the flag
  helpers, the checksum, and the palette and mode bit fields.
- Each class method is specified against a function of the old state, for example
  `Timer.Written`, `Dma.Ticked`, `Stack.Pushed16`, `Interrupts.Serviced` or
  `Lcd.PaletteShades`.
- The properties the emulator relies on are proved about those functions, for example:
  - a word pushed on the stack pops back;
  - `handle` services exactly the highest-priority pending interrupt;
  - a DMA transfer copies the whole source page into OAM after 162 ticks;
  - a mode or palette written to the LCD reads back.

## Model

| member | source | states |
|---|---|---|
| Enums.Discriminant | src/enums/interrupt_types.rs:4-10 | each interrupt source's discriminant is one of 1, 2, 4, 8, 16 |
| Common.Bit | src/modules/common.rs:1-3 | `bit(v, b)` holds exactly when bit `b` of `v`, shifted to the bottom, is 1 |
| Common.SetBit | src/modules/common.rs:5-11 | afterwards bit `b` equals `on` and every other bit is that of the input |
| Common.Between | src/modules/common.rs:13-15 | an inclusive range test: true implies `min <= max`, and at either bound it holds exactly when the range is non-empty |
| Common.SetBitIdempotent | src/modules/common.rs:5-11 | setting the same bit to the same value twice is the same as once |
| Common.SetBitKeepsOthers | src/modules/common.rs:5-11 | every other bit reads as before |
| Common.SetBitRestores | src/modules/common.rs:5-11 | flipping a bit and setting it back restores the byte |
| Common.Word | src/helpers/cpu_util.rs:16-19 | `hi << 8 \| lo`: its high byte is `hi` and its low byte is `lo` |
| Common.WordRoundTrip | src/modules/stack.rs:19-29 | splitting a word and joining its bytes gives it back, and the other way round |
| Registers.Registers.FlagZ | src/modules/registers.rs:33-35 | Z is bit 7 of F |
| Registers.Registers.FlagN | src/modules/registers.rs:37-39 | N is bit 6 of F |
| Registers.Registers.FlagH | src/modules/registers.rs:41-43 | H is bit 5 of F |
| Registers.Registers.FlagC | src/modules/registers.rs:45-47 | C is bit 4 of F |
| Registers.New | src/modules/registers.rs:18-31 | every register, PC and SP are zero, so every flag is clear |
| Registers.FlagsInHighNibble | src/modules/registers.rs:33-47 | the low nibble of F never affects any of the four flags |
| Instruction.UndefinedExactly | src/modules/instruction.rs:31-1632 | decoding is total, and exactly the eleven unlisted opcodes decode as `Undefined` |
| Instruction.ParamOnlyOnRst | src/modules/instruction.rs:1364-1627 | only the eight RST opcodes carry a parameter, and only they are RST |
| Instruction.RstParamIsVector | src/modules/instruction.rs:1364-1627 | an RST opcode's parameter is its bits 5-3 in place (`opcode & 0x38`) |
| Instruction.RstOpcodesPattern | src/modules/instruction.rs:1364-1627 | the RST opcodes are exactly those with `opcode & 0xC7 == 0xC7` |
| Instruction.LoadBlock | src/modules/instruction.rs:415-865 | 0x40-0x7F: LD between the registers of bits 5-3 and 2-0, MR_R for (HL) destinations, R_MR for (HL) sources; 0x76 is HALT |
| Instruction.AluBlock | src/modules/instruction.rs:868-1321 | 0x80-0xBF: the ALU operation of bits 5-3 on A with the operand of bits 2-0; XOR A and CP A are entered in mode R |
| Instruction.ConditionOnlyOnBranches | src/modules/instruction.rs:172-1472 | only the sixteen conditional JR, RET, JP and CALL opcodes carry a condition |
| Instruction.ConditionalBranches | src/modules/instruction.rs:221-1472 | a conditional opcode's condition is NZ, Z, NC or C from bits 4-3, and its column fixes JR d8, RET, JP d16 or CALL d16 |
| Instruction.UnconditionalBranches | src/modules/instruction.rs:172-1399 | the unconditional JR (0x18), JP (0xC3), RET (0xC9) and CALL (0xCD) entries carry no condition and no registers |
| Instruction.ImmediateAlu | src/modules/instruction.rs:1358-1622 | the opcodes 0xC6, 0xCE, ..., 0xFE are the ALU operations on A with an 8-bit immediate, in the 0x80-block order |
| Instruction.PrefixEntry | src/modules/instruction.rs:1384-1388 | 0xCB is the prefix entry, reading its next byte as an 8-bit immediate |
| Instruction.DecodedOperandsDefined | src/modules/instruction.rs:31-1632 | every register that an entry's addressing mode reads is named, and implied-mode entries name none |
| CpuUtil.ReadRegister | src/helpers/cpu_util.rs:5-25 | fails exactly for NONE; each 8-bit register reads as its own value zero-extended; AF, BC, DE and HL read as `hi << 8 \| lo` of their two registers; SP and PC as they are |
| CpuUtil.PairHalves | src/helpers/cpu_util.rs:16-19 | each pair's high byte is its first register and its low byte its second |
| Cpu.Immediate16 | src/modules/cpu.rs:65-76 | the little-endian word at an address: its low byte at the address, its high byte just above |
| Cpu.ImmediateBytes | src/helpers/cpu_fetch_data.rs:18-35 | the number of operand bytes at PC: two for the 16-bit modes, one for the 8-bit modes, none otherwise |
| Cpu.Cpu.constructor | src/modules/cpu.rs:26-39 | registers, fetch state and interrupt enable all zero, with the default descriptor |
| Cpu.Cpu.Init | src/modules/cpu.rs:41-44 | PC becomes 0x100 and A 0x01; nothing else changes |
| Cpu.Cpu.FetchInstruction | src/modules/cpu.rs:46-50 | the opcode is the byte at PC, the descriptor is its decode, and PC steps by one |
| Cpu.Cpu.FetchImmediate8 | src/modules/cpu.rs:59-64 | the operand is the byte at PC and PC steps by one |
| Cpu.Cpu.FetchImmediate16 | src/modules/cpu.rs:65-76 | the operand is the little-endian word at PC and PC steps by two |
| Cpu.Cpu.FetchData | src/modules/cpu.rs:52-79 | accepts exactly the implied, register, 8-bit and 16-bit immediate modes (the register named); the operand each mode leaves; destination cleared |
| Stack.Push | src/modules/stack.rs:8-11 | SP drops by one (wrapping) and the byte is stored at the new SP; nothing else changes |
| Stack.Pop | src/modules/stack.rs:13-17 | returns the byte at SP, SP rises by one (wrapping), memory unchanged |
| Stack.Pushed16 | src/modules/stack.rs:19-22 | after pushing a word, its high byte is at SP-1, its low byte at SP-2, and every other address is unchanged |
| Stack.PushedIsTwoPushes | src/modules/stack.rs:19-22 | pushing a word is two single-byte pushes |
| Stack.Push16 | src/modules/stack.rs:19-22 | SP drops by two and memory becomes `Pushed16` of the old memory |
| Stack.Pop16 | src/modules/stack.rs:24-29 | the result is `hi << 8 \| lo` from SP+1 and SP, and SP rises by two |
| Stack.Pop16AfterPush16 | src/modules/stack.rs:19-29 | popping a word right after pushing it returns that word and restores SP |
| Interrupts.InterruptBit | src/modules/interrupts.rs:7-15 | each source maps to a single bit |
| Interrupts.InterruptBitIsDiscriminant | src/modules/interrupts.rs:7-15 | the map agrees with the enum discriminants |
| Interrupts.InterruptBitsDisjoint | src/modules/interrupts.rs:7-15 | distinct sources have disjoint bits |
| Interrupts.Rank | src/modules/interrupts.rs:40-52 | the priority order of `handle`: VBLANK, LCDSTAT, TIMER, SERIAL, JOYPAD |
| Interrupts.Vector | src/modules/interrupts.rs:40-52 | the service addresses 0x40, 0x48, 0x50, 0x58, 0x60, eight apart in priority order |
| Interrupts.RequestedProperties | src/modules/interrupts.rs:17-19 | requesting sets the source's bit, keeps every other bit, and is idempotent |
| Interrupts.Request | src/modules/interrupts.rs:17-19 | IF gains the source's bit; nothing else in the CPU changes |
| Interrupts.ServiceKeepsOtherRequests | src/modules/interrupts.rs:30 | clearing the serviced bit clears that source and keeps every other request |
| Interrupts.Process | src/modules/interrupts.rs:21-24 | PC is pushed, SP drops by two and PC becomes the handler address; nothing else changes |
| Interrupts.Acknowledge | src/modules/interrupts.rs:30-32 | the request is cleared, halted cleared, IME cleared; nothing else changes |
| Interrupts.Serviced | src/modules/interrupts.rs:26-38 | the state a serviced source leaves keeps memory total |
| Interrupts.ProcessThenAcknowledge | src/modules/interrupts.rs:28-34 | `process` followed by the acknowledgement is the `Serviced` state |
| Interrupts.Check | src/modules/interrupts.rs:26-38 | services exactly when the source is both requested and enabled, leaving `Serviced`; otherwise changes nothing |
| Interrupts.SourceAt | src/modules/interrupts.rs:40-52 | the source of each priority rank |
| Interrupts.PendingFromIsFirstEnabled | src/modules/interrupts.rs:40-52 | the scan from rank `k` finds the first enabled source of rank `k` or later, and nothing exactly when none is enabled |
| Interrupts.RankInjective | src/modules/interrupts.rs:40-52 | distinct sources have distinct ranks |
| Interrupts.PendingIsFirstEnabled | src/modules/interrupts.rs:40-52 | the source chosen is enabled, and no higher-priority source is; `None` exactly when nothing is enabled |
| Interrupts.Outcome | src/modules/interrupts.rs:40-52 | the state `handle` leaves keeps memory total |
| Interrupts.HandleFrom | src/modules/interrupts.rs:41-51 | the chain of checks from rank `k` ends in the outcome of servicing the first enabled source from `k` on |
| Interrupts.Handle | src/modules/interrupts.rs:40-52 | the CPU ends in the outcome of servicing the highest-priority requested-and-enabled source, or unchanged |
| Interrupts.ServicedStack | src/modules/interrupts.rs:21-24 | SP drops by two, PC is the handler address, and the interrupted PC's high byte is at SP-1 |
| Interrupts.ServicedReturnAddress | src/modules/interrupts.rs:21-24 | the interrupted PC lies little-endian at the new SP, so a word pop returns it |
| Interrupts.ServicedFlags | src/modules/interrupts.rs:28-32 | the serviced request is cleared, the others kept; not halted; IME off; IE unchanged |
| Interrupts.HandleLeavesOthersPending | src/modules/interrupts.rs:40-52 | other requests survive the service, and any other enabled one has lower priority |
| Timer.SelectedBit | src/modules/timer.rs:35-52 | the clock select picks DIV bit 9, 3, 5 or 7 |
| Timer.TimerUpdateIgnoresNewDiv | src/modules/timer.rs:35-52 | as written, the edge test depends only on the old DIV's selected bit |
| Timer.IncrementEnabled | src/modules/timer.rs:54 | as written, the enable test `(tac & 4) == 1` is never true |
| Timer.IncrementedReloads | src/modules/timer.rs:55-60 | the interrupt is raised exactly when TIMA was 0xFE, and then TIMA takes TMA; otherwise TIMA rises by one |
| Timer.ReadAfterWrite | src/modules/timer.rs:71-97 | TIMA, TMA and TAC read back the written byte; DIV reads 0 after any write; other addresses read 0 and writes there change nothing |
| Timer.WriteKeepsOthers | src/modules/timer.rs:71-97 | a write leaves every other address's read and the tick counter unchanged |
| Timer.Timer.constructor | src/modules/timer.rs:13-23 | every field is zero |
| Timer.Timer.Init | src/modules/timer.rs:26-28 | DIV becomes 0xAC00; nothing else changes |
| Timer.Timer.Tick | src/modules/timer.rs:30-60 | as written, a tick changes no timer field |
| Timer.Timer.Increment | src/modules/timer.rs:55-60 | TIMA steps as `Incremented`, and a reload requests the TIMER interrupt and changes nothing else in the CPU |
| Timer.Timer.Cycles | src/modules/timer.rs:62-69 | `4n` ticks: the tick counter rises by `4n` and nothing else changes |
| Timer.Timer.Write | src/modules/timer.rs:71-87 | the new timer state is `Written` of the old one |
| Timer.InitDivRead | src/modules/timer.rs:26-28 | after `init`, DIV reads 0xAC |
| CpuFetchData.CyclesCountBusReads | src/helpers/cpu_fetch_data.rs:18-184 | each mode runs the timer once per bus read: its operand bytes at PC plus one for a computed address |
| CpuFetchData.HighPage | src/helpers/cpu_fetch_data.rs:42-44 | an address taken from register C is put in page 0xFF, with its low byte kept; other registers are used as they are |
| CpuFetchData.SteppedHl | src/helpers/cpu_fetch_data.rs:68-69 | only H and L change |
| CpuFetchData.SteppedHlMovesByOne | src/helpers/cpu_fetch_data.rs:68-80 | HL read as a word goes up or down by one, wrapping |
| CpuFetchData.SteppedHlInverse | src/helpers/cpu_fetch_data.rs:68-80 | stepping HL up and then down, or down and then up, restores the registers |
| CpuFetchData.FetchRegister | src/helpers/cpu_fetch_data.rs:14-16 | R and RR: the operand is reg1 or reg2; fails exactly when that is NONE |
| CpuFetchData.FetchImmediate8 | src/helpers/cpu_fetch_data.rs:18-133 | RD8, RA8, HLSPR, D8: the operand is the byte at PC, PC steps by one, one machine cycle |
| CpuFetchData.FetchImmediate16 | src/helpers/cpu_fetch_data.rs:25-35 | RD16, D16: the operand is the little-endian word at PC, PC steps by two, two cycles |
| CpuFetchData.FetchRegisterToMemory | src/helpers/cpu_fetch_data.rs:37-47 | MR_R: the operand is reg2 and the destination is reg1's address, in page 0xFF for C |
| CpuFetchData.FetchMemoryToRegister | src/helpers/cpu_fetch_data.rs:49-60 | R_MR: the operand is the byte at reg2's address, in page 0xFF for C |
| CpuFetchData.FetchLoadThenStepHl | src/helpers/cpu_fetch_data.rs:62-82 | R_HLI, R_HLD: the operand is the byte at reg2's address, then HL steps up or down |
| CpuFetchData.FetchStoreThenStepHl | src/helpers/cpu_fetch_data.rs:84-103 | HLI_R, HLD_R: the operand is reg2 and the destination reg1's address, then HL steps |
| CpuFetchData.FetchHighPageDestination | src/helpers/cpu_fetch_data.rs:112-119 | A8_R: the destination is 0xFF00 OR the byte at PC, and PC steps by one |
| CpuFetchData.FetchAbsoluteDestination | src/helpers/cpu_fetch_data.rs:135-148 | A16_R, D16_R: the destination is the word at PC, PC steps by two, the operand is reg2 |
| CpuFetchData.FetchImmediateToMemory | src/helpers/cpu_fetch_data.rs:150-158 | MR_D8: the operand is the byte at PC, and the destination is reg1's address |
| CpuFetchData.FetchMemoryOperand | src/helpers/cpu_fetch_data.rs:160-169 | MR: the destination is reg1's address and the operand is the byte there |
| CpuFetchData.FetchAbsoluteLoad | src/helpers/cpu_fetch_data.rs:171-184 | RA16: the operand is the byte at the word at PC, three cycles |
| CpuFetchData.FetchData | src/helpers/cpu_fetch_data.rs:7-190 | fails exactly when a register operand is NONE. Otherwise: PC steps past the immediate bytes; one timer cycle per bus read; destination flag exactly for the memory-writing modes; only PC (or H and L) changes; each mode's operand and destination |
| CpuProcessor.ProcessorByInstructionType | src/helpers/cpu_processor.rs:45-55 | a routine exists exactly for NONE, NOP, LD, JP, DI and XOR, registered for that kind |
| CpuProcessor.DispatchRoundTrip | src/helpers/cpu_processor.rs:45-55 | the table gives every routine back for its own kind |
| CpuProcessor.FlagUpdate | src/helpers/cpu_processor.rs:30-43 | -1 leaves the flag bit; any other argument sets it exactly for 1; other bits kept |
| CpuProcessor.IntendedFlagsTriState | src/helpers/cpu_processor.rs:30-43 | under the intended reading, each of Z, N, H, C is kept for -1 and otherwise set exactly for 1 |
| CpuProcessor.IntendedFlagsKeepLowNibble | src/helpers/cpu_processor.rs:30-43 | the intended update never touches F's low nibble |
| CpuProcessor.SetFlags | src/helpers/cpu_processor.rs:30-43 | as written, F is left as it came in, whatever the arguments |
| CpuProcessor.SetFlagsLeavesZeroFlagClear | src/helpers/cpu_processor.rs:25-43 | on a zero XOR result the intended update sets Z while the code as written leaves it clear |
| CpuProcessor.Xored | src/helpers/cpu_processor.rs:23-26 | the new A is zero exactly when A equals the operand's low byte, and XOR with it again restores A |
| CpuProcessor.XorWithSelf | src/helpers/cpu_processor.rs:23-26 | XOR of A with itself clears A, only the operand's low byte mattering |
| CpuProcessor.ProcessDiRoutine | src/helpers/cpu_processor.rs:15-17 | IME is cleared |
| CpuProcessor.ProcessXorRoutine | src/helpers/cpu_processor.rs:23-26 | A becomes `Xored`; F and every other register are unchanged |
| CpuProcessor.Execute | src/helpers/cpu_processor.rs:45-55 | fails exactly for a kind without a routine; otherwise the whole new state is `Executed` of the old: DI clears IME and XOR updates A, the other routines change nothing, and PC never moves |

| CpuStep.ExecutedEffects | src/modules/cpu.rs:81-85 | `execute` replaces A by A XOR the operand for XOR, clears IME for DI, and changes no other field |
| CpuStep.FetchedAndExecutedEffects | src/modules/cpu.rs:52-85 | one decoded instruction that does not panic: PC moves by the immediate bytes of its mode, the operand is the one its mode names, XOR changes A, DI clears IME, every other register and field (memory and descriptor included) is unchanged |
| CpuStep.SteppedFailsExactly | src/modules/cpu.rs:87-102 | a running CPU's step fails exactly when the decoded mode is one `fetch_data` rejects or the kind has no routine; a halted CPU is left as it is |
| CpuStep.Step | src/modules/cpu.rs:87-102 | always returns true; the step fails exactly when `Stepped` of the old state panics, and otherwise the whole new CPU state is `Stepped` of the old one (a halted CPU unchanged, else decode, fetch and execute) |
| CpuStep.RunInstruction | src/modules/cpu.rs:88-99 | the whole new state is `FetchedAndExecuted` of `Decoded` of the old state: the opcode at PC and its descriptor recorded, PC one further, then the operand fetch and the routine; fails exactly where those panic |
| CpuStep.FetchAndExecute | src/modules/cpu.rs:81-85 | the whole new state is `FetchedAndExecuted` of the old; fails exactly for a rejected mode or a kind without a routine |
| CpuStep.FetchOperand | src/modules/cpu.rs:52-79 | fails exactly for the modes the early `fetch_data` rejects; otherwise the whole new state is `EarlyFetched` of the old |
| CpuStep.FetchWordOperand | src/modules/cpu.rs:65-76 | for a 16-bit immediate the new state is `EarlyFetched` of the old |
| CpuStep.FetchShortOperand | src/modules/cpu.rs:52-79 | for the other modes: fails exactly when rejected, otherwise the new state is `EarlyFetched` of the old |
| CpuStep.EarlyFetchedFrom | src/modules/cpu.rs:52-79 | a state with exactly the per-mode effects `Cpu.FetchData` promises (IMP, R, RD8, D16) is `EarlyFetched` of the old state |
| CpuStep.EarlyFetchedImp | src/modules/cpu.rs:57 | for the implied mode, clearing only the destination is `EarlyFetched` |
| CpuStep.EarlyFetchedRegister | src/modules/cpu.rs:58 | for a register operand, loading the named register and clearing the destination is `EarlyFetched` |
| CpuStep.EarlyFetchedRd8 | src/modules/cpu.rs:59-64 | for an 8-bit immediate, loading the byte at PC, PC one on, is `EarlyFetched` |
| CpuStep.EarlyFetchedD16 | src/modules/cpu.rs:65-76 | for a 16-bit immediate, loading the little-endian word at PC, PC two on, is `EarlyFetched` |
| Cart.SumPlusOne | src/modules/cart.rs:92-95 | the loop's running sum of byte-plus-one lies between `\|s\|` and `256\|s\|` |
| Cart.SumPlusOneIsSumPlusLength | src/modules/cart.rs:92-95 | adding one per byte adds the length to the plain sum |
| Cart.HeaderChecksum | src/modules/cart.rs:92-97 | the checksum plus the sum of bytes 0x134-0x14C plus 25 is a multiple of 256 |
| Cart.ZeroHeaderChecksum | src/modules/cart.rs:92-97 | a worked example beside `HeaderChecksum`: all-zero checksummed header bytes give checksum 0xE7 |
| Cart.SumOfZeros | src/modules/cart.rs:92-95 | zero bytes sum to zero |
| Cart.LittleEndian | src/modules/cart.rs:69-81 | the 16-bit fields have low byte `lo` and high byte `hi` |
| Cart.ChecksumLoop | src/modules/cart.rs:92-95 | the `i32` accumulator ends at minus the byte-plus-one sum, within -6400..-25, and its low 8 bits are the header checksum |
| Cart.Cart.constructor | src/modules/cart.rs:23-40 | zeroed arrays and fields, a title of sixteen spaces, no ROM bytes |
| Cart.Cart.Loaded | src/modules/cart.rs:50-60 | a new cartridge holding given ROM bytes |
| Cart.Cart.Read | src/modules/cart.rs:42-44 | the ROM byte at the address; fails exactly past the end of the ROM |
| Cart.Cart.Write | src/modules/cart.rs:46-48 | always fails |
| Cart.Cart.ParseHeader | src/modules/cart.rs:62-102 | every header field comes from its fixed offset; the size report panics exactly when the ROM or RAM size byte is 32 or more; otherwise the verdict holds exactly when byte 0x14D equals the checksum |
| Cart.Cart.CopyBlocks | src/modules/cart.rs:63-68 | entry, logo and title are the bytes at their offsets |
| Cart.Cart.ReadFields | src/modules/cart.rs:69-81 | the scalar header fields are the bytes at their offsets |
| Bus.Read | src/modules/bus.rs:12-17 | below 0x8000 the cartridge's read; every other address fails |
| Bus.ReadIsRomByte | src/modules/bus.rs:12-17 | a read succeeds exactly below 0x8000 within the ROM, and gives the ROM byte |
| Bus.Write | src/modules/bus.rs:19-24 | every write fails |
| Ram.WramOffset | src/modules/ram.rs:14-20 | accepted exactly for 0xC000-0xDFFF, giving the offset from 0xC000 |
| Ram.HramOffset | src/modules/ram.rs:30-36 | accepted exactly for 0xFF80-0xFFFF, giving the offset from 0xFF80 |
| Ram.OffsetsInjective | src/modules/ram.rs:14-44 | distinct accepted addresses have distinct offsets |
| Ram.Ram.constructor | src/modules/ram.rs:7-12 | both arrays zero-filled and fresh |
| Ram.Ram.WramRead | src/modules/ram.rs:14-20 | succeeds exactly for 0xC000-0xDFFF, reading the byte at the offset |
| Ram.Ram.WramWrite | src/modules/ram.rs:22-28 | succeeds exactly in range; the written address reads back the value, every other address reads as before |
| Ram.Ram.HramRead | src/modules/ram.rs:30-36 | succeeds exactly for 0xFF80 and above, reading the byte at the offset |
| Ram.Ram.HramWrite | src/modules/ram.rs:38-44 | succeeds exactly in range; the written address reads back the value, every other address reads as before |
| Ppu.OamSlot | src/modules/ppu.rs:14-31 | addresses from 0xFE00 are taken relative to 0xFE00, lower ones as they are |
| Ppu.OamSlotAliases | src/modules/ppu.rs:14-31 | slot `i` is named by exactly `i` and `0xFE00 + i` |
| Ppu.VramOffset | src/modules/ppu.rs:33-39 | accepted exactly for 0x8000-0x9FFF, giving the offset from 0x8000 |
| Ppu.Ppu.constructor | src/modules/ppu.rs:7-12 | OAM and VRAM zero-filled and fresh |
| Ppu.Ppu.OamRead | src/modules/ppu.rs:24-31 | succeeds exactly when the slot is below 0xA0, reading that slot |
| Ppu.Ppu.OamWrite | src/modules/ppu.rs:14-22 | succeeds exactly for slots below 0xA0. The address reads back the value, and every other slot reads as before |
| Ppu.Ppu.VramRead | src/modules/ppu.rs:37-39 | succeeds exactly for 0x8000-0x9FFF, reading the byte at the offset |
| Ppu.Ppu.VramWrite | src/modules/ppu.rs:33-35 | succeeds exactly in range; the address reads back the value, every other address reads as before |
| Dma.Started | src/modules/dma.rs:20-25 | a started transfer is valid and active |
| Dma.SourceAddress | src/modules/dma.rs:37 | the next source address is `value * 0x100 + byte`, below 0xFFA0, so the `u16` arithmetic does not overflow |
| Dma.Ticked | src/modules/dma.rs:27-47 | an idle unit changes nothing and a delay only counts down; the state stays valid |
| Dma.Run | src/modules/dma.rs:27-47 | any number of ticks keeps the state valid and OAM its size |
| Dma.RunSnoc | src/modules/dma.rs:27-47 | `n + 1` ticks are `n` ticks and one more |
| Dma.RunFromStart | src/modules/dma.rs:20-47 | `k` ticks after a start (2 <= k <= 162), `k - 2` bytes are copied in order, the rest of OAM is untouched, and the unit is active exactly while `k < 162` |
| Dma.TransferCompletes | src/modules/dma.rs:20-47 | 162 ticks after a start, OAM holds the whole 0xA0-byte source page and the unit is idle; after fewer it is still active |
| Dma.IdleStaysIdle | src/modules/dma.rs:27-30 | an idle unit stays as it is for any number of ticks |
| Dma.Dma.constructor | src/modules/dma.rs:11-18 | inactive with every counter zero |
| Dma.Dma.Start | src/modules/dma.rs:20-25 | the state becomes `Started(start)` |
| Dma.Dma.Tick | src/modules/dma.rs:27-47 | the new state and OAM are `Ticked` of the old ones |
| Dma.Dma.IsTransferring | src/modules/dma.rs:49-51 | an active transfer still has a byte below 0xA0 to copy |
| Lcd.ModeBits | src/modules/lcd.rs:231-236 | each mode's discriminant is below 4 |
| Lcd.StatBit | src/modules/lcd.rs:238-243 | each STAT source is a single bit among bits 3-6 |
| Lcd.ModeOf | src/modules/lcd.rs:103-111 | the mode's discriminant is STAT bits 0-1 |
| Lcd.WithMode | src/modules/lcd.rs:113-115 | bits 2-7 of STAT are kept |
| Lcd.ModeRoundTrip | src/modules/lcd.rs:103-115 | reading the mode after setting it gives that mode, and setting the current mode changes nothing |
| Lcd.LycRoundTrip | src/modules/lcd.rs:117-123 | for 0 and 1, `lyc()` after `set_lyc` is `value << 2` and the other bits are kept; 2 would reach bit 3 |
| Lcd.PaletteShades | src/modules/lcd.rs:224-227 | slot `i` is the shade in bits `2i` and `2i + 1` |
| Lcd.PaletteShadesRoundTrip | src/modules/lcd.rs:224-227 | the four shades pack back into the palette byte |
| Lcd.ObjectPaletteSlotZero | src/modules/lcd.rs:210-213 | the masked object palettes have shade 0 in slot 0 and the written shades elsewhere |
| Lcd.Lcd.constructor | src/modules/lcd.rs:36-54 | every register zero and every palette entry black |
| Lcd.Lcd.BgwEnabled | src/modules/lcd.rs:55-57 | LCDC bit 0 in place |
| Lcd.Lcd.ObjEnabled | src/modules/lcd.rs:59-61 | LCDC bit 1 in place |
| Lcd.Lcd.ObjHeight | src/modules/lcd.rs:63-69 | 16 exactly when LCDC bit 2 is set, else 8 |
| Lcd.Lcd.BgMapArea | src/modules/lcd.rs:71-77 | 0x9C00 exactly when LCDC bit 3 is set, else 0x9800 |
| Lcd.Lcd.BgwDataArea | src/modules/lcd.rs:79-85 | 0x8000 exactly when LCDC bit 4 is set, else 0x8800 |
| Lcd.Lcd.WindowEnabled | src/modules/lcd.rs:87-89 | LCDC bit 5 in place |
| Lcd.Lcd.WindowMapArea | src/modules/lcd.rs:91-97 | 0x9C00 exactly when LCDC bit 6 is set, else 0x9800 |
| Lcd.Lcd.LcdEnabled | src/modules/lcd.rs:99-101 | LCDC bit 7 in place |
| Lcd.Lcd.GetLcdsMode | src/modules/lcd.rs:103-111 | the mode whose discriminant is STAT bits 0-1 |
| Lcd.Lcd.SetLcdsMode | src/modules/lcd.rs:113-115 | the mode reads back and the other STAT bits are kept |
| Lcd.Lcd.Lyc | src/modules/lcd.rs:117-119 | STAT bit 2 in place |
| Lcd.Lcd.SetLyc | src/modules/lcd.rs:121-123 | for 0 or 1, `lyc()` reads `value << 2` and the other bits are kept |
| Lcd.Lcd.StatInterrupt | src/modules/lcd.rs:125-127 | nonzero exactly when STAT enables that source |
| Lcd.Lcd.IncrementLy | src/modules/lcd.rs:129-141 | LY rises by one and the coincidence bit is set exactly when LY equals LYC. LCDSTAT is requested exactly on a coincidence with its STAT bit set, and nothing else changes |
| Lcd.Lcd.Init | src/modules/lcd.rs:143-162 | the register values of `init`, and every palette entry `i` is tile colour `i` |
| Lcd.Lcd.LoadTileColors | src/modules/lcd.rs:157-161 | entry `i` of the three palettes becomes tile colour `i` |
| Lcd.Lcd.Store | src/modules/lcd.rs:187-201 | the addressed register reads back the value, and every other register reads as before |
| Lcd.Lcd.UpdatePalette | src/modules/lcd.rs:217-228 | the background palette becomes the shades of the palette byte |
| Lcd.Lcd.Write | src/modules/lcd.rs:184-215 | the register reads back and the others are kept. 0xFF46 starts a DMA from that page; 0xFF47 updates the background palette from the value, 0xFF48-49 from the value with its low two bits masked |
| Io.Io.constructor | src/modules/io.rs:8-12 | both serial bytes zero |
| Io.Io.FixedReads | src/modules/io.rs:14-26 | 0xFF44 always reads 0x90 and undecoded addresses read 0 |
| Io.Io.Write | src/modules/io.rs:28-42 | each decoded register reads back the written byte (DIV reads 0), and every other address reads as before |
| Dbg.AcknowledgedIsIdle | src/modules/dbg.rs:26 | after clearing 0xFF02 no transfer is pending and the serial byte is kept |
| Dbg.Dbg.constructor | src/modules/dbg.rs:8-17 | 1024 spaces and an empty message |
| Dbg.Dbg.Update | src/modules/dbg.rs:19-28 | on a pending transfer the serial byte is appended, with 0xFF02 cleared, and a second update changes nothing. A full buffer fails; otherwise nothing changes |

## Left out

- Console output is left out everywhere: the trace line of `step`, the DMA end message, the OAM write trace, the IO messages, the invalid-instruction message and the cartridge header report. Printing itself changes no state. One part of the header report can abort: `32 << rom_size` and `8 << ram_size` are `i32` shifts, which panic in a debug build for a size byte of 32 or more; `Cart.Cart.ParseHeader` models that panic. The names printed by `constants::get_rom_type_name` and `constants::get_lic_name` come from a file that is not part of this model, so any panic inside them is not modelled.
- `Cart::load` reads a file. The file system is not modelled: `Cart.Cart.Loaded` takes the file's bytes, and the header is then parsed by `ParseHeader`.
- `DBG::print` only prints and is left out.
- The UI (`ui.rs`), the emulator loop (`emu.rs`) and `main.rs` are not part of this model. `Emu::cycles`, which the early `fetch_data` calls, does nothing there and is not modelled.
- The SDL colours of the LCD palettes are modelled as shade indices 0-3 (`TILE_COLORS[i]` is shade `i`).
- The CPU's bus is modelled as an abstract 64 KiB memory (`Memory.Bytes`), used by the stack, the interrupts, the operand fetch, the opcode fetch and the debug capture. The bus file itself maps only the cartridge: `Bus::read` panics for every address from 0x8000 up, and `Bus::write` panics on every write. Through that bus a stack push would always panic, and so would the debug capture's reads of 0xFF01 and 0xFF02 and any opcode or operand fetch at 0x8000 or above. The model instead keeps a memory that the CPU-side operations can read and write everywhere. `Bus.Read` and `Bus.Write` model the bus file on its own.
- The source has several versions of the CPU record, and they do not agree on its fields. The timer, DMA unit, PPU, LCD, IO and debug buffer appear as fields in some of them and are absent from the CPU record in `cpu.rs`. Here they are separate objects, passed beside the CPU. The interrupt request and enable registers are fields of the CPU.
- PC and SP are passed to the CPU-side methods as parameters equal to the register values, so that their contracts can name the addresses touched.
- The DMA unit reads from a given 0x10000-byte snapshot of the bus, not through `Bus::read` on the CPU.
- `set_register`, used by the operand fetch to write HL back, is not part of the source shown. It is modelled as storing the high byte into H and the low byte into L.
- The catch-all panic arm of `fetch_data` cannot be reached: the model's addressing modes are exactly the ones that function handles.
- Timer.Timer.Cycles: the source's `u64` tick counter is an unbounded `nat`, and `Cycles` requires that it stays within `u64`.
- Timer.Timer.Tick: modelled as written. The `wrapping_add` result is discarded, so DIV never moves. The enable test `(tac & (1 << 2)) == 1` is never true, so the increment branch is unreachable. `Increment` models that branch's body on its own.
- CpuProcessor.SetFlags: modelled as written. Each `set_bit` result is discarded, so F never changes. `IntendedFlags` states the reading with the results stored back.
- Lcd.Lcd.Read: a function without a contract of its own. Its meaning is fixed by the read-back clauses of `Store` and `Write`.
- Lcd.Lcd.Write: offsets outside 0xFF40-0xFF4B are `unreachable!()` in the source and are excluded by a precondition.
- Lcd.Lcd.UpdatePalette: the object palettes need no separate case. The source first copies the sprite palette into the background palette and then overwrites all four entries, so the copy has no effect.
- Io.Io.Read: a function without a contract of its own. Its meaning is fixed by `FixedReads` and by the read-back clauses of `Write`.
- Cart.Cart.ParseHeader: the header slices panic on a ROM shorter than 0x150 bytes. This is a precondition rather than an error result. The panic of the size report for a size byte of 32 or more is modelled (`ok` false); the release-build behaviour, where the shift amount is masked, is not.
- Lcd.Lcd.IncrementLy: requires LY below 0xFF, because the source's `+=` would overflow there.
- Cpu.Cpu.FetchInstruction: requires PC below 0xFFFF, and the fetch methods require the operand to fit below the top of memory, because the source's non-wrapping `pc += n` would overflow there.
- CpuStep.Step: for a running CPU it requires `Steppable`: PC below 0xFFFF, and the immediate operand of an RD8 or D16 opcode below the top of memory, for the same overflow reason.
