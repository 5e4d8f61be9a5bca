# Verified models of JSMooCh components

Dafny models of the parts of this repository whose correctness is hardest to see, with proofs of what
they promise. `dafny verify dfyconfig.toml` checks all of them.

**The HuC6280 microcode.** `huc6280_gen.py` is a small compiler: each addressing-mode function drives a
generator object that emits a switch of one-cycle cases, delta-encoding the RD and WR pins and closing
every instruction with a common fetch. The model has the generator as a class (`HucSwitchgen`), every
form function (`HucForms`) and the table (`HucTable`); the cycles each text amounts to (`HucText`); the
statements, the cycle driver and the processor state (`HucMachine`, `HucMicrocode`, `HucExec`); and the
instruction set without cases or pins (`HucIsa`). The main result, `HucRefine.RunsRefine`, is that over
any run of the generated table, with interrupts, the driver does what the instruction set says in the
cycles it says; `HucLines` extends it to request lines that change in any cycle. On the way: pin encoding is sound, every entry completes cleanly (`HucCertify`,
`HucRun`, `HucBus`), T mode simulates ordinary mode (`HucTMode`), block moves are byte copies and, where
they are, memmove (`HucBlockMove`, `HucCopies`), calls nest (`HucCalls`), interrupts are transparent
(`HucInterrupts`), over whole runs too (`HucServices`), RESET reaches a boundary (`HucReset`), arithmetic chains are arithmetic on whole
numbers (`HucArithmetic`), also as programs in memory with interrupts served in between
(`HucPrograms`).

**The frame hash** (`Crc32`), **the BIOS manifest** in save states (`BiosManifest`), **the write-back
store** behind battery RAM (`PersistentStore`), **the FPS meter** (`FpsMeter`), **audio rings, fades and
locks** (`AudioRing`, `AudioStreams`, `AudioHost`) and **CHD image assembly** (`ChdImage`) are modelled
in the form the code has: classes with the same fields, the same loops over arrays, each method proved
against a specification whose own properties are proved beside it.

Memory is plain RAM, 32-bit registers are integers whose masks are written out, `Read` of an address
nothing was written to is 0. SHA-256, the resampler and `chd_read` are parameters; so is the time.
Floating point is modelled by reals.

## Findings

Where the code does not do what one would expect, the exact condition is proved:

- BSR adds its offset to PC without a 16-bit mask (`huc6280_gen.py:825`). It reaches a valid boundary if
  and only if the sum is between 0 and 65535 (`HucCalls.BranchFaults`); `HucCalls.BranchStrays` is a
  state where it indexes MPR out of range.
- JSR pushes before it reads the second byte of its operand. It goes where its operand says if and only
  if the pushes spare that byte (`HucCalls.CallGoes`); `HucCalls.CallStrays` is a state where they do not.
- A block move pushes Y, A and X before it reads its operands, and restores them from the stack. They
  come back if and only if the bytes it brings to those three places are the ones it pushed
  (`HucCopies.BlockRestores`; `SurvivesAt` names the bytes); `HucCopies.BlockLosesY` is a move that
  changes Y.
- TII and TDD are memmove if and only if the target is not 1 to n - 1 bytes ahead (`HucCopies.IsMemmove`).
- `core::reset` leaves RD, WR and do_IRQ as they are. RESET is dispatched if and only if RD is low and no
  interrupt is pending (`HucReset.ResetDispatched`), and its microcode keeps its pins sound if and only if
  WR is low (`HucReset.ResetSoundIff`). Power-on meets both; a reset between a read request and its
  byte does not.
- Interrupts are polled in the last cycle of an instruction, by SEI in its first (`HucLines.TextDeaf`);
  the comment at `huc6280.cpp:43` says the second to last. The model follows the code.
- Two open stores with one file overwrite each other. Every store is saved by a pass if and only if no
  two open stores with memory share a file (`PersistentStore.SavesIff`, `SharedFileLoses`). Paths are
  clipped to 499 characters: two stores are safe if and only if their paths differ before that
  (`PersistentStore.PathsClash`).
- A store set up on a file shorter than its memory is not in its file until it is written:
  `FinishSetup` says exactly when it is. A store that is not persistent ends with the size of its last
  persistent setup, 0 at first.
- A fade of K plays K - 1 callbacks, at K/K down to 2/K; the K-th locks the stream
  (`AudioStreams.FadeRuns`). A count of 2^31 or more, or a locked stream, starts no fade
  (`AudioStreams.FadeBegins`).
- The audio callback overruns its accumulator if and only if it is asked for more than 4096 frames
  (`AudioHost.AudioWrap.DataCallback`); a ramp overwrites what it should precede if and only if the ring
  has no room for it (`AudioRing.Ring.PrependRamp`).
- A manifest of 2^31 or more entries reads back as none, because its count does not fit an int
  (`BiosManifest.RoundTrip`). A shorter one, without carriage returns in its names, comes back if and
  only if no name has a line feed or a NUL and every name line fits the buffer (`RoundTripIff`); otherwise the state warns under the files it was
  saved with (`WarnsAtHome`). A carriage return at the end of a name is lost (`ReturnLost`).
- CHD track layouts tile the image if and only if their sizes sum to less than 2^32 sectors
  (`ChdImage.TilesIff`; `TracksOverlap` is a layout that does not). Sector offsets are 32-bit byte counts:
  the image is right for every content if and only if at most 1,826,092 units are copied and no hunk
  starts again inside the image past 2^32 units (`ImageIff`, for 2^32 units or fewer one comparison,
  `SafeUsually`); `SectorLost` and `UnsafeLoses` are images that are wrong.

## Model

| member | source | states |
|---|---|---|
| `HucRefine.InstrRefines` | jocasta-lib/code_gen/huc6280/huc6280_gen.py:56-214 | Compiler correctness, instruction by instruction: the emitted microcode of every instruction, stepped by the driver from any state an instruction may start in, takes exactly the cycles the instruction set gives and ends with its registers, flags, memory and address, the next opcode on order |
| `HucRefine.EntryRefines` | jocasta-lib/code_gen/huc6280/huc6280_gen.py:1187-1763 | The entry generated for an opcode and T, all 260 of them twice, does what the opcode matrix and the instruction set say of that opcode |
| `HucRefine.ResultBlind` | jocasta-lib/code_gen/huc6280/huc6280_gen.py:239-946 | What an instruction does to memory, cycles and visible registers depends on no scratch register and not on D |
| `HucRefine.StepRefines` | jocasta-lib/src/component/cpu/huc6280/huc6280.cpp:147-201 | From any boundary and for any request lines, what the driver dispatches from the generated table is one step of the instruction set, interrupts included, in the same cycles |
| `HucRefine.RunsRefine` | jocasta-lib/src/component/cpu/huc6280/huc6280.cpp:147-201 | Over whole runs of the generated table, whatever the devices request in between, the visible machine goes through the states of the instruction set and takes the same number of cycles |
| `HucRun.EntryCompletes` | jocasta-lib/code_gen/huc6280/huc6280_gen.py:67-126 | Every entry, T 0 or 1, started at a boundary, never misses a case, never drives RD and WR together, keeps the address below 0x200000, ends at a boundary within its number of cases (17 + 6 * 65536 cycles for block moves), and may leave T set only for SET, PLP, RTI; BSR under the condition of BranchFaults |
| `HucRun.RunStep` | jocasta-lib/src/component/cpu/huc6280/huc6280.cpp:147-201 | One instruction or interrupt entry from any boundary: the driver finds an entry, it completes cleanly and ends at a boundary |
| `HucRun.RunsStaySane` | jocasta-lib/code_gen/huc6280/huc6280_gen.py:692-700 | Safety over whole runs: no bank index out of range, every instruction ends with Addr mapped from PC - 1, and T set at a boundary means the last instruction was SET, PLP or RTI |
| `HucRun.RunsExist` | jocasta-lib/src/component/cpu/huc6280/huc6280.cpp:147-201 | Runs do not get stuck: for any sequence of request lines there is a run of that many instructions, or one up to a BSR that would leave the 16-bit range |
| `HucRun.TableTMode` | jocasta-lib/code_gen/huc6280/huc6280_gen.py:1193-1237 | Wherever a run stands with T set before ORA, AND, EOR or ADC in any of nine forms, the T = 1 entry the driver takes simulates the T = 0 entry of the same opcode in three cycles more |
| `HucRun.BlockClean` | jocasta-lib/code_gen/huc6280/huc6280_gen.py:532-568 | A block move has a case, sound pins and an address below 0x200000 in every one of its 17 + 6n cycles |
| `HucLines.TextDeaf` | jocasta-lib/code_gen/huc6280/huc6280_gen.py:110-126 | Every instruction looks at the request lines in its last cycle only, or in an early exit; SEI in its first only |
| `HucLines.InstrFinds` | jocasta-lib/src/component/cpu/huc6280/huc6280.cpp:45-49 | Under request lines that change before every cycle an instruction takes the cycles and reaches the state it does under the one set it finds |
| `HucLines.LinesOnce` | jocasta-lib/src/component/cpu/huc6280/huc6280.cpp:147-201 | Devices may change the request lines in any cycle: every run under such lines is a run in which each instruction finds one set of lines |
| `HucLines.LinesRefine` | jocasta-lib/src/component/cpu/huc6280/huc6280.cpp:147-201 | So the instruction set is refined under lines that change in any cycle |
| `HucMicrocode.PinEncodingStep` | jocasta-lib/code_gen/huc6280/huc6280_gen.py:56-79 | Leaving out unchanged pin writes is sound in one cycle: the emitted case and the fully driven cycle reach the same state and the tracked pins stay right |
| `HucMicrocode.PinEncodingSound` | jocasta-lib/code_gen/huc6280/huc6280_gen.py:56-88 | Leaving out unchanged pin writes is sound over any number of cycles, for every program whose early exits start with WR low and whose jumps land where the same pins are expected, the block-move back edge and the T-mode skip among them |
| `HucCertify.DoSound` | jocasta-lib/code_gen/huc6280/huc6280_gen.py:160-214 | Every emitted statement that passes the size check keeps registers in their ranges, the address on the bus and the interrupt latches consistent |
| `HucCertify.BanksSound` | jocasta-lib/code_gen/huc6280/huc6280_gen.py:868-901 | TAM and TMA leave every bank aligned and MPL and A bytes |
| `HucCertify.CaseSound` | jocasta-lib/src/component/cpu/huc6280/huc6280.cpp:147-201 | One cycle of certified microcode leads to a later case whose sizes hold, past an idle one, or to a boundary |
| `HucCertify.CertifiedFrom` | jocasta-lib/code_gen/huc6280/huc6280_gen.py:67-126 | From any case of certified microcode the instruction ends at a boundary after at most the cases left, cleanly |
| `HucCertify.CertifiedCompletes` | jocasta-lib/code_gen/huc6280/huc6280_gen.py:67-126 | Certified microcode, run from any boundary, never misses a case, never raises RD and WR together, keeps the address on the bus, ends at a boundary within its number of cases, T clear unless the form keeps it |
| `HucBus.BlockOnBus` | jocasta-lib/src/component/cpu/huc6280/huc6280.cpp:336-356 | The address pins stay below 0x200000 through any number of cycles of a block move |
| `HucSwitchgen.SwitchGen.constructor` | jocasta-lib/code_gen/huc6280/huc6280_gen.py:12-54 | A fresh generator has one open case, RD taken as high and WR as low, nothing requested |
| `HucSwitchgen.SwitchGen.Addl` | jocasta-lib/code_gen/huc6280/huc6280_gen.py:91-92 | A statement is appended to the open case; pins, flags and earlier cases stay |
| `HucSwitchgen.SwitchGen.BrEndIf` | jocasta-lib/code_gen/huc6280/huc6280_gen.py:81-88 | An early exit is appended; sound because WR is low before the case |
| `HucSwitchgen.SwitchGen.SkipNextIf` | jocasta-lib/code_gen/huc6280/huc6280_gen.py:1143-1144 | The open case gets a skip of the next, which the next case must let stand (both idle) |
| `HucSwitchgen.SwitchGen.LoopBackSix` | jocasta-lib/code_gen/huc6280/huc6280_gen.py:561 | The open case gets the jump back over six cases |
| `HucSwitchgen.SwitchGen.RW` | jocasta-lib/code_gen/huc6280/huc6280_gen.py:128-130 | The pins requested in the open case become those given |
| `HucSwitchgen.SwitchGen.SetDownRw` | jocasta-lib/code_gen/huc6280/huc6280_gen.py:56-65 | Exactly the pins that changed are written, and the old levels become the new |
| `HucSwitchgen.SwitchGen.AddCycle` | jocasta-lib/code_gen/huc6280/huc6280_gen.py:67-79 | The open case is closed with the pins last requested and a new one opened, requesting both low; the text is the encoding of the requests |
| `HucSwitchgen.SwitchGen.Cleanup` | jocasta-lib/code_gen/huc6280/huc6280_gen.py:100-102 | As AddCycle, and the epilogue will not open a case of its own |
| `HucSwitchgen.SwitchGen.AddrToPC` | jocasta-lib/code_gen/huc6280/huc6280_gen.py:132-133 | The address of the byte at PC is requested |
| `HucSwitchgen.SwitchGen.IncPC` | jocasta-lib/code_gen/huc6280/huc6280_gen.py:169-170 | PC + 1 modulo 65536 is requested |
| `HucSwitchgen.SwitchGen.DummyRead` | jocasta-lib/code_gen/huc6280/huc6280_gen.py:94-98 | A read at PC whose byte is not taken, closed unless last |
| `HucSwitchgen.SwitchGen.LoadAt` | jocasta-lib/code_gen/huc6280/huc6280_gen.py:160-167 | A read at an address, the byte taken in the next case unless last (load16 and load8) |
| `HucSwitchgen.SwitchGen.Operand` | jocasta-lib/code_gen/huc6280/huc6280_gen.py:172-174 | The byte at PC is read into a register and PC moves on |
| `HucSwitchgen.SwitchGen.Pull` | jocasta-lib/code_gen/huc6280/huc6280_gen.py:176-184 | S + 1, a read of the stack byte, taken in the next case, the closing one if last |
| `HucSwitchgen.SwitchGen.Push` | jocasta-lib/code_gen/huc6280/huc6280_gen.py:186-192 | The stack address, the byte, S - 1 and a write |
| `HucSwitchgen.SwitchGen.StoreAt` | jocasta-lib/code_gen/huc6280/huc6280_gen.py:202-214 | The address, the byte and a write (store8 and store16) |
| `HucSwitchgen.SwitchGen.AddrToSThenDec` | jocasta-lib/code_gen/huc6280/huc6280_gen.py:139-141 | The unmapped stack address and S - 1 |
| `HucSwitchgen.SwitchGen.RegularEnd` | jocasta-lib/code_gen/huc6280/huc6280_gen.py:110-126 | The fetch epilogue: a case of its own unless one is open for it, PC mapped and moved on, RD high, interrupts polled and T cleared unless told otherwise, TCU cleared |
| `HucSwitchgen.SwitchGen.Finished` | jocasta-lib/code_gen/huc6280/huc6280_gen.py:146-152 | The text of the whole switch is the encoding of everything requested plus the epilogue, and is certified when a certificate was kept |
| `HucForms.IndirectYReadMemory` | jocasta-lib/code_gen/huc6280/huc6280_gen.py:239-258 | The text returned is the pin encoding of the cycles of T mode, (zp),Y, the ones InstrRefines gives a meaning to, and is certified |
| `HucForms.Break` | jocasta-lib/code_gen/huc6280/huc6280_gen.py:261-271 | The text returned is the pin encoding of the cycles of BRK, the ones InstrRefines gives a meaning to, and is certified |
| `HucForms.StoreImplied` | jocasta-lib/code_gen/huc6280/huc6280_gen.py:274-282 | The text returned is the pin encoding of the cycles of ST0, ST1, ST2, the ones InstrRefines gives a meaning to, and is certified |
| `HucForms.Clear` | jocasta-lib/code_gen/huc6280/huc6280_gen.py:285-292 | The text returned is the pin encoding of the cycles of CLA, CLX, CLY and the flag clears; CLI does not poll at its end, the ones InstrRefines gives a meaning to, and is certified |
| `HucForms.SetMemoryBit` | jocasta-lib/code_gen/huc6280/huc6280_gen.py:295-304 | The text returned is the pin encoding of the cycles of SMB, the ones InstrRefines gives a meaning to, and is certified |
| `HucForms.Transfer` | jocasta-lib/code_gen/huc6280/huc6280_gen.py:307-314 | The text returned is the pin encoding of the cycles of the register transfers, the ones InstrRefines gives a meaning to, and is certified |
| `HucForms.TransferXS` | jocasta-lib/code_gen/huc6280/huc6280_gen.py:317-322 | The text returned is the pin encoding of the cycles of TXS, the ones InstrRefines gives a meaning to, and is certified |
| `HucForms.ResetMemoryBit` | jocasta-lib/code_gen/huc6280/huc6280_gen.py:325-333 | The text returned is the pin encoding of the cycles of RMB, the ones InstrRefines gives a meaning to, and is certified |
| `HucForms.JumpIndirect` | jocasta-lib/code_gen/huc6280/huc6280_gen.py:336-349 | The text returned is the pin encoding of the cycles of JMP (abs) and (abs,X), the ones InstrRefines gives a meaning to, and is certified |
| `HucForms.Pull` | jocasta-lib/code_gen/huc6280/huc6280_gen.py:352-358 | The text returned is the pin encoding of the cycles of PLA, PLX, PLY, the ones InstrRefines gives a meaning to, and is certified |
| `HucForms.Push` | jocasta-lib/code_gen/huc6280/huc6280_gen.py:361-364 | The text returned is the pin encoding of the cycles of PHA, PHX, PHY, PHP, the ones InstrRefines gives a meaning to, and is certified |
| `HucForms.Immediate` | jocasta-lib/code_gen/huc6280/huc6280_gen.py:367-371 | The text returned is the pin encoding of the cycles of an operation on an immediate byte, the ones InstrRefines gives a meaning to, and is certified |
| `HucForms.AbsoluteWrite` | jocasta-lib/code_gen/huc6280/huc6280_gen.py:374-383 | The text returned is the pin encoding of the cycles of a store to abs, abs,X or abs,Y, the ones InstrRefines gives a meaning to, and is certified |
| `HucForms.AbsoluteModify` | jocasta-lib/code_gen/huc6280/huc6280_gen.py:386-398 | The text returned is the pin encoding of the cycles of read-modify-write of abs and abs,X, the ones InstrRefines gives a meaning to, and is certified |
| `HucForms.Implied` | jocasta-lib/code_gen/huc6280/huc6280_gen.py:401-406 | The text returned is the pin encoding of the cycles of an operation on a register, the ones InstrRefines gives a meaning to, and is certified |
| `HucForms.CallAbsolute` | jocasta-lib/code_gen/huc6280/huc6280_gen.py:409-417 | The text returned is the pin encoding of the cycles of JSR, the ones InstrRefines gives a meaning to, and is certified |
| `HucForms.Reset` | jocasta-lib/code_gen/huc6280/huc6280_gen.py:420-455 | The text returned is the pin encoding of the cycles of RESET, the ones InstrRefines gives a meaning to |
| `HucForms.Interrupt` | jocasta-lib/code_gen/huc6280/huc6280_gen.py:458-475 | The text returned is the pin encoding of the cycles of interrupt entry through a vector, the ones InstrRefines gives a meaning to, and is certified |
| `HucForms.BranchIfBit` | jocasta-lib/code_gen/huc6280/huc6280_gen.py:478-503 | The text returned is the pin encoding of the cycles of BBR and BBS, the ones InstrRefines gives a meaning to, and is certified |
| `HucForms.AlMove` | jocasta-lib/code_gen/huc6280/huc6280_gen.py:506-529 | What is requested for the source and target steps of the five block moves |
| `HucForms.BlockMove` | jocasta-lib/code_gen/huc6280/huc6280_gen.py:532-568 | The text returned is the pin encoding of the cycles of the five block moves, loop included, the ones InstrRefines gives a meaning to |
| `HucForms.IndirectYWrite` | jocasta-lib/code_gen/huc6280/huc6280_gen.py:571-582 | The text returned is the pin encoding of the cycles of a store to (zp),Y, the ones InstrRefines gives a meaning to, and is certified |
| `HucForms.IndirectWrite` | jocasta-lib/code_gen/huc6280/huc6280_gen.py:585-596 | The text returned is the pin encoding of the cycles of a store to (zp) and (zp,X), the ones InstrRefines gives a meaning to, and is certified |
| `HucForms.TestAbsolute` | jocasta-lib/code_gen/huc6280/huc6280_gen.py:599-614 | The text returned is the pin encoding of the cycles of TST abs and abs,X, the ones InstrRefines gives a meaning to, and is certified |
| `HucForms.TestZeroPage` | jocasta-lib/code_gen/huc6280/huc6280_gen.py:617-629 | The text returned is the pin encoding of the cycles of TST zp and zp,X, the ones InstrRefines gives a meaning to, and is certified |
| `HucForms.Branch` | jocasta-lib/code_gen/huc6280/huc6280_gen.py:632-644 | The text returned is the pin encoding of the cycles of BRA and the branches on a flag, the ones InstrRefines gives a meaning to, and is certified |
| `HucForms.IndirectYRead` | jocasta-lib/code_gen/huc6280/huc6280_gen.py:647-659 | The text returned is the pin encoding of the cycles of an operation on (zp),Y, the ones InstrRefines gives a meaning to, and is certified |
| `HucForms.AbsoluteRead` | jocasta-lib/code_gen/huc6280/huc6280_gen.py:662-673 | The text returned is the pin encoding of the cycles of an operation on abs, abs,X, abs,Y, the ones InstrRefines gives a meaning to, and is certified |
| `HucForms.Nop` | jocasta-lib/code_gen/huc6280/huc6280_gen.py:676-678 | The text returned is the pin encoding of the cycles of NOP, the ones InstrRefines gives a meaning to, and is certified |
| `HucForms.ZeroPageRead` | jocasta-lib/code_gen/huc6280/huc6280_gen.py:681-689 | The text returned is the pin encoding of the cycles of an operation on zp, zp,X, zp,Y, the ones InstrRefines gives a meaning to, and is certified |
| `HucForms.PullP` | jocasta-lib/code_gen/huc6280/huc6280_gen.py:692-700 | The text returned is the pin encoding of the cycles of PLP: no poll, T as pulled, the ones InstrRefines gives a meaning to, and is certified |
| `HucForms.ZeroPageModify` | jocasta-lib/code_gen/huc6280/huc6280_gen.py:703-713 | The text returned is the pin encoding of the cycles of read-modify-write of zp and zp,X, the ones InstrRefines gives a meaning to, and is certified |
| `HucForms.Swap` | jocasta-lib/code_gen/huc6280/huc6280_gen.py:716-723 | The text returned is the pin encoding of the cycles of SAX, SAY, SXY, the ones InstrRefines gives a meaning to, and is certified |
| `HucForms.IndirectRead` | jocasta-lib/code_gen/huc6280/huc6280_gen.py:726-741 | The text returned is the pin encoding of the cycles of an operation on (zp) and (zp,X), the ones InstrRefines gives a meaning to, and is certified |
| `HucForms.IndirectReadMemory` | jocasta-lib/code_gen/huc6280/huc6280_gen.py:744-768 | The text returned is the pin encoding of the cycles of T mode, (zp) and (zp,X), the ones InstrRefines gives a meaning to, and is certified |
| `HucForms.AbsoluteReadMemory` | jocasta-lib/code_gen/huc6280/huc6280_gen.py:771-790 | The text returned is the pin encoding of the cycles of T mode, abs forms, the ones InstrRefines gives a meaning to, and is certified |
| `HucForms.ImmediateMemory` | jocasta-lib/code_gen/huc6280/huc6280_gen.py:793-804 | The text returned is the pin encoding of the cycles of T mode, immediate, the ones InstrRefines gives a meaning to, and is certified |
| `HucForms.SetTo1` | jocasta-lib/code_gen/huc6280/huc6280_gen.py:807-816 | The text returned is the pin encoding of the cycles of SEC, SED, SET, SEI; SEI polls before, SET keeps T, the ones InstrRefines gives a meaning to, and is certified |
| `HucForms.BranchSubroutine` | jocasta-lib/code_gen/huc6280/huc6280_gen.py:819-830 | The text returned is the pin encoding of the cycles of BSR, PC unmasked, the ones InstrRefines gives a meaning to, and is certified |
| `HucForms.ChangeSpeed` | jocasta-lib/code_gen/huc6280/huc6280_gen.py:833-844 | The text returned is the pin encoding of the cycles of CSL and CSH, the ones InstrRefines gives a meaning to, and is certified |
| `HucForms.ReturnFromSubroutine` | jocasta-lib/code_gen/huc6280/huc6280_gen.py:847-855 | The text returned is the pin encoding of the cycles of RTS, the ones InstrRefines gives a meaning to, and is certified |
| `HucForms.ZeroPageWrite` | jocasta-lib/code_gen/huc6280/huc6280_gen.py:858-865 | The text returned is the pin encoding of the cycles of a store to zp, zp,X, zp,Y, the ones InstrRefines gives a meaning to, and is certified |
| `HucForms.TransferAccumulatorToMPR` | jocasta-lib/code_gen/huc6280/huc6280_gen.py:868-885 | The text returned is the pin encoding of the cycles of TAM, the ones InstrRefines gives a meaning to, and is certified |
| `HucForms.TransferMPRToAccumulator` | jocasta-lib/code_gen/huc6280/huc6280_gen.py:888-901 | The text returned is the pin encoding of the cycles of TMA, the ones InstrRefines gives a meaning to, and is certified |
| `HucForms.ReturnFromInterrupt` | jocasta-lib/code_gen/huc6280/huc6280_gen.py:904-914 | The text returned is the pin encoding of the cycles of RTI: T as pulled, the ones InstrRefines gives a meaning to, and is certified |
| `HucForms.JumpAbsolute` | jocasta-lib/code_gen/huc6280/huc6280_gen.py:917-924 | The text returned is the pin encoding of the cycles of JMP abs, the ones InstrRefines gives a meaning to, and is certified |
| `HucForms.ZeroPageReadMemory` | jocasta-lib/code_gen/huc6280/huc6280_gen.py:927-946 | The text returned is the pin encoding of the cycles of T mode, zp and zp,X, the ones InstrRefines gives a meaning to, and is certified |
| `HucForms.Al` | jocasta-lib/code_gen/huc6280/huc6280_gen.py:949-1161 | The al_* functions request the operation, and for ADC and SBC the early exit or, in T mode, the skip |
| `HucTable.WriteInstruction` | jocasta-lib/code_gen/huc6280/huc6280_gen.py:1187-1763 | The text for an opcode and T is that of the instruction the opcode matrix gives (three bits of operation, three of form, two of group), certified but for block moves and RESET |
| `HucTable.WriteTable` | jocasta-lib/code_gen/huc6280/huc6280_gen.py:1766-1795 | Both halves of the table, every entry as WriteInstruction says |
| `HucExec.Completed` | jocasta-lib/src/component/cpu/huc6280/huc6280.cpp:336-375 | A run of fully driven cycles that ends an instruction is also a run of the emitted text, ending it in the same cycle |
| `HucStraight.StraightExec` | jocasta-lib/code_gen/huc6280/huc6280_gen.py:67-126 | Straight-line microcode, as emitted, takes one cycle a case and leaves the fold of its statements |
| `HucStraight.SplitExec` | jocasta-lib/code_gen/huc6280/huc6280_gen.py:81-88 | Microcode with one early exit takes the cycles up to it when its condition holds and all of them when not |
| `HucOperands.AddressPhase` | jocasta-lib/code_gen/huc6280/huc6280_gen.py:647-741 | The nine operand forms: after their address cases the byte asked for is the one the form names, pointers wrapping within zero page, indices within 8 or 16 bits |
| `HucTMode.ReadExec` | jocasta-lib/code_gen/huc6280/huc6280_gen.py:647-741 | ORA, AND, EOR, ADC outside T mode: exact cycles, the operand applied to A, memory untouched |
| `HucTMode.MemExec` | jocasta-lib/code_gen/huc6280/huc6280_gen.py:239-258 | The same in T mode: exact cycles, the result in the zero-page byte X points at, A as it was |
| `HucTMode.TModeSimulates` | jocasta-lib/code_gen/huc6280/huc6280_gen.py:744-804 | T mode simulates ordinary mode, in every operand form, binary and decimal: started with A = [X], the T = 0 code leaves in A and the flags what the T = 1 code leaves in [X] and the flags, in three cycles fewer; nothing else is written |
| `HucTMode.AluSwap` | jocasta-lib/code_gen/huc6280/huc6280_gen.py:1129-1161 | The four operations do not mind which operand is in A, and see only C and D of the flags |
| `HucBlockMove.LoopOnce` | jocasta-lib/code_gen/huc6280/huc6280_gen.py:551-561 | Six cycles of the loop copy one byte, count down, and go back exactly while any byte is left |
| `HucBlockMove.LoopAll` | jocasta-lib/code_gen/huc6280/huc6280_gen.py:551-561 | The loop copies all bytes, six cycles each, and falls out; 0 counts as 65536 |
| `HucBlockMove.BlockExec` | jocasta-lib/code_gen/huc6280/huc6280_gen.py:532-568 | A block move takes exactly 17 + 6n cycles and leaves the memory of a byte-at-a-time copy; A, X, Y come back from their stack bytes, S as it was |
| `HucCopies.CopyAt` | jocasta-lib/code_gen/huc6280/huc6280_gen.py:506-529 | Byte i of a copy goes from and to the places its kind names, alternating for TAI and TIA |
| `HucCopies.CopyTraces` | jocasta-lib/code_gen/huc6280/huc6280_gen.py:551-561 | Under any mapping, banks used twice included, and any overlap, each byte after a copy is the byte the last write to its address carried, traced back to memory before the copy |
| `HucCopies.BlockRestores` | jocasta-lib/code_gen/huc6280/huc6280_gen.py:562-566 | A, X and Y end as the bytes the move brings to their stack slots; they come back if and only if those are the bytes pushed, and then nothing outside memory but PC, BM and T has changed; so always if no byte lands on a slot |
| `HucCopies.SurvivesAt` | jocasta-lib/code_gen/huc6280/huc6280_gen.py:562-566 | With all banks different, the three bytes to compare, as 16-bit addresses before the move |
| `HucCopies.BlockLosesY` | jocasta-lib/code_gen/huc6280/huc6280_gen.py:562-566 | A TII of one byte to the slot of Y, after which Y is that byte |
| `HucCopies.LinearMove` | jocasta-lib/code_gen/huc6280/huc6280_gen.py:506-520 | TII and TDD, any length and overlap, wrapping at 64K: byte i of the target comes from source byte i, or from byte i mod d where the target lies d < n ahead |
| `HucCopies.FixedTarget` | jocasta-lib/code_gen/huc6280/huc6280_gen.py:528-529 | TIN leaves the last byte at the target and nothing else, also when it reads its own target |
| `HucCopies.PairTarget` | jocasta-lib/code_gen/huc6280/huc6280_gen.py:522-526 | TIA leaves at its target and the next byte the last byte sent to each, for any overlap |
| `HucCopies.PairSource` | jocasta-lib/code_gen/huc6280/huc6280_gen.py:511-515 | TAI alternates between its source and the next byte, and for any overlap: once it runs over them at an odd distance only the second comes, or only the first if it starts on the second |
| `HucCopies.ApartPairs` | jocasta-lib/code_gen/huc6280/huc6280_gen.py:511-526 | Without overlap TIA leaves the last byte of each parity and TAI alternates all the way |
| `HucCopies.TraceIsBack` | jocasta-lib/code_gen/huc6280/huc6280_gen.py:132-133 | With all banks different, bytes come from where 16-bit addresses say |
| `HucCopies.BlockMoves` | jocasta-lib/code_gen/huc6280/huc6280_gen.py:506-568 | Each of the five block moves, as emitted, for any mapping and overlap: every byte of memory comes from where the last write to it took it; with all banks different, from the address its closed form names |
| `HucCopies.IsMemmove` | jocasta-lib/code_gen/huc6280/huc6280_gen.py:506-520 | TII and TDD are memmove if and only if the target is not 1 to n - 1 bytes ahead of the source in the direction of travel |
| `HucCopies.StackAddrIs` | jocasta-lib/code_gen/huc6280/huc6280_gen.py:176-192 | MPR[1] | 0x100 | S is a sum for aligned banks |
| `HucCopies.PhysInjective` | jocasta-lib/code_gen/huc6280/huc6280_gen.py:132-133 | With eight different banks, every 16-bit address has a byte of its own |
| `HucCalls.CallExec` | jocasta-lib/code_gen/huc6280/huc6280_gen.py:409-417 | JSR: seven cycles, PC of its last operand byte pushed, PC at the target |
| `HucCalls.ReturnExec` | jocasta-lib/code_gen/huc6280/huc6280_gen.py:847-855 | RTS: seven cycles, on to the byte after the pulled address |
| `HucCalls.BranchExec` | jocasta-lib/code_gen/huc6280/huc6280_gen.py:819-830 | BSR: eight cycles, the unmasked sum in PC |
| `HucCalls.BranchFaults` | jocasta-lib/code_gen/huc6280/huc6280_gen.py:819-830 | BSR leaves a valid boundary if and only if PC plus the offset is a 16-bit address; otherwise the fetch indexes MPR out of range |
| `HucCalls.BranchStrays` | jocasta-lib/code_gen/huc6280/huc6280_gen.py:825 | A state in which BSR does leave the range |
| `HucCalls.CallReturns` | jocasta-lib/code_gen/huc6280/huc6280_gen.py:847-855 | A call whose body balances the stack is resumed by RTS at the byte after it, with S and the older stack bytes as they were |
| `HucCalls.NestedCallsReturn` | jocasta-lib/code_gen/huc6280/huc6280_gen.py:409-417 | Well-nested JSR and BSR to any depth the stack page holds, S wrapping anywhere: every RTS resumes after its own call |
| `HucCalls.CallGoes` | jocasta-lib/code_gen/huc6280/huc6280_gen.py:409-417 | JSR goes where its operand says if and only if its own pushes leave the operand second byte as it was |
| `HucCalls.CallStrays` | jocasta-lib/code_gen/huc6280/huc6280_gen.py:409-417 | A state in which JSR goes elsewhere |
| `HucInterrupts.EntryExec` | jocasta-lib/code_gen/huc6280/huc6280_gen.py:458-475 | Interrupt entry: eight cycles, PC - 1 and P pushed, I set, D and T cleared, PC from the vector |
| `HucInterrupts.RestoreExec` | jocasta-lib/code_gen/huc6280/huc6280_gen.py:904-914 | RTI: seven cycles, P but for bit 4, PC and S restored, T kept |
| `HucInterrupts.InterruptTransparent` | jocasta-lib/code_gen/huc6280/huc6280_gen.py:458-475 | Entry, any handler that keeps A, X, Y, S, the mapping and its three stack bytes, then RTI, come back to the same boundary: same PC, address, S, and P up to bit 4 |
| `HucInterrupts.DecodeServes` | jocasta-lib/src/component/cpu/huc6280/huc6280.cpp:151-178 | At a boundary a pending interrupt always has a line to serve, timer before IRQ1 before IRQ2 |
| `HucMachine.UnpackPack` | jocasta-lib/src/component/cpu/huc6280/huc6280.h:18-32 | P as eight bits and as one byte are two views of the same flags |
| `HucReset.ResetRuns` | jocasta-lib/code_gen/huc6280/huc6280_gen.py:420-455 | The RESET microcode, from RD high or low and WR low: nine cycles, the machine reinitialised, PC from 0x1FFE |
| `HucReset.ResetSoundIff` | jocasta-lib/code_gen/huc6280/huc6280_gen.py:420-455 | RESET keeps a case, sound pins and an address on the bus in every cycle if and only if WR was low when it began |
| `HucReset.ResetDispatched` | jocasta-lib/src/component/cpu/huc6280/huc6280.cpp:26-36 | After a reset the driver dispatches the RESET entry if and only if RD was low and no interrupt was pending |
| `HucReset.ResetMissed` | jocasta-lib/src/component/cpu/huc6280/huc6280.cpp:336-349 | With RD high the first cycle reads the opcode on order over the special code, and RESET is not run |
| `HucReset.ResetReachesBoundary` | jocasta-lib/src/component/cpu/huc6280/huc6280.cpp:26-36 | From power-on, or any reset with RD and WR low and nothing pending, RESET is run and reaches a boundary that runs can start from, I set, D and T clear |
| `HucReset.ResetCompletes` | jocasta-lib/code_gen/huc6280/huc6280_gen.py:420-455 | RESET as a table entry, from any boundary |
| `HucArithmetic.AddMeans` | jocasta-lib/code_gen/huc6280/huc6280_gen.py:1129-1143 | Binary ADC is the sum with carry; V exactly when the signed sum does not fit a byte |
| `HucArithmetic.SubMeans` | jocasta-lib/code_gen/huc6280/huc6280_gen.py:1077-1090 | Binary SBC is the difference with borrow; V exactly when the signed difference does not fit a byte |
| `HucArithmetic.CompareMeans` | jocasta-lib/code_gen/huc6280/huc6280_gen.py:949-973 | CMP, CPX, CPY order unsigned bytes: C for at least, Z for equal |
| `HucArithmetic.AddByte` | jocasta-lib/code_gen/huc6280/huc6280_gen.py:1147-1158 | Decimal ADC of two packed digits is their sum with carry out from 100 |
| `HucArithmetic.SubByte` | jocasta-lib/code_gen/huc6280/huc6280_gen.py:1091-1102 | Decimal SBC is the difference with borrow, carry meaning none |
| `HucArithmetic.ChainSum` | jocasta-lib/code_gen/huc6280/huc6280_gen.py:1129-1161 | A chain of ADC over n bytes is addition modulo 256^n, or 100^n with D set, and C says whether it fit |
| `HucArithmetic.ChainDifference` | jocasta-lib/code_gen/huc6280/huc6280_gen.py:1077-1107 | A chain of SBC over n bytes is subtraction, 256^n or 100^n added where C says it borrowed |
| `HucArithmetic.AddThenSubtract` | jocasta-lib/code_gen/huc6280/huc6280_gen.py:1077-1161 | Subtracting what was added restores every byte, for every n, and borrows exactly if the addition carried |
| `HucArithmetic.SumOverflows` | jocasta-lib/code_gen/huc6280/huc6280_gen.py:1129-1143 | After a binary ADC chain of n bytes V says whether the n-byte signed sum fits |
| `HucArithmetic.DifferenceOverflows` | jocasta-lib/code_gen/huc6280/huc6280_gen.py:1077-1090 | And after an SBC chain whether the signed difference does |
| `HucServices.EntryFacts` | jocasta-lib/code_gen/huc6280/huc6280_gen.py:458-475 | A pending interrupt, in the instruction set: registers and mapping kept, three bytes pushed, nothing else pending |
| `HucServices.ReturnFacts` | jocasta-lib/code_gen/huc6280/huc6280_gen.py:904-914 | RTI, in the instruction set |
| `HucServices.ServiceInvisible` | jocasta-lib/code_gen/huc6280/huc6280_gen.py:904-914 | Entry, a conforming handler of any length and RTI lead back to the same machine, but for the memory handlers own, the interrupt latches and bit 4 of P |
| `HucServices.EmptyConforms` | jocasta-lib/code_gen/huc6280/huc6280_gen.py:904-914 | A handler that is just RTI conforms |
| `HucServices.ServicesInvisible` | jocasta-lib/src/component/cpu/huc6280/huc6280.cpp:147-201 | Interrupts are transparent over whole runs: entered anywhere and any number of times, with conforming handlers, they leave the program where it ends without them, outside the memory handlers own |
| `HucServices.TableServices` | jocasta-lib/src/component/cpu/huc6280/huc6280.cpp:147-201 | The same for runs of the generated table |
| `HucPrograms.ReadNext` | jocasta-lib/code_gen/huc6280/huc6280_gen.py:681-689 | LDA, ADC or SBC at PC, zero page or absolute: the operand applied, PC at the next instruction |
| `HucPrograms.WriteNext` | jocasta-lib/code_gen/huc6280/huc6280_gen.py:858-865 | STA at PC: A in its operand, nothing else |
| `HucPrograms.ProgramRuns` | jocasta-lib/code_gen/huc6280/huc6280_gen.py:662-689 | A program of LDA, ADC or SBC, STA per byte in memory, with zero-page or absolute operands, stores the chain result and nothing else, with I set or no requests |
| `HucPrograms.ProgramSteady` | jocasta-lib/code_gen/huc6280/huc6280_gen.py:662-689 | No instruction of the program looks at memory outside its code and its numbers |
| `HucPrograms.ProgramServed` | jocasta-lib/src/component/cpu/huc6280/huc6280.cpp:147-201 | The program stores the chain result with interrupts enabled, served anywhere in between by conforming handlers that stay away from its code and numbers |
| `HucPrograms.TableRuns` | jocasta-lib/src/component/cpu/huc6280/huc6280.cpp:147-201 | The generated table runs the program, with I set or no requests |
| `HucPrograms.TableServed` | jocasta-lib/src/component/cpu/huc6280/huc6280.cpp:147-201 | The generated table runs the program with interrupts served in between |
| `HucPrograms.ProgramAdds` | jocasta-lib/code_gen/huc6280/huc6280_gen.py:1129-1161 | Such a program leaves the sum of two n-byte numbers, binary or packed decimal, with the carry in C, whatever interrupts are served in between |
| `HucPrograms.ProgramSubtracts` | jocasta-lib/code_gen/huc6280/huc6280_gen.py:1077-1107 | And with SBC the difference, C clear where it borrowed |
| `Crc32.FrameHash.FillTable` | jocasta-headless/src/main.cpp:84-90 | The nested loops fill the 256-entry table with eight division steps of each index |
| `Crc32.FrameHash.Crc32Buf` | jocasta-headless/src/main.cpp:80-96 | The table-driven hash of a buffer of any length is the bit-serial reflected division by 0xEDB88320 with initial and final complement (section 8 of RFC 1952), whether the table was filled before or not |
| `Crc32.FrameHash.Turn` | jocasta-headless/src/main.cpp:91-94 | One turn of the loop is one byte step |
| `Crc32.BitStepInjective` | jocasta-headless/src/main.cpp:86-88 | A division step loses nothing |
| `Crc32.ByteStepSerial` | jocasta-headless/src/main.cpp:91-94 | A table step is eight single-bit steps |
| `Crc32.ByteRunSerial` | jocasta-headless/src/main.cpp:91-94 | The table form computes the division for every buffer |
| `Crc32.BurstDetected` | jocasta-headless/src/main.cpp:80-96 | Two equal-length buffers that differ only inside 32 consecutive bits, at any alignment, hash differently |
| `Crc32.FourBytesDetected` | jocasta-headless/src/main.cpp:80-96 | Two equal-length buffers that differ only inside four consecutive bytes hash differently |
| `Crc32.UndetectedIff` | jocasta-headless/src/main.cpp:80-96 | Two equal-length buffers hash alike if and only if the exclusive-or of their bits divides without remainder |
| `Crc32.Residue` | jocasta-headless/src/main.cpp:80-96 | A buffer followed by its own hash, lowest byte first, always hashes to 0x2144DF1C |
| `BiosManifest.NoStartInside` | jocasta-gui/src/full_sys.cpp:2644-2661 | Skipping by the key length never jumps over a match: a key without line breaks cannot match at a line start inside itself |
| `BiosManifest.GetVal` | jocasta-gui/src/full_sys.cpp:2644-2661 | The value of the first line that starts with the key, without a carriage return, or nothing |
| `BiosManifest.SortedUnique` | jocasta-gui/src/full_sys.cpp:2710-2714 | There is one sorted arrangement of a multiset of entries |
| `BiosManifest.ManifestFromFiles` | jocasta-gui/src/full_sys.cpp:2696-2716 | The sorted entries of the non-empty files games do not write to |
| `BiosManifest.OrderIrrelevant` | jocasta-gui/src/full_sys.cpp:2696-2716 | The order of the files does not matter |
| `BiosManifest.MutableIrrelevant` | jocasta-gui/src/full_sys.cpp:2686-2694 | No change to firmware.bin or dc_flash.bin matters |
| `BiosManifest.ManifestFromMeta` | jocasta-gui/src/full_sys.cpp:2718-2751 | The loop returns the sorted entries the meta text names |
| `BiosManifest.SameManifest` | jocasta-gui/src/full_sys.cpp:2753-2763 | Two manifests are the same if and only if they are equal |
| `BiosManifest.AppendManifest` | jocasta-gui/src/full_sys.cpp:2765-2779 | The meta text with the printed manifest behind it, lines cut where the buffer ends |
| `BiosManifest.FieldRead` | jocasta-gui/src/full_sys.cpp:2718-2751 | Each field of each entry is read back from between other lines |
| `BiosManifest.RoundTrip` | jocasta-gui/src/full_sys.cpp:2765-2779 | Reading back a printed manifest between lines with other keys returns its sorted entries when there are fewer than 2^31 and nothing otherwise |
| `BiosManifest.RoundTripIff` | jocasta-gui/src/full_sys.cpp:2765-2779 | Among lists of fewer than 2^31 entries, as files give them and without carriage returns in names, exactly those come back whose names have no line feed and no NUL and whose lines fit 511 characters |
| `BiosManifest.ReturnLost` | jocasta-gui/src/full_sys.cpp:2655-2656 | A name that ends with a carriage return comes back without it |
| `BiosManifest.SizeLost` | jocasta-gui/src/full_sys.cpp:2768-2774 | After a name line that was cut the size of that entry reads as 0 |
| `BiosManifest.MakeWarning` | jocasta-gui/src/full_sys.cpp:2781-2816 | A warning is made exactly when the manifests differ, and its text, cut to the buffer, gives both counts and the first difference |
| `BiosManifest.WarnsIff` | jocasta-gui/src/full_sys.cpp:2781-2816 | A saved state warns if and only if the multisets of name, size and hash of the immutable files differ |
| `BiosManifest.WarnsAtHome` | jocasta-gui/src/full_sys.cpp:2781-2816 | Under the very files it was saved with, a state warns if and only if some name does not fit the printed manifest |
| `BiosManifest.HeaderIsOther` | jocasta-gui/src/full_sys.cpp:3167-3192 | The header lines of a save are other lines in the sense of RoundTrip |
| `BiosManifest.ScanDec` | jocasta-gui/src/full_sys.cpp:2718-2751 | Numbers printed in decimal are scanned back |
| `PersistentStore.Store.Write` | jocasta-lib/src/helpers/sram.h:14-46 | A core write changes one byte and marks the store |
| `PersistentStore.OpenOrCreate` | jocasta-gui/src/full_sys.cpp:1175-1190 | The file is opened, or created with the fill byte and the seed image if it may be |
| `PersistentStore.FinishSetup` | jocasta-gui/src/full_sys.cpp:1170-1217 | After setup a store with a file is saved if and only if the file was there in full or is new; without a file it holds the fresh image |
| `PersistentStore.RegisteredOnce` | jocasta-gui/src/full_sys.cpp:1240-1243 | No store is registered twice, and no other store comes or goes |
| `PersistentStore.PassSaves` | jocasta-gui/src/full_sys.cpp:1285-1292 | With files of their own, stores are in their files once a pass is past them |
| `PersistentStore.SavesIff` | jocasta-gui/src/full_sys.cpp:1285-1292 | A forced pass saves every open store, whatever was written, if and only if no two open stores with memory share a file |
| `PersistentStore.SharedFileLoses` | jocasta-gui/src/full_sys.cpp:1285-1292 | Two stores on one file: the image of the first is lost |
| `PersistentStore.PathsClash` | jocasta-gui/src/full_sys.cpp:1234-1237 | Two stores set up at two paths are always saved if and only if the paths differ and do not share their first 499 characters |
| `PersistentStore.Host.PrimaryStore` | jocasta-gui/src/full_sys.cpp:1219-1224 | The first primary store, if any |
| `PersistentStore.Host.Register` | jocasta-gui/src/full_sys.cpp:1240-1243 | The loop registers a store once, promoting it if asked |
| `PersistentStore.Host.Reopen` | jocasta-gui/src/full_sys.cpp:1234-1238 | Setting up a store leaves the others as they were, opens the clipped path, and creates at most that file |
| `PersistentStore.Host.Setup` | jocasta-gui/src/full_sys.cpp:1234-1244 | Setup keeps the host valid, what is not dirty saved if the file is long enough, and files apart if no open store uses that clipped path |
| `PersistentStore.Host.Flush` | jocasta-gui/src/full_sys.cpp:1285-1291 | One store turn: its image over the front of its file if it is dirty and open |
| `PersistentStore.Host.FlushAll` | jocasta-gui/src/full_sys.cpp:1285-1291 | A pass leaves the files as the images written over them in order, and everything saved if files are apart |
| `PersistentStore.Host.Sync` | jocasta-gui/src/full_sys.cpp:1271-1294 | Unforced passes come at least an interval after the pass before; a pass leaves every open store saved if files are apart; a skipped one changes nothing |
| `PersistentStore.Host.CoreWrite` | jocasta-gui/src/full_sys.cpp:1271-1294 | A core write keeps what is not dirty saved |
| `PersistentStore.Host.RestoreCopy` | jocasta-gui/src/full_sys.cpp:3345-3367 | A restored copy is taken exactly if its size fits, marks the store, and keeps what is not dirty saved |
| `PersistentStore.Host.CloseAll` | jocasta-gui/src/full_sys.cpp:1298-1309 | Every store is closed and the list emptied |
| `PersistentStore.Host.Close` | jocasta-gui/src/full_sys.cpp:1296-1310 | Closing leaves in the files the images written over them in order; with files apart, each file starts with its store last image |
| `FpsMeter.ScanFinds` | jocasta-gui/src/full_sys.cpp:4406-4413 | The backward scan finds exactly the oldest retained sample within 2.5 seconds |
| `FpsMeter.SteadyRate` | jocasta-gui/src/full_sys.cpp:4414-4421 | A machine that makes frames at a steady rate is shown that rate as soon as anything new is shown |
| `FpsMeter.RetainedMore` | jocasta-gui/src/full_sys.cpp:4396-4404 | One more sample: the last min(n, 240) samples since the reset |
| `FpsMeter.HoldsMore` | jocasta-gui/src/full_sys.cpp:4396-4404 | The ring write keeps the retained samples in order, oldest overwritten |
| `FpsMeter.Meter.Reset` | jocasta-gui/src/full_sys.cpp:4356-4360 | A reset forgets every sample |
| `FpsMeter.Meter.Append` | jocasta-gui/src/full_sys.cpp:4396-4404 | The ring holds the last 240 samples in order |
| `FpsMeter.Meter.ScanBack` | jocasta-gui/src/full_sys.cpp:4406-4413 | The loop returns the scan result, indices wrapping |
| `FpsMeter.Meter.Update` | jocasta-gui/src/full_sys.cpp:4362-4421 | Whole update: frames and times never decrease in the ring, the frame difference never underflows, the rate shown is frames over time since the oldest sample in the window |
| `AudioRing.MaskIsRemainder` | jocasta-lib/src/helpers/audio_ring.h:40-51 | Masking by a power of two less one is the remainder |
| `AudioRing.WrapKeepsSlot` | jocasta-lib/src/helpers/audio_ring.h:62-71 | A position that wraps at 2^32 keeps its slot |
| `AudioRing.Ring.constructor` | jocasta-lib/src/helpers/audio_ring.h:40-51 | An empty ring of a power-of-two capacity |
| `AudioRing.Ring.Push` | jocasta-lib/src/helpers/audio_ring.h:62-71 | A pair is appended, or dropped when the ring is full |
| `AudioRing.Ring.Pop` | jocasta-lib/src/helpers/audio_ring.h:134-147 | Up to n pairs are taken from the front, in order |
| `AudioRing.Ring.Drain` | jocasta-lib/src/helpers/audio_ring.h:82-86 | The ring is emptied |
| `AudioRing.Ring.KeepLatest` | jocasta-lib/src/helpers/audio_ring.h:90-97 | All but the latest pairs are dropped |
| `AudioRing.Ring.PrependRamp` | jocasta-lib/src/helpers/audio_ring.h:108-120 | A ramp up to the first pair is put in front; the ring stays valid if and only if there was room for it |
| `AudioRing.RampReaches` | jocasta-lib/src/helpers/audio_ring.h:108-120 | The last pair of a ramp is its target, so the first real pair follows without a step |
| `AudioStreams.LockedIsSilent` | jocasta-gui/src/audiowrap.cpp:134-151 | A locked stream adds nothing, over any events that do not prime it |
| `AudioStreams.LockedIsKept` | jocasta-gui/src/audiowrap.cpp:143-147 | A callback takes nothing from a locked stream |
| `AudioStreams.FadeRuns` | jocasta-gui/src/audiowrap.cpp:143-158 | A fade of K not disturbed by another control call plays what it finds at K/K, (K-1)/K, ... 2/K over K - 1 callbacks, nothing exactly where the queue is short, and is locked by the K-th, over any interleaving |
| `AudioStreams.FadeEnds` | jocasta-gui/src/audiowrap.cpp:148-156 | The K-th callback locks the stream and drains it |
| `AudioStreams.FadeBegins` | jocasta-gui/src/audiowrap.cpp:307-321 | begin_fadeout starts a fade if and only if the stream plays and the count fits a positive int |
| `AudioStreams.FrontToBack` | jocasta-gui/src/audiowrap.cpp:111-127 | Over any interleaving of callbacks, pushes, locks, fades and discards without overflow, what was buffered and pushed is what left the front, in order, and then what is buffered |
| `AudioStreams.FirstInFirstOut` | jocasta-gui/src/audiowrap.cpp:111-127 | What a passthrough stream gave to its callbacks is what was pushed, in order, over any interleaving without overflow, also through a fade up to its last callback |
| `AudioStreams.FadeDrops` | jocasta-gui/src/audiowrap.cpp:148-156 | The last callback of a fade drops exactly what no callback has played |
| `AudioStreams.AllOrNothing` | jocasta-gui/src/audiowrap.cpp:158-176 | A passthrough callback takes exactly frame_count pairs from the front or none |
| `AudioStreams.PlayedCount` | jocasta-gui/src/audiowrap.cpp:134-186 | One sound per callback |
| `AudioHost.Stream.DrainInto` | jocasta-gui/src/audiowrap.cpp:111-127 | The chunked drain adds exactly the first min(frames, queued) pairs in order at the volume and takes them |
| `AudioHost.Stream.Callback` | jocasta-gui/src/audiowrap.cpp:143-176 | One stream turn is one step of the protocol, and adds its sound to the sum |
| `AudioHost.Stream.Lock` | jocasta-gui/src/audiowrap.cpp:295-305 | Locking as the protocol says, the ring drained |
| `AudioHost.Stream.BeginFade` | jocasta-gui/src/audiowrap.cpp:307-321 | Starting a fade as the protocol says |
| `AudioHost.Stream.PrimeAndUnlock` | jocasta-gui/src/audiowrap.cpp:323-351 | Priming as the protocol says, a ramp in front |
| `AudioHost.AudioWrap.DataCallback` | jocasta-gui/src/audiowrap.cpp:134-186 | Clearing the accumulator overruns it if and only if there are more than 4096 frames; if not, every stream steps once and the output is the clamped sum of their sounds |
| `AudioHost.AudioWrap.LockAll` | jocasta-gui/src/audiowrap.cpp:295-305 | Every stream is locked |
| `AudioHost.AudioWrap.BeginFadeout` | jocasta-gui/src/audiowrap.cpp:307-321 | Every stream starts its fade, or is locked for a fade of 0 |
| `AudioHost.AudioWrap.PrimeAndUnlock` | jocasta-gui/src/audiowrap.cpp:323-351 | Every stream is primed and unlocked |
| `AudioHost.AudioWrap.DiscardEmulatedBuffers` | jocasta-gui/src/audiowrap.cpp:290-293 | Every ring is emptied |
| `AudioHost.AudioWrap.DiscardAllButLatest` | jocasta-gui/src/audiowrap.cpp:353-358 | Every ring keeps its latest frame |
| `ChdImage.StoredHoldsFrames` | jocasta-gui/src/chd_loader.cpp:88-89 | Rounding up to four holds the frames, for sizes up to 2^32 - 4 |
| `ChdImage.TotalSectors` | jocasta-gui/src/chd_loader.cpp:86-91 | The first loop sums the stored sizes, in 32 bits |
| `ChdImage.BuildToc` | jocasta-gui/src/chd_loader.cpp:116-133 | The TOC loop gives each track the sum of the sizes before it, and ends at the size of the first loop |
| `ChdImage.OffsetsAligned` | jocasta-gui/src/chd_loader.cpp:116-133 | Every start offset is a multiple of four, even where the sum wraps |
| `ChdImage.TilesIff` | jocasta-gui/src/chd_loader.cpp:116-133 | Each track ends where the next begins, or the last at the end of the image, for all tracks if and only if the sizes sum to less than 2^32 sectors |
| `ChdImage.TracksOverlap` | jocasta-gui/src/chd_loader.cpp:116-133 | Three tracks that do not tile: the third ends before it starts |
| `ChdImage.TracksTile` | jocasta-gui/src/chd_loader.cpp:116-133 | Within 32 bits the tracks tile the image: each ends where the next begins, the first at 0, the last at the total |
| `ChdImage.OneTrackEach` | jocasta-gui/src/chd_loader.cpp:116-133 | Within 32 bits every sector of the image belongs to exactly one track |
| `ChdImage.CopyBytes` | jocasta-gui/src/chd_loader.cpp:108 | A sector gets the first min(unit, 2352) bytes of a unit |
| `ChdImage.CopyUnits` | jocasta-gui/src/chd_loader.cpp:102-109 | One hunk, with wrapping sector numbers and offsets: each byte is what the last unit copied over it says |
| `ChdImage.CopyHunks` | jocasta-gui/src/chd_loader.cpp:96-110 | All hunks up to the first that cannot be read, likewise |
| `ChdImage.SafeFills` | jocasta-gui/src/chd_loader.cpp:96-110 | While sizes are safe the loops have filled exactly the units they have passed, each at its sector |
| `ChdImage.UnsafeLoses` | jocasta-gui/src/chd_loader.cpp:102-108 | For all other sizes, contents of the hunks whose image is wrong |
| `ChdImage.ImageIff` | jocasta-gui/src/chd_loader.cpp:96-110 | The image holds the disc for every content of the hunks if and only if at most 1,826,092 units are copied and no hunk starts again inside the image past 2^32 units |
| `ChdImage.SafeUsually` | jocasta-gui/src/chd_loader.cpp:102-103 | With at most 2^32 units that is one comparison |
| `ChdImage.SectorLost` | jocasta-gui/src/chd_loader.cpp:107 | One sector more: it lands on byte 1,088, and its own place stays empty |
| `ChdImage.AddChd` | jocasta-gui/src/chd_loader.cpp:18-138 | The whole function: an image of the summed size, each byte the last unit copied over it, the disc where sizes are safe, and the TOC of the tracks |
| `ChdImage.SectorIsUnit` | jocasta-gui/src/chd_loader.cpp:96-110 | With safe sizes byte j of sector s is byte j of unit s, or 0 beyond the unit or what was read |

## Left out

- Hardware registers behind 0x1FE000: the I/O ports, timer and PSG are not part of this model; every address is RAM.
- Bus timing: `extra_cycles` and `clock_div` do not enter the cycle counts.
- HucRefine.RunsRefine: stated for runs in which no BSR leaves the 16-bit range, because after one the driver indexes MPR out of range.
- HucCopies.BlockMoves: the closed forms are stated for mappings that give every 16-bit address a byte of its own; for others the bytes are traced back write by write.
- HucServices.ServicesInvisible: handlers that change what the program looks at, and programs that look at the stack below S, are what its conditions shut out; nothing is said of those.
- HucPrograms.ProgramServed: programs of other instructions than LDA, ADC, SBC and STA, and other operand forms than zero page and absolute, are left to ServicesInvisible and RunsRefine.
- HucSwitchgen.SwitchGen.LoadAt: load8 and load16 are one method told apart by the address statement; their unused name parameter is dropped.
- HucSwitchgen.SwitchGen.StoreAt: store8 and store16 likewise.
- HucForms.Reset: returns no size certificate, because it counts the address up; HucReset proves what the certificate would say.
- The options has_custom_end, no_addr_at_end and no_RW_at_end of the generator are never set and not modelled; nor is the code after the return in al_SBC, the writing of the output file, nor the debugger call in TAM.
- The trace and disassembly parts of the driver are not part of this model.
- PersistentStore.Host.Sync: file writes succeed in full; a failing disk is not modelled. `setup_aux_persistent_stores` is left out: it calls Setup for each store it finds.
- AudioHost.AudioWrap.DataCallback: frame counts of 2^31 or more, whose double does not fit 32 bits, and what happens after an overrun are not modelled; a callback is one step; races inside a callback between it and the control calls are not modelled, and rounding of float sums is not.
- AudioHost.AudioWrap.PrimeAndUnlock: requires the room for the ramp that the comment at `audio_ring.h:103-106` asks of callers; Ring.PrependRamp says what happens without it.
- BiosManifest.RoundTripIff: names with a carriage return are left out of the equivalence, because one inside a name does harm only if a later key follows it; ReturnLost covers one at the end.
- ChdImage.AddChd: begins after the metadata is parsed and libchdr has opened the file; opening errors are not modelled.
- FpsMeter.Meter.Update: times are reals, so no rounding of the rate.
- Save states are modelled only as far as the manifest and the store copies in them; the serialized cores are left out.
- Everything that draws, the device probing, ROM loading and the other cores.
