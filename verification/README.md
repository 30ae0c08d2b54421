# Verified models of the VICE emulator's cores

This project models six parts of VICE in Dafny and proves what holds of them in every run.

1. **Two emulations of the 6510.** `vice/src/6510core.c` adds the cycles of an instruction in lumps,
   `vice/src/6510dtvcore.c` counts them one by one between the memory accesses. Both are modelled macro by macro as
   classes (`LumpedCore.Core`, `CycleCore.Core`) and proved against one instruction set reference (`Isa6510`) that is
   written from neither: it decodes opcodes by their bit fields, keeps flags as booleans and adds published cycle
   counts. The co-simulation theorem follows. On the reference, calls, interrupts and pushes are shown to be
   transparent (`CallReturn`).
2. **The alarm scheduler**, a dense array with back pointers, a cached minimum and a doubly linked list
   (`AlarmQueue.AlarmContext`), refined to a map from alarms to clocks, and the loop that drains it (`AlarmLoop`).
3. **The 6551 ACIA** on top of the scheduler: a specification on values (`AciaSpec`), what holds of it in every run
   (`AciaProperties`), and the code as a class whose alarms live in the scheduler (`Acia6551.Acia`). Its callbacks are
   clients of the drain loop.
4. **Decimal arithmetic** of the 6510, 65C02 and 65816: chains of any length (`Decimal`, `DecimalCmos`,
   `Arithmetic65816`).
5. **The 65816**: widths, modes, block moves, calls and interrupts (`Isa65816`, `Core65816`, `Modes65816`,
   `BlockMoves`, `Programs65816`).
6. **CBM DOS commands and wildcards** (`CbmDos`) and the **autostart state machine** (`Autostart`).

What the specifications themselves mean is proved apart from them, in sums, signs, addresses, bytes on the stack,
printed commands and answers on the screen (`Laws6510`, `LawsCmos`, `Laws65816`, `BlockMoveLaws`, `AciaLaws`,
`CbmDosLaws`, `AutostartLaws`).

Code that changes state step by step is a class with methods; each method's contract ties the new state to a function
of the old one, and the properties are proved of those functions. `dafny verify dfyconfig.toml` checks everything.

## What the proofs found

These places of the source do not do what they are for on all inputs. Each has an exact condition among the theorems.

- `alarm_context_time_warp` shifts the sentinel when nothing is pending, and breaks the cached minimum when only some
  pending clocks wrap (`AlarmQueue.AlarmContext.TimeWarp`, `AlarmQueue.EmptyWarp`, `AlarmQueue.PartialWarp`).
- 16-bit decimal `SBC` of the 65816 reads the 8-bit accumulator: right only when B is 0
  (`Arithmetic65816.SubtractAsWrittenRight`). 16-bit decimal `ADC` takes the overflow flag from it, which is wrong
  from 8000 on when operand and sum have different signs (`Arithmetic65816.OverflowAsWritten`).
- A block move that stores another opcode over its own, except with its last byte, does not go on
  (`BlockMoves.MoveRunsExactly`, `BlockMoves.MoveOfNopFails`); nor does one across the end of a bank unless the operands
  are found at the start of the bank, too (`BlockMoves.IntactExactly`, `BlockMoves.AcrossBank`).
- The reserve of the clock guard is shorter than a long character at the ACIA's slowest rates, which a reset selects: a
  receive deadline that wraps past 2^32 makes `PROCESS_ALARMS` call the receiver forever (`AlarmLoop.RxForever`,
  `AlarmLoop.LateReception`), and a transmit deadline that wraps ends a transmission too early
  (`AciaProperties.StepHistory`). Rates of 50 bps and more are safe (`AlarmLoop.FastReception`,
  `AlarmLoop.GuardSuffices`).
- The 65C02's decimal `SBC` agrees with the 6510's except when the low digits differ by less than -10
  (`DecimalCmos.Agree65C02`, `DecimalCmos.Disagree65C02`); that takes operands that are not decimal.
- `JSL` and `JSR (addr,X)` in emulation mode are undone by their returns only above a bound on the stack pointer
  (`Modes65816.CallsReturn`); interrupts in emulation mode lose the program bank (`Modes65816.InterruptsResume`).
- An ACIA snapshot loses an alarm that is due at that very moment (`AciaProperties.SnapshotRoundTrip`) and the extended
  control register of a Turbo232 (`AciaProperties.TimingRoundTrip`); a snapshot
  without the module clears the interrupt line but not the latch, and a module that ends too early can leave bit 7 in
  the stored status and the line open without DTR (`AciaProperties.LoadKeeps`, `AciaProperties.GoodStep`).
- A reset during a disk autostart leaves a bus callback behind, and the next autostart may type RUN twice
  (`Autostart.StaleReachable`, `Autostart.StaleTypesTwice`).
- A colon anywhere in a CBM DOS command counts, so a REL file's record length of 58 hides the name
  (`CbmDosLaws.ColonDecides`, `CbmDosLaws.ColonLength`).
- A snapshot that is loaded while the serial line is open leaves RTS and DTR as they were (`AciaLaws.LoadedLines`).
- `vice/src/acia.h:58` says that reading the data register clears the overrun flag; the code clears it only on a
  programmed reset (`vice/src/aciacore.c:941`) and on a hardware reset. The model follows the code.

## Model

| member | source | states |
|---|---|---|
| `Cosimulation.Cosimulate` | vice/src/6510dtvcore.c:412-1505 | from equal visible states the lumped core and the cycle core reach equal registers, status, memory, program counter modulo 65536 and clock after every run of instructions, IRQs and NMIs, and the state is the one the instruction set reference prescribes |
| `LumpedCore.Core.Run` | vice/src/6510core.c:469-1699 | the lumped core refines the instruction set reference over whole runs, up to a JAM |
| `CycleCore.Core.Run` | vice/src/6510dtvcore.c:412-1505 | the cycle core refines the same reference over whole runs: double writes of read-modify-write instructions and late truncations leave no trace |
| `LumpedCore.Core.Step` | vice/src/6510core.c:1968-2081 | fetch, decode and execution of any opcode but JAM is one step of the reference: same registers, flags, memory, address and number of cycles |
| `CycleCore.Core.Step` | vice/src/c64/c64cpusc.c:124-149 | the same for the core that counts cycle by cycle |
| `LumpedCore.Core.Execute` | vice/src/6510core.c:2082-3058 | every case of the opcode switch agrees with the reference, which decodes opcodes by their bit fields |
| `CycleCore.Core.Execute` | vice/src/6510dtvcore.c:1611-2555 | every case of the other opcode switch agrees with the same reference |
| `OpcodeMatrix.JamDecoded` | vice/src/6510core.c:2090-2110 | the twelve JAM opcodes of the switch are exactly those that the bit-field decoder calls JAM |
| `LumpedCore.Core.FetchOpcode` | vice/src/6510core.c:1875-1893 | two or three bytes are fetched, as the fetch table says, and each costs a cycle |
| `CycleCore.Core.FetchOpcode` | vice/src/c64/c64cpusc.c:124-149 | two or three bytes are fetched, as the fetch table says, and each costs a cycle |
| `Macros6510.AdcMacro` | vice/src/6510core.c:598-631 | decimal and binary addition with all four flags are those of the digit-wise reference: in decimal mode N and V come from the sum before the high digit is corrected, Z from the binary sum; Laws6510.AdcBinaryMeans and Laws6510.AdcDecimalMeans say what sum and flags are |
| `Macros6510.SbcMacro` | vice/src/6510core.c:1396-1425 | decimal and binary subtraction; all four flags are those of the binary difference in both modes |
| `Macros6510.ArrMacro` | vice/src/6510core.c:680-711 | AND and rotation with the flags of both modes and the two nibble fix-ups in decimal mode |
| `LumpedCore.Core.LoadAbsI` | vice/src/6510core.c:473-490 | indexed reads take the extra cycle exactly when the index leaves the page |
| `LumpedCore.Core.LoadIndX` | vice/src/6510core.c:497 | the pointer is taken from the zero page modulo 256 |
| `LumpedCore.Core.LoadIndY` | vice/src/6510core.c:499-505 | pointer from the zero page, index added modulo 65536, extra cycle exactly when the page is left |
| `CycleCore.Core.GetAbsI` | vice/src/6510dtvcore.c:456-469 | indexed reads take the extra cycle exactly when the index leaves the page |
| `CycleCore.Core.IntIndX` | vice/src/6510dtvcore.c:567-576 | the pointer is taken from the zero page modulo 256, in three cycles |
| `CycleCore.Core.IntIndY` | vice/src/6510dtvcore.c:590-612 | pointer and index as above; a write always takes the extra cycle |
| `CycleCore.Core.SetRmw` | vice/src/6510dtvcore.c:436-648 | storing the old value before the new one leaves the memory that one store of the new value leaves |
| `CycleCore.Core.SetZeroRmw` | vice/src/6510dtvcore.c:516-561 | the same in the zero page |
| `CycleCore.Core.SetAbsShI` | vice/src/6510dtvcore.c:650-670 | the stored byte is masked with the high address byte plus one, unless a cycle was stolen before the store; the masked byte becomes the high byte of the address when the page is left |
| `LumpedCore.Core.StoreAbsSh` | vice/src/6510core.c:539-551 | the stored byte becomes the high byte of the address when indexing leaves the page |
| `LumpedCore.Core.Asr` | vice/src/6510core.c:738-746 | AND, then shift right; C is the bit shifted out |
| `CycleCore.Core.Asr` | vice/src/6510dtvcore.c:829-838 | AND, then shift right; C is the bit shifted out |
| `LumpedCore.Core.Anc` | vice/src/6510core.c:633-640 | AND with bit 7 of the result copied to C |
| `CycleCore.Core.Anc` | vice/src/6510dtvcore.c:723-729 | AND with bit 7 of the result copied to C |
| `LumpedCore.Core.Sbx` | vice/src/6510core.c:1427-1437 | X becomes A AND X minus the operand, with the flags of a comparison |
| `CycleCore.Core.Sbx` | vice/src/6510dtvcore.c:1372-1380 | X becomes A AND X minus the operand, with the flags of a comparison |
| `LumpedCore.Core.Las` | vice/src/6510core.c:1062-1070 | A, X and SP become SP AND the operand |
| `CycleCore.Core.Las` | vice/src/6510dtvcore.c:1112-1119 | A, X and SP become SP AND the operand |
| `LumpedCore.Core.Lxa` | vice/src/6510core.c:1135-1142 | A and X become (A OR $EE) AND the operand |
| `CycleCore.Core.Lxa` | vice/src/6510dtvcore.c:1157-1162 | A and X become (A OR $EE) AND the operand |
| `LumpedCore.Core.BitTest` | vice/src/6510core.c:748-758 | N and V are bits 7 and 6 of the operand, Z tells whether A has none of its bits |
| `CycleCore.Core.BitTest` | vice/src/6510dtvcore.c:840-848 | N and V are bits 7 and 6 of the operand, Z tells whether A has none of its bits |
| `LumpedCore.Core.Rol` | vice/src/6510core.c:1250-1263 | rotation through C: the old C comes in, bit 7 goes out |
| `CycleCore.Core.Rol` | vice/src/6510dtvcore.c:1235-1244 | rotation through C: the old C comes in, bit 7 goes out |
| `LumpedCore.Core.Ror` | vice/src/6510core.c:1276-1292 | rotation through C: the old C comes in, bit 0 goes out |
| `CycleCore.Core.Ror` | vice/src/6510dtvcore.c:1256-1269 | rotation through C: the old C comes in, bit 0 goes out |
| `LumpedCore.Core.Slo` | vice/src/6510core.c:1516-1533 | shift left and OR into A: the byte written back and the flags of both halves |
| `CycleCore.Core.Slo` | vice/src/6510dtvcore.c:1434-1445 | shift left and OR into A: the byte written back and the flags of both halves |
| `LumpedCore.Core.Rla` | vice/src/6510core.c:1213-1228 | rotate left and AND into A, the old carry rotated in |
| `CycleCore.Core.Rla` | vice/src/6510dtvcore.c:1223-1233 | rotate left and AND into A, the old carry rotated in |
| `LumpedCore.Core.Sre` | vice/src/6510core.c:1557-1574 | shift right and EOR into A |
| `CycleCore.Core.Sre` | vice/src/6510dtvcore.c:1447-1458 | shift right and EOR into A |
| `LumpedCore.Core.Rra` | vice/src/6510core.c:1304-1322 | rotate right and add to A, the carry of the rotation going into the addition |
| `CycleCore.Core.Rra` | vice/src/6510dtvcore.c:1281-1295 | rotate right and add to A, the carry of the rotation going into the addition |
| `LumpedCore.Core.Dcp` | vice/src/6510core.c:879-893 | decrement and compare with A |
| `CycleCore.Core.Dcp` | vice/src/6510dtvcore.c:992-1001 | decrement and compare with A |
| `LumpedCore.Core.Isb` | vice/src/6510core.c:978-991 | increment and subtract from A |
| `CycleCore.Core.Isb` | vice/src/6510dtvcore.c:1060-1068 | increment and subtract from A |
| `LumpedCore.Core.Alu` | vice/src/6510core.c:598-1437 | every read operation changes registers and flags as the reference says |
| `CycleCore.Core.Alu` | vice/src/6510dtvcore.c:689-1380 | every read operation changes registers and flags as the reference says |
| `LumpedCore.Core.Rmw` | vice/src/6510core.c:713-1574 | read-modify-write: registers, memory, address and cycles of the reference for all twelve operations |
| `LumpedCore.Core.RmwIndY` | vice/src/6510core.c:1535-1555 | the same through a zero page pointer with Y |
| `CycleCore.Core.ModifyAt` | vice/src/6510dtvcore.c:810-1458 | read-modify-write: registers, memory, address and cycles of the reference for all twelve operations |
| `CycleCore.Core.ModifyZeroAt` | vice/src/6510dtvcore.c:810-1458 | the same in the zero page |
| `LumpedCore.Core.RolA` | vice/src/6510core.c:1265-1274 | the accumulator form computes what the memory form does |
| `CycleCore.Core.RolA` | vice/src/6510dtvcore.c:1246-1254 | the accumulator form computes what the memory form does, with the carry taken before it is rotated in |
| `CycleCore.Core.RorA` | vice/src/6510dtvcore.c:1271-1279 | the accumulator form computes what the memory form does |
| `LumpedCore.Core.ShAbs` | vice/src/6510core.c:1461-1514 | SHA, SHX, SHY and SHS with an absolute address: value, address on a page crossing, and the stack pointer for SHS |
| `LumpedCore.Core.ShaIndY` | vice/src/6510core.c:1470-1487 | SHA through a pointer |
| `CycleCore.Core.ShAbs` | vice/src/6510dtvcore.c:1411-1425 | SHA, SHX, SHY and SHS with an absolute address, with and without a stolen cycle |
| `CycleCore.Core.ShaIndY` | vice/src/6510dtvcore.c:1404-1409 | SHA through a pointer, with and without a stolen cycle |
| `LumpedCore.Core.BranchIf` | vice/src/6510core.c:761-778 | taken exactly when the flag asks for it; one cycle more when taken, two when the page is left |
| `CycleCore.Core.BranchIf` | vice/src/6510dtvcore.c:878-897 | the same in the cycle core |
| `LumpedCore.Core.Brk` | vice/src/6510core.c:781-817 | return address plus two, status with B set, I set, seven cycles; vector $FFFE, or $FFFA when an NMI arrives in time to take over |
| `CycleCore.Core.Brk` | vice/src/6510dtvcore.c:901-909 | return address plus two, status with B set, I set, seven cycles; vector $FFFE, or $FFFA when an NMI arrives in time to take over |
| `LumpedCore.Core.DoInterrupt` | vice/src/6510core.c:373-462 | an NMI, or an IRQ that is not masked or follows a SEI, saves the program counter and the status with B clear, sets I and goes through $FFFE, or through $FFFA when an NMI is pending by then, in seven cycles; a masked IRQ does nothing |
| `CycleCore.Core.DoIrq` | vice/src/6510dtvcore.c:269-410 | IRQ: the same, with the takeover by an NMI |
| `CycleCore.Core.DoInterrupt` | vice/src/6510dtvcore.c:308-410 | an NMI goes first; an IRQ is taken exactly if it is not masked or follows a SEI |
| `CycleCore.Core.DoNmi` | vice/src/6510dtvcore.c:308-410 | NMI: the same through $FFFA |
| `LumpedCore.Core.Jsr` | vice/src/6510core.c:1048-1060 | the address of the last byte of the call is pushed before the high byte of the target is fetched |
| `CycleCore.Core.Jsr` | vice/src/6510dtvcore.c:1092-1110 | the address of the last byte of the call is pushed before the high byte of the target is fetched |
| `LumpedCore.Core.Rts` | vice/src/6510core.c:1365-1376 | return behind the pushed address |
| `CycleCore.Core.Rts` | vice/src/6510dtvcore.c:1318-1333 | return behind the pushed address |
| `LumpedCore.Core.Rti` | vice/src/6510core.c:1353-1363 | status and return address from the stack |
| `CycleCore.Core.Rti` | vice/src/6510dtvcore.c:1301-1316 | status and return address from the stack |
| `LumpedCore.Core.JmpInd` | vice/src/6510core.c:1038-1046 | the pointer's high byte is read in the page of its low byte |
| `CycleCore.Core.JmpInd` | vice/src/6510dtvcore.c:1075-1083 | the pointer's high byte is read in the page of its low byte |
| `LumpedCore.Core.Php` | vice/src/6510core.c:1181-1186 | the pushed status has B and bit 5 set |
| `CycleCore.Core.Php` | vice/src/6510dtvcore.c:1186-1191 | the pushed status has B and bit 5 set |
| `LumpedCore.Core.Plp` | vice/src/6510core.c:1199-1211 | all flags from the stack |
| `CycleCore.Core.Plp` | vice/src/6510dtvcore.c:1205-1221 | all flags from the stack |
| `Cosimulation.RunSplit` | vice/src/6510core.c:1968-2081 | a run may be cut anywhere and resumed from the state reached, unless a JAM ended it |
| `Cosimulation.RunLater` | vice/src/types.h:44 | nothing but the clock depends on the clock, so a run is the same under a 32-bit clock or one that has been moved back |
| `Cosimulation.RunCycles` | vice/src/6510core.c:1968-2081 | every event takes two to eight cycles, a masked IRQ none |
| `CallReturn.BracketRestores` | vice/src/6510core.c:781-1376 | JSR…RTS, IRQ/NMI/BRK…RTI, PHA…PLA and PHP…PLP around any events at all that end with the stack pointer and the pushed bytes as they were restore what was saved: address (after the call, plus two for BRK), stack pointer, N V D I Z C or A, for every stack pointer including those that wrap, and whether or not an NMI takes over a BRK or an IRQ |
| `CallReturn.WalkKeeps` | vice/src/6510core.c:336-341 | after any nesting of such brackets and of segments that as a whole keep the stack pointer and the bytes in use, as long as it fits into page one, both are those at its start; so it may be the body of a bracket |
| `CallReturn.Opened` | vice/src/6510core.c:337 | what the opening pushes lies on top of the bytes in use, which stay |
| `CallReturn.Closed` | vice/src/6510core.c:340 | the closing instruction pulls exactly what the opening pushed |
| `CallReturn.PackedRoundTrip` | vice/src/6510core.c:188-200 | the status byte that is pushed and pulled again is the same status |
| `AlarmQueue.AlarmContext.constructor` | vice/src/alarm.c:49-57 | an empty map, whatever the cached index holds |
| `AlarmQueue.AlarmContext.Set` | vice/src/alarm.h:148-187 | updates the map from alarms to clocks, or leaves it when 256 others are pending; array, back pointers, cached minimum and list stay consistent |
| `AlarmQueue.AlarmContext.Unset` | vice/src/alarm.c:167-207 | removes the alarm from the map through swap-with-last, or does nothing when it is not pending |
| `AlarmQueue.AlarmContext.RemoveEntry` | vice/src/alarm.c:167-207 | swap-with-last keeps the array dense, moves one back pointer and keeps the cached clock and index right |
| `AlarmQueue.AlarmContext.UpdateNextPending` | vice/src/alarm.h:112-131 | the scan finds the earliest clock and an index that holds it |
| `AlarmQueue.AlarmContext.New` | vice/src/alarm.c:105-125 | the alarm is not pending and becomes the head of the list |
| `AlarmQueue.AlarmContext.Destroy` | vice/src/alarm.c:139-165 | the alarm leaves the map and the doubly linked list; the order of the others stays |
| `AlarmQueue.AlarmContext.DestroyAll` | vice/src/alarm.c:59-77 | walking the list while it is being taken apart destroys every alarm |
| `AlarmQueue.AlarmContext.PendingSummary` | vice/src/alarm.h:64-82 | the number of entries is the size of the map and the cached clock its earliest clock, or the sentinel when it is empty |
| `AlarmQueue.AlarmContext.PendingAt` | vice/src/alarm.h:38-60 | an alarm is pending exactly when its index is not -1, and then its entry holds its clock |
| `AlarmQueue.RemovedMap` | vice/src/alarm.c:167-207 | swap-with-last on the entries is deletion on the map |
| `AlarmQueue.AlarmContext.TimeWarp` | vice/src/alarm.c:79-101 | all clocks are shifted modulo 2^32; the cached minimum stays right if and only if nothing is shifted, or something is pending, the cached index is usable and either all pending clocks wrap or none does |
| `AlarmQueue.WarpKeepsOrder` | vice/src/alarm.c:79-101 | two pending alarms stay in order if and only if both of them wrap or neither does |
| `AlarmQueue.WarpRoundTrip` | vice/src/alarm.c:79-101 | a warp and its opposite cancel out even when clocks wrap |
| `AlarmQueue.EmptyWarp` | vice/src/alarm.c:97-101 | with nothing pending a warp by one tick shifts the sentinel itself and leaves a due clock with no alarm behind it |
| `AlarmQueue.PartialWarp` | vice/src/alarm.c:79-101 | of two alarms at 5 and 20 a warp back by ten wraps the first: the cached clock is 2^32 - 5 while an alarm is due at 10 |
| `AlarmQueue.ShiftedMap` | vice/src/alarm.c:88-95 | a warp shifts every value of the map and touches nothing else |
| `AlarmLoop.Machine.ProcessAlarms` | vice/src/6510core.c:115-119 | below clock 2^32 - 1, if the deadlines that the ACIA's due alarms are going to set do not wrap, the loop ends; then no alarm is due; alarms are called in nondecreasing clock order, each at most once and with the right offset; if callbacks mind their own alarms, exactly the alarms that were due are called |
| `AlarmLoop.Machine.Dispatch` | vice/src/alarm.h:133-146 | calls the earliest alarm with the distance to its clock |
| `AlarmLoop.DrainStep` | vice/src/6510core.c:115-119 | one call that meets the contract keeps the log ordered and free of repetitions and makes the set of due alarms smaller |
| `AlarmLoop.Machine.CallTx` | vice/src/aciacore.c:1114-1150 | the transmit callback, unless it sends a byte whose deadline wraps, meets the loop's contract: afterwards its alarm is unset or later than the clock, and no other alarm has changed |
| `AlarmLoop.Machine.CallRx` | vice/src/aciacore.c:1176-1219 | the receive callback, unless its deadline wraps, meets the same contract |
| `AlarmLoop.TxSettles` | vice/src/aciacore.c:1114-1150 | the transmit callback leaves its alarm due if and only if a byte waits and the clock plus the character time exceeds 2^32 - 1 |
| `AlarmLoop.RxSettles` | vice/src/aciacore.c:1176-1219 | the receive callback leaves its alarm due if and only if the clock plus the reception time exceeds 2^32 - 1 |
| `AlarmLoop.TxTwice` | vice/src/aciacore.c:1114-1150 | a transmit callback whose deadline wraps is called once more at once and then unsets its alarm |
| `AlarmLoop.RxForever` | vice/src/6510core.c:115-119 | a receive callback whose deadline wraps leaves its alarm due however often it is called: the loop does not end |
| `AlarmLoop.LateReception` | vice/src/aciacore.c:1176-1219 | a run that gets there below the guard's limit: CMD = 8 written after a reset at clock 4292600000 on a machine of 985248 cycles per second |
| `AlarmLoop.GuardSuffices` | vice/src/clkguard.c:107-144 | the guard, asked once a frame, keeps both deadlines from wrapping if reception time and frame together do not exceed its reserve of 1048576 cycles |
| `AlarmLoop.ReceptionFits` | vice/src/aciacore.c:374-437 | the exact rates and frame lengths for which a reception fits into a given number of cycles |
| `AlarmLoop.FastReception` | vice/src/aciacore.c:374-437 | at 50 bps and more a reception takes at most 0.3 seconds, less than the reserve on every machine of up to 3495253 cycles per second |
| `AlarmLoop.Machine.ActAll` | vice/src/alarm.h:112-128 | any callback that acts on its own alarm and sets alarms only later than the clock meets the contract |
| `AlarmLoop.Machine.PreventOverflow` | vice/src/clkguard.c:123-143 | clock, scheduler and ACIA go back together and stay in step when the warp is safe for the scheduler |
| `Acia6551.Acia.constructor` | vice/src/aciacore.c:627-639 | both alarms are registered and not pending |
| `Acia6551.Acia.SetAciaTicks` | vice/src/aciacore.c:374-437 | character times from the registers; an active receive alarm is moved one reception ahead |
| `Acia6551.Acia.SetHandshakeLines` | vice/src/aciacore.c:586-624 | RTS runs the receive alarm, DTR follows the command register |
| `Acia6551.Acia.StoreDr` | vice/src/aciacore.c:917-932 | a byte is accepted only with DTR on: then TDRE is clear and the transmit alarm runs |
| `Acia6551.Acia.StoreSr` | vice/src/aciacore.c:933-951 | programmed reset |
| `Acia6551.Acia.StoreCmd` | vice/src/aciacore.c:956-972 | handshake, opening and closing of the line, and what happens to both alarms |
| `Acia6551.Acia.Store` | vice/src/aciacore.c:897-978 | all registers in the three modes |
| `Acia6551.Acia.StoreRmw` | vice/src/aciacore.c:903-908 | the double store of a read-modify-write instruction, the first one cycle earlier |
| `Acia6551.Acia.Read` | vice/src/aciacore.c:991-1004 | values and side effects of all registers; only a status read clears the interrupt |
| `Acia6551.Acia.IntTx` | vice/src/aciacore.c:1114-1150 | sends the waiting byte if the line is open, counts the transmitter down and keeps or drops its alarm |
| `Acia6551.Acia.IntRx` | vice/src/aciacore.c:1176-1219 | receives a byte, with overrun and interrupt, and sets its alarm again; AciaLaws.ReceptionMeans says what a program then reads |
| `Acia6551.Acia.ResetAcia` | vice/src/aciacore.c:642-674 | registers, line and alarms after a reset |
| `Acia6551.Acia.ClkOverflow` | vice/src/aciacore.c:541-547 | both recorded deadlines go back modulo 2^32 |
| `Acia6551.Acia.SnapshotWrite` | vice/src/aciacore.c:728-768 | the module holds the registers and the distances to the deadlines |
| `Acia6551.Acia.SnapshotRead` | vice/src/aciacore.c:790-885 | registers, line and alarms from a module, from an old one without the last field, from one that ends too early, and without a module |
| `AciaProperties.GoodRun` | vice/src/aciacore.c:374-1219 | from a reset on, in every run of register accesses, alarms, resets, clock shifts and snapshot loads: recorded and pending deadlines agree; TDRE is clear while a byte waits; an active transmit alarm has something to do; the interrupt line follows the latch; the bytes sent in a session are, in order, the bytes written except the overwritten ones, each sent when the one before has left the line; this holds in all states if and only if every event is harmless |
| `AciaProperties.GoodStep` | vice/src/aciacore.c:790-885 | one step keeps all this if and only if it is harmless: a transmission whose deadline does not wrap; a whole module, old or new, whose transmitter state a good chip can have; a cut module whose status byte has no bit 7, whose command byte does not clear DTR under an open line, with no interrupt latched on a wired line, and which does not bring TDRE along while a byte waits; any other event |
| `AciaProperties.ResetGood` | vice/src/aciacore.c:642-674 | a reset establishes all of this from any state |
| `AciaProperties.StepKeeps` | vice/src/aciacore.c:374-1219 | agreement of recorded and pending deadlines survives every step; bit 7 of the stored status stays clear and the line closed without DTR in every step but the load of a cut module whose bytes say otherwise |
| `AciaProperties.StepHistory` | vice/src/aciacore.c:917-951 | the transmit history survives every step if and only if it is not a transmission over an open line whose deadline wraps |
| `AciaProperties.LoadKeeps` | vice/src/aciacore.c:790-885 | after a snapshot load the line follows the latch exactly if a whole module was read, no interrupt is wired or none was latched; the registers are sane exactly if the module was whole or its bytes are |
| `AciaProperties.SnapshotRoundTrip` | vice/src/aciacore.c:728-885 | save and load, into any chip at any time and whichever way the handshake goes, restores the registers that the module holds, transmitter, latch and status with fresh DSR and DCD; each deadline is restored exactly if its alarm was not due at that very moment |
| `AciaProperties.TimingRoundTrip` | vice/src/aciacore.c:728-885 | the extended control register is not saved: the loading chip keeps its own, and a character time that was that of the registers comes back, in a chip of the same kind, if and only if the chip is no Turbo232, CTRL % 16 is not 0, or both chips have the same rate in that register |
| `AciaProperties.LoadTransmitter` | vice/src/aciacore.c:790-885 | a whole module, with or without the last field, brings along a transmitter as good as its own fields say |
| `AciaProperties.SaveWritable` | vice/src/aciacore.c:728-768 | what a good chip writes is a snapshot that the run theorem admits |
| `AciaProperties.SurvivorsAppend` | vice/src/aciacore.c:1114-1150 | a write adds nothing to what is sent; a transmission adds the last byte written |
| `AciaProperties.TicksRange` | vice/src/aciacore.c:374-437 | a character takes at least one tick on any machine of 32915 cycles per second or more, and at most 1.2 seconds |
| `Decimal.ChainAdds` | vice/src/6510core.c:598-631 | chained additions of two numbers of any length give the exact sum modulo a power of one hundred, and the carry is the rest |
| `Decimal.ChainSubtracts` | vice/src/6510core.c:1396-1425 | chained subtractions give the exact difference, and a missing carry is the borrow |
| `Decimal.AddThenSubtract` | vice/src/6510core.c:598-1425 | subtracting what was added gives the first number back, for every adder and subtracter here |
| `Decimal.Adds6510` | vice/src/6510dtvcore.c:689-721 | the adder that both 6510 cores implement is exact |
| `Decimal.Subtracts6510` | vice/src/6510dtvcore.c:1342-1370 | the subtracter that both 6510 cores implement is exact |
| `DecimalCmos.Core65C02.Adc` | vice/src/65c02core.c:534-566 | sum, carry and overflow as on the 6510, N and Z from the result, one cycle more in decimal mode |
| `DecimalCmos.Core65C02.Sbc` | vice/src/65c02core.c:1197-1220 | the binary difference corrected afterwards, its overflow and carry those of the binary difference |
| `DecimalCmos.AllUnitsExact` | vice/src/65c02core.c:534-1220 | the 65C02 and 65816 adders and subtracters are exact on decimal operands |
| `DecimalCmos.AgreeWith6510` | vice/src/65816core.c:1365-2319 | on all operands, decimal or not, the 65C02 and the 65816 add as the 6510 does, and the 65816 subtracts as it does |
| `DecimalCmos.Agree65C02` | vice/src/65c02core.c:1197-1220 | the 65C02 subtracts as the 6510 does if and only if the low digits differ by no less than -10 |
| `DecimalCmos.Disagree65C02` | vice/src/65c02core.c:1197-1220 | 0 - $0B: the 6510 gets $9F, the 65C02 $8F |
| `Arithmetic65816.Adc8` | vice/src/65816core.c:1371-1393 | 8-bit addition in both modes |
| `Arithmetic65816.Sbc8` | vice/src/65816core.c:2284-2298 | 8-bit subtraction in both modes, by adding the complement |
| `Arithmetic65816.AdcDecimal16` | vice/src/65816core.c:1394-1418 | on all operands the 16-bit decimal addition is two chained 8-bit ones; the overflow flag takes the accumulator to be positive |
| `Arithmetic65816.SbcDecimal16` | vice/src/65816core.c:2303-2312 | on all operands the four-digit subtraction is two chained 8-bit ones, from whatever word is read as the accumulator |
| `Arithmetic65816.WordsAdd` | vice/src/65816core.c:1365-1426 | 16-bit decimal additions are exact |
| `Arithmetic65816.WordsSubtract` | vice/src/65816core.c:2278-2319 | 16-bit decimal subtractions that read the whole accumulator are exact |
| `Arithmetic65816.WordChainIsByteChain` | vice/src/65816core.c:1365-1426 | a chain of 16-bit operations of any length is the chain of the 8-bit operations of twice that length, whichever unit computes the bytes |
| `Arithmetic65816.WordChainsExact` | vice/src/65816core.c:1365-2319 | chains of 16-bit additions, and of 16-bit subtractions that read the whole accumulator, are exact for numbers of any length |
| `Arithmetic65816.SubtractAsWrittenRight` | vice/src/65816core.c:2303-2312 | as written, reading the 8-bit accumulator, the 16-bit subtraction of decimal numbers is right if and only if B is 0 |
| `Arithmetic65816.SubtractAsWrittenWrong` | vice/src/65816core.c:2303-2312 | 1000 - 1 as written gives 9999 and a borrow |
| `Arithmetic65816.OverflowAsWritten` | vice/src/65816core.c:1414-1414 | as written, the overflow flag of a 16-bit addition of decimal numbers is right if and only if the accumulator is below 8000, or the operand is 8000 or more exactly when the sum is between 8000 and 15999 |
| `Arithmetic65816.SumSign` | vice/src/65816core.c:1394-1418 | the sum of decimal numbers has its sign bit set, before the top digit is corrected, exactly when it is between 8000 and 15999 |
| `Arithmetic65816.OverflowAsWrittenWrong` | vice/src/65816core.c:1414-1414 | 8000 + 0 sets the overflow flag as written and must not |
| `Core65816.Core.AdcNarrow` | vice/src/65816core.c:1365-1426 | A and all flags of the 8-bit addition; B stays |
| `Core65816.Core.AdcWide` | vice/src/65816core.c:1365-1426 | C and all flags of the 16-bit addition |
| `Core65816.Core.SbcNarrow` | vice/src/65816core.c:2278-2319 | A and all flags of the 8-bit subtraction; B stays |
| `Core65816.Core.SbcWide` | vice/src/65816core.c:2278-2319 | C and all flags of the 16-bit subtraction as it is written |
| `Programs65816.RunBlockMove` | vice/src/65816core.c:1928-1955 | the opcode is fetched again before every execution, and the loop ends when the program counter moves or another opcode is found; if the move leaves its own instruction alone until its last execution, it is executed exactly n + 1 times from C = n and ends with C = $FFFF, the program counter behind it, X and Y moved n + 1 steps modulo their width, DBR the destination bank and memory the sequential copy |
| `BlockMoves.MoveRuns` | vice/src/65816core.c:1928-1955 | the same for every number of executions up to the last: before it the program counter stays on the opcode and the instruction found there is the one with which the move began |
| `BlockMoves.MoveRunsExactly` | vice/src/65816core.c:2575-2601 | every one of the n + 1 turns finds the instruction with which the move began if and only if it is found at every point of the sequential copy, for any place of the instruction |
| `BlockMoves.IntactExactly` | vice/src/65816core.c:1928-1955 | that is the case if and only if no byte but the last two changes the instruction, the last but one does not change the opcode, and the last execution, whose program counter wraps in its bank, finds the same operands |
| `BlockMoves.InsideBank` | vice/src/65816core.c:1928-1955 | inside a bank: if and only if each byte but the last that is stored over the instruction is the byte already there |
| `BlockMoves.AcrossBank` | vice/src/65816core.c:1928-1955 | across the end of a bank the last execution takes its source bank from the start of the bank, so a move with another byte there does not go on as it began |
| `BlockMoves.MoveOverItself` | vice/src/65816core.c:2575-2601 | a move whose first byte is another opcode stored over its own ends after one execution, with C one less and the program counter on the new opcode |
| `BlockMoves.MoveOfNopFails` | vice/src/65816core.c:2575-2601 | such a move: MVP at $1000 with C = 1, X = $3000, Y = $1000 and a NOP at $3000 |
| `BlockMoves.DisjointCopy` | vice/src/65816core.c:1957-1959 | when the regions do not overlap every byte arrives as it was |
| `BlockMoves.CopiedByte` | vice/src/65816core.c:1957-1959 | with overlapping regions a byte arrives unchanged if nothing was stored over its source before or over its destination after |
| `BlockMoves.CopiedElsewhere` | vice/src/65816core.c:1928-1955 | bytes that are no destination stay as they are |
| `BlockMoves.InterruptedRun` | vice/src/65816core.c:1928-1955 | interruptions between executions that keep the registers and the addresses in use change nothing, and the same opcodes are fetched |
| `BlockMoves.InterruptedMove` | vice/src/65816core.c:1928-1955 | so a move that leaves its instruction alone is carried out to its end, whatever keeps registers, instruction and source bytes interrupts it |
| `BlockMoves.HandlerAgrees` | vice/src/65816core.c:1727-1757 | an interrupt and its RTI are such an interruption |
| `Programs65816.RunProgram` | vice/src/65816core.c:2186-2214 | any program keeps, from a reset on, the stack in page one in emulation mode and narrow index registers below $100 |
| `Modes65816.RunWidths` | vice/src/65816core.c:317-331 | the same for the specification, with all instructions that move the stack pointer out of its page midway |
| `Modes65816.XceExchanges` | vice/src/65816core.c:2525-2545 | XCE exchanges the carry and the emulation flag; twice it restores both and, from emulation mode, everything but the width flags |
| `Modes65816.CallsReturn` | vice/src/65816core.c:1831-1882 | a call is undone by its return after every body that leaves the saved bytes alone if and only if: always for JSR; in emulation mode with SP at least $101 for JSR (addr,X) and at least $103 for JSL |
| `Modes65816.InterruptsResume` | vice/src/65816core.c:2220-2244 | interrupts, BRK and COP are transparent if and only if the processor is in native mode or the program bank is 0: emulation mode clears the bank and never restores it |
| `Core65816.Core.MoveMacro` | vice/src/65816core.c:1928-1955 | one execution of MVN or MVP |
| `Core65816.Core.JsrAbs` | vice/src/65816core.c:1831-1843 | both pushes wrap in emulation mode; Laws65816.CallReaches says where it goes |
| `Core65816.Core.JsrIndX` | vice/src/65816core.c:1845-1862 | only the second push wraps; the target address is fetched after them |
| `Core65816.Core.JsrLong` | vice/src/65816core.c:1864-1882 | bank and address are pushed, only the last push wraps; the new bank is fetched after the old one has been pushed |
| `Core65816.Core.RtsMacro` | vice/src/65816core.c:2265-2276 | both pulls wrap in emulation mode |
| `Core65816.Core.RtlMacro` | vice/src/65816core.c:2246-2263 | no pull wraps, the stack pointer is brought back into its page at the end |
| `Core65816.Core.RtiMacro` | vice/src/65816core.c:2220-2244 | status, widths, address and in native mode the bank |
| `Core65816.Core.EnterMacro` | vice/src/65816core.c:1534-1562 | BRK, COP, IRQ and NMI in both modes |
| `Core65816.Core.ExchangeCE` | vice/src/65816core.c:2525-2545 | mode change with its effect on widths and stack pointer |
| `Core65816.Core.RepSepMask` | vice/src/65816core.c:2144-2182 | the flags named by the mask; in emulation mode the width flags stay |
| `Core65816.Core.Transfer` | vice/src/65816core.c:2388-2489 | transfers between registers of all widths |
| `Core65816.Core.SetIndex` | vice/src/65816core.c:2372-2383 | index registers are truncated when they are narrow |
| `Core65816.Core.SetAccumulator` | vice/src/65816core.c:2447-2458 | an 8-bit accumulator keeps B |
| `Core65816.Core.PushTwoRaw` | vice/src/65816core.c:2001-2046 | PEA, PEI, PER and PHD: only the second push wraps |
| `Core65816.Core.Pld` | vice/src/65816core.c:2101-2115 | no pull wraps, the stack pointer is brought back into its page at the end |
| `Core65816.Core.SetStatus` | vice/src/65816core.c:2117-2127 | PLP and RTI truncate the index registers when they become narrow |
| `Core65816.Core.Res` | vice/src/65816core.c:2186-2214 | reset into emulation mode |
| `CbmDos.CommandParse.Parse` | vice/src/cbmdos.c:169-333 | drive, name up to the first comma, options and error codes of every command; all reads stay in the buffer |
| `CbmDos.CommandParse.FilePattern` | vice/src/cbmdos.c:211-229 | the pattern starts behind the first colon, a digit before it selects the drive; without a colon it is the whole command, CbmDosLaws.CommandParsed |
| `CbmDos.CommandParse.DirectoryPattern` | vice/src/cbmdos.c:188-210 | drive digit and colon of a directory command are skipped; an empty pattern behind a colon counts the NUL behind the command |
| `CbmDos.CommandParse.CopyName` | vice/src/cbmdos.c:240-253 | the name is the segment up to the first comma or the end |
| `CbmDos.CommandParse.ParseOptions` | vice/src/cbmdos.c:264-322 | the loop ends, the remaining length never goes below zero, and options take effect in order up to the first error |
| `CbmDos.CommandParse.OneOption` | vice/src/cbmdos.c:272-312 | one option letter; a record length at the very end of the command is an overflow, not a read behind it |
| `CbmDos.ParsePrinted` | vice/src/cbmdos.c:166-333 | parsing drive:name,type,mode gives back exactly drive, name, type, record length and mode, for every comma-free name and secondary address 2 and up |
| `CbmDos.WildcardCompare` | vice/src/cbmdos.c:125-148 | the loop over slots is the recursive matcher on unpadded names |
| `CbmDos.SlotsMatch` | vice/src/cbmdos.c:125-164 | slots of plain names match if and only if the first sixteen characters are equal |
| `CbmDos.DirSlotCreate` | vice/src/cbmdos.c:150-164 | sixteen bytes: the name, cut or padded |
| `CbmDos.WildcardCheck` | vice/src/cbmdos.c:113-123 | true exactly when a wildcard occurs |
| `Autostart.AutostartEndsWell` | vice/src/autostart.c:507-1086 | every run of a tape, disk or program autostart leaves warp mode as it was when it ends and types RUN at most once, if and only if it is not to type RUN or no bus callback of an earlier autostart is registered |
| `Autostart.Autostarter.WholeRun` | vice/src/autostart.c:634-1086 | the code keeps this over whole runs, whether or not it types RUN |
| `Autostart.StaleTypesTwice` | vice/src/autostart.c:634-687 | with such a callback there is a run that types RUN twice, for every kind of autostart |
| `Autostart.StaleReachable` | vice/src/autostart.c:1409-1431 | a reset while a disk autostart waits for the first bus attention leaves such a callback |
| `Autostart.RunKeeps` | vice/src/autostart.c:634-1022 | warp mode differs from its old value only while an autostart is in progress; RUN is typed only at its end |
| `Autostart.Autostarter.AutostartAdvance` | vice/src/autostart.c:966-1022 | all modes, with the delay and the wait for the reset |
| `Autostart.Autostarter.AdvanceHasDisk` | vice/src/autostart.c:794-871 | the three ways on from the READY prompt |
| `Autostart.Autostarter.AdvanceLoading` | vice/src/autostart.c:775-792 | ends by READY, by an error or by leaving the ROM; AutostartLaws.NoFails, NotYetWaits and YesAdvances say which of them types RUN |
| `Autostart.Autostarter.AdvanceWaitLoading` | vice/src/autostart.c:908-929 | SEARCHING FOR still on the screen is no error |
| `Autostart.Autostarter.CheckRomArea` | vice/src/autostart.c:530-558 | a program that starts itself ends the autostart without RUN |
| `Autostart.Autostarter.DiskEofCallback` | vice/src/autostart.c:684-717 | end of loading: RUN unless the autostart was reset, done, callback gone, warp off |
| `Autostart.Autostarter.AutostartReset` | vice/src/autostart.c:1409-1431 | a reset ends an autostart except the one that the autostart itself has triggered |
| `Autostart.Autostarter.RebootForAutostart` | vice/src/autostart.c:1025-1086 | the start of an autostart, warp mode saved and switched on |
| `Laws6510.AdcBinaryMeans` | vice/src/6510core.c:598-631 | binary ADC, for all operands: the result is the sum modulo 256, C says above 255, Z and N are those of the result, V says that the sum of the two signed numbers is outside -128 to 127; nothing else changes |
| `Laws6510.AdcDecimalMeans` | vice/src/6510core.c:598-631 | decimal ADC of decimal numbers: sum modulo 100, C from 100 on, Z of the binary sum, N from 80 to 159, V as the signs say with that N |
| `Laws6510.SbcMeans` | vice/src/6510core.c:1396-1425 | SBC in both modes: C says no borrow, Z and N are those of the binary difference, V says that the difference of the signed numbers does not fit; the binary result |
| `Laws6510.SbcDecimalMeans` | vice/src/6510core.c:1396-1425 | decimal SBC of decimal numbers: difference modulo 100, C says no borrow |
| `Laws6510.CompareMeans` | vice/src/6510core.c:846-877 | comparisons: C says at least, Z says equal, N is the sign of the difference, and no register changes |
| `Laws6510.LoadMeans` | vice/src/6510core.c:1082-1105 | loads: the register, and its N and Z |
| `Laws6510.OraMeans` | vice/src/6510core.c:1145-1152 | bit by bit or, with N and Z of the result |
| `Laws6510.AndMeans` | vice/src/6510core.c:642-649 | bit by bit and, with N and Z of the result |
| `Laws6510.EorMeans` | vice/src/6510core.c:942-949 | bit by bit exclusive or, with N and Z of the result |
| `Laws6510.BitMeans` | vice/src/6510core.c:748-758 | N and V are bits 7 and 6 of the operand, Z says that an AND would give zero |
| `Laws6510.UnofficialReads` | vice/src/6510core.c:1072-1080 | LAX is LDA and LDX in one, ANE an AND with X |
| `Laws6510.UnofficialShifts` | vice/src/6510core.c:738-746 | ASR is AND and LSR A in one, ANC an AND with N copied to C |
| `Laws6510.UnofficialTransfers` | vice/src/6510core.c:1427-1437 | SBX compares A AND X and keeps the difference; LXA and LAS are ANDs into two and three registers |
| `Laws6510.ArrBinaryMeans` | vice/src/6510core.c:680-711 | ARR in binary mode is a nine-bit rotation of the AND, with C and V from bits 6 and 5 of the result |
| `Laws6510.ArrDecimalMeans` | vice/src/6510core.c:680-711 | ARR in decimal mode: each digit of the AND from 5 on adds 6 to its nibble of the rotated byte, and the high one sets C |
| `Laws6510.ShiftsLeft` | vice/src/6510core.c:713-736 | ASL and ROL lose no bit: byte and carry before and after are the same number |
| `Laws6510.ShiftsRight` | vice/src/6510core.c:1107-1130 | LSR and ROR lose no bit |
| `Laws6510.CountMeans` | vice/src/6510core.c:951-962 | INC and DEC count modulo 256 and keep C |
| `Laws6510.ShiftsWithOr` | vice/src/6510core.c:1516-1533 | SLO is ASL and ORA in one |
| `Laws6510.RotatesWithAnd` | vice/src/6510core.c:1213-1228 | RLA is ROL and AND in one |
| `Laws6510.ShiftsWithXor` | vice/src/6510core.c:1557-1574 | SRE is LSR and EOR in one |
| `Laws6510.RotatesWithAddition` | vice/src/6510core.c:1304-1322 | RRA is ROR and ADC in one, with the carry that was rotated out |
| `Laws6510.CountsWithComparison` | vice/src/6510core.c:879-893 | DCP is DEC and CMP in one |
| `Laws6510.CountsWithSubtraction` | vice/src/6510core.c:978-991 | ISB is INC and SBC in one |
| `Laws6510.TransferMeans` | vice/src/6510core.c:1660-1699 | transfers copy and set N and Z, TXS without flags |
| `Laws6510.IndexMeans` | vice/src/6510core.c:964-976 | index registers count modulo 256 with N and Z |
| `Laws6510.StatusByte` | vice/src/6510core.c:1181-1186 | the status byte is N V 1 B D I Z C |
| `Laws6510.StatusBits` | vice/src/6510core.c:1199-1211 | and is read back bit by bit |
| `Laws6510.ReadMeans` | vice/src/6510core.c:473-505 | a reading instruction in any of the nine modes takes its byte from the address that the mode is documented for, changes registers only, and takes one cycle more exactly if indexing leaves the page |
| `Laws6510.WriteMeans` | vice/src/6510core.c:519-559 | a store in any mode writes its register there, and only memory changes |
| `Laws6510.ModifyMeans` | vice/src/6510core.c:533-537 | a read-modify-write in any mode replaces the byte it has read |
| `Laws6510.AccumulatorMeans` | vice/src/6510core.c:1265-1302 | on the accumulator it replaces A |
| `Laws6510.UnstableMeans` | vice/src/6510core.c:539-579 | SHA, SHX, SHY and SHS: the byte is masked with the high byte of the base address plus one, and becomes the high byte of the address when the page is left |
| `Laws6510.StoresUnstable` | vice/src/6510dtvcore.c:650-670 | with a stolen cycle the byte is not masked, the address still is |
| `Laws6510.ImpliedMeans` | vice/src/6510core.c:1660-1699 | an instruction on registers touches no memory and takes two cycles |
| `Laws6510.FlagMeans` | vice/src/6510core.c:819-844 | the flag instructions set or clear their flag and nothing else |
| `Laws6510.PushMeans` | vice/src/6510core.c:1174-1179 | PHA puts A on the stack, three cycles |
| `Laws6510.PushStatusMeans` | vice/src/6510core.c:1181-1186 | PHP puts the status with B on the stack, three cycles |
| `Laws6510.PullMeans` | vice/src/6510core.c:1188-1196 | PLA takes A with its N and Z from the stack, four cycles |
| `Laws6510.PullStatusMeans` | vice/src/6510core.c:1199-1211 | PLP takes all flags from the stack, four cycles |
| `Laws6510.JumpMeans` | vice/src/6510core.c:1033-1036 | JMP goes to the word behind the opcode |
| `Laws6510.IndirectJumpMeans` | vice/src/6510core.c:1038-1046 | JMP (addr) goes to the word at addr, whose high byte is read in the same page |
| `Laws6510.CallGoesTo` | vice/src/6510core.c:1048-1060 | JSR goes to the word behind the opcode, its high byte as the pushes have left it |
| `Laws6510.CallStacks` | vice/src/6510core.c:1048-1060 | and leaves the address of its last byte on the stack, the high byte first |
| `Laws6510.ReturnMeans` | vice/src/6510core.c:1365-1376 | RTS goes one behind the address on the stack |
| `Laws6510.InterruptReturnMeans` | vice/src/6510core.c:1353-1363 | RTI takes flags and address from three bytes of the stack |
| `Laws6510.BranchMeans` | vice/src/6510core.c:761-778 | each of the eight branches asks its flag, goes a signed distance from the next instruction, and takes one cycle more when taken and two when that is in another page |
| `Laws6510.BrkGoesTo` | vice/src/6510core.c:781-817 | BRK goes through $FFFE, or through $FFFA when an NMI takes it over, with B and I set |
| `Laws6510.InterruptGoesTo` | vice/src/6510core.c:373-462 | IRQ and NMI go through their vectors with I set and B clear; a masked IRQ does nothing |
| `Laws6510.TrapStacks` | vice/src/6510core.c:373-462 | address and status are on the stack |
| `Laws6510.Interrupted` | vice/src/6510core.c:373-462 | a BRK is returned from two bytes further on, an interrupt where it came |
| `Laws6510.CycleTable` | vice/src/6510core.c:2082-3058 | the published cycles of all 256 opcodes without page crossings and taken branches |
| `LawsCmos.AddMeans` | vice/src/65c02core.c:534-566 | ADC of the 65C02 and the 8-bit 65816: sum, C and V as on the 6510 in both modes, N and Z of the result |
| `LawsCmos.SubtractMeans` | vice/src/65c02core.c:1197-1220 | both subtracters: C and V of the binary difference in both modes, N and Z of the result, decimal differences exact |
| `Laws65816.CallGoesTo` | vice/src/65816core.c:1831-1843 | JSR goes to the word at pc + 1 and pc + 2, changes no register, and leaves exactly the two bytes of the address of its last byte on the stack |
| `Laws65816.CallReaches` | vice/src/65816core.c:1831-1882 | for every target whose low and high byte stand behind the opcode JSR and JSL go to that target |
| `Laws65816.IndexedCallGoesTo` | vice/src/65816core.c:1845-1862 | JSR (addr,X) goes to the word at addr + X in the program bank, in memory as the pushes have left it |
| `Laws65816.LongCallGoesTo` | vice/src/65816core.c:1864-1882 | JSL goes to the word behind the opcode in the bank at pc + 3, or in the old bank if its push has just overwritten that byte; bank and address are on the stack |
| `Laws65816.InterruptGoesTo` | vice/src/65816core.c:1534-1991 | BRK, COP, IRQ and NMI go to bank 0 through the seven vectors, with I set and D clear, and in emulation mode the break flag tells which |
| `Laws65816.InterruptStacks` | vice/src/65816core.c:1534-1991 | and leave the bank in native mode, the address to return to and the status byte on the stack, and nothing else |
| `Laws65816.ResetGoesTo` | vice/src/65816core.c:2186-2214 | reset goes to bank 0 through $FFFC |
| `Laws65816.IndexMeans` | vice/src/65816core.c:1681-1899 | an index register takes what fits into its width, with N and Z in that width |
| `Laws65816.TransferMeans` | vice/src/65816core.c:2372-2458 | transfers in the width of the register they go to; a narrow accumulator keeps its high byte |
| `Laws65816.WideTransferMeans` | vice/src/65816core.c:2388-2442 | TCD, TDC and TSC are wide in every mode |
| `Laws65816.StackTransferMeans` | vice/src/65816core.c:2396-2471 | TCS and TXS keep the emulation stack in page one and set no flags |
| `Laws65816.ExchangeBytesMeans` | vice/src/65816core.c:2513-2523 | XBA exchanges the halves of C, twice it does nothing |
| `Laws65816.PushMeans` | vice/src/65816core.c:2001-2082 | pushes leave exactly the bytes of the register in its width on the stack, the high one first |
| `Laws65816.PullMeans` | vice/src/65816core.c:2084-2138 | pulls take a register in its width from the stack |
| `Laws65816.PullBankMeans` | vice/src/65816core.c:2095-2099 | PLB takes the data bank with N and Z |
| `Laws65816.PullDirectMeans` | vice/src/65816core.c:2101-2115 | PLD takes two bytes without the wrap of the emulation mode, which then brings the stack pointer back |
| `Laws65816.PullStatusMeans` | vice/src/65816core.c:2117-2127 | PLP takes all eight bits, and index registers that become narrow lose their high bytes |
| `Laws65816.SetModeMeans` | vice/src/65816core.c:2144-2182 | SEP sets and REP clears exactly the flags of the mask, the width flags in native mode only, with the index registers truncated |
| `Laws65816.ExchangeMeans` | vice/src/65816core.c:2525-2545 | what XCE does to widths, index registers and stack pointer both ways, and that nothing else changes |
| `BlockMoveLaws.MoveCopies` | vice/src/65816core.c:1928-1959 | MVN copies C + 1 bytes upwards and MVP downwards from X in the bank of the third byte to Y in the bank of the second, in the width of the index registers: every byte arrives and nothing else in memory changes, if the destination is neither source nor instruction |
| `AciaLaws.ReceptionMeans` | vice/src/aciacore.c:1176-1219 | a byte that arrives on the open line is what the data register reads next; full is set, overrun exactly if full was set before, and the interrupt exactly if bit 1 of CMD is clear |
| `AciaLaws.NoReceptionMeans` | vice/src/aciacore.c:1176-1219 | on a closed line, or when nothing arrives, data, flags and interrupt stay |
| `AciaLaws.ReadsEveryByte` | vice/src/aciacore.c:1005-1219 | over every run without resets and snapshots: a program that reads the data register when the status says full gets every byte that arrives, once and in order, up to the one still held, as long as none is lost; overrun is set exactly if one was; and bytes read, held and lost add up to bytes held before and arrived |
| `AciaLaws.ReadsLastArrival` | vice/src/aciacore.c:1005-1219 | in every run without snapshot loads a read of the data register gives the last byte that has arrived |
| `AciaLaws.SavedMeans` | vice/src/aciacore.c:728-768 | a snapshot holds the registers, the status byte as it reads, and the distances to both alarms, 0 for none |
| `AciaLaws.LoadedData` | vice/src/aciacore.c:790-885 | a snapshot brings the byte of its module |
| `AciaLaws.LoadedLines` | vice/src/aciacore.c:790-885 | a snapshot opens or closes the line by its DTR bit, but sets RTS and DTR only if the line was closed before |
| `AciaLaws.ReceptionPeriod` | vice/src/aciacore.c:374-436 | the line is asked again a reception time later, and a new rate counts from when it is set |
| `AciaLaws.InterruptMeans` | vice/src/aciacore.c:897-1219 | which events latch the interrupt and which clear it |
| `AciaLaws.StatusMeans` | vice/src/aciacore.c:1005-1061 | the status register bit by bit; reading it clears the interrupt |
| `AciaLaws.CommandMeans` | vice/src/aciacore.c:586-625 | RTS, DTR, the line, the receiver and the transmitter after a write to the command register |
| `AciaLaws.WriteMeans` | vice/src/aciacore.c:917-932 | a byte written with DTR on waits for the transmitter, which starts one cycle later if it is idle; without DTR only the register changes |
| `AciaLaws.TransmissionMeans` | vice/src/aciacore.c:1114-1150 | the byte goes out if the line is open, the register is empty, and the transmitter is busy for one character time and then idle |
| `AciaLaws.ProgrammedResetMeans` | vice/src/aciacore.c:933-951 | a programmed reset closes the line, stops both alarms, clears interrupt and overrun and keeps the upper bits of the command register |
| `AciaLaws.ReadsBack` | vice/src/aciacore.c:897-1061 | command, control and rate register read as written; bit 2 of the latter says that it is in use |
| `AciaLaws.CharacterTime` | vice/src/aciacore.c:199-436 | the character time is that of start, data, parity and stop bits at the rate of the table, rounded down, and a reception takes a quarter more |
| `CbmDosLaws.ParseCommand` | vice/src/cbmdos.c:170-333 | parsing gives back what was printed, for every command: any name without a comma, bare or behind a colon with anything in front, any list of types, modes, record lengths and unknown words in any order, every secondary address; name, drive, type, mode, record length and error code |
| `CbmDosLaws.CommandParsed` | vice/src/cbmdos.c:211-333 | the same of the functions that specify the parser |
| `CbmDosLaws.OptionsParsed` | vice/src/cbmdos.c:264-322 | the options of a text, taken one after the other up to the first that is wrong |
| `CbmDosLaws.PlainCommands` | vice/src/cbmdos.c:211-333 | in particular NAME and NAME,type,mode with secondary addresses 0, 1 and 2 |
| `CbmDosLaws.ColonDecides` | vice/src/cbmdos.c:211-229 | a command is read from its beginning exactly if it has no colon |
| `CbmDosLaws.ColonLength` | vice/src/cbmdos.c:211-229 | so a record length of 58, the code of a colon, hides the name in front of it |
| `CbmDosLaws.ParseDirectory` | vice/src/cbmdos.c:188-210 | drive and pattern of $, $1, $pattern, $0:pattern and the like; a colon with nothing behind it gives a pattern that matches nothing |
| `CbmDosLaws.DirectoryParsed` | vice/src/cbmdos.c:188-210 | the same of the functions that specify the parser |
| `CbmDosLaws.MatchesMeans` | vice/src/cbmdos.c:125-148 | a name matches exactly if it begins like the part of the pattern in front of the first star, any character for a question mark, and ends there if there is no star |
| `AutostartLaws.NoFails` | vice/src/autostart.c:732-951 | in every mode anything else than what is expected on the screen ends the autostart with an error, nothing typed and warp mode back; a remaining SEARCHING FOR is the only exception |
| `AutostartLaws.InjectionMeans` | vice/src/autostart.c:953-962 | so does an injection that fails |
| `AutostartLaws.NotYetWaits` | vice/src/autostart.c:530-556 | a program that leaves the Kernal for RAM while it is loaded ends the autostart, nothing typed and warp mode back; otherwise an autostart without an answer waits |
| `AutostartLaws.YesAdvances` | vice/src/autostart.c:732-951 | the mode behind every expected answer, and that RUN is typed exactly when the program has been loaded |
| `AutostartLaws.TypesExactly` | vice/src/autostart.c:634-1022 | RUN is typed by the end of a file and by READY in LOADINGTAPE, WAITLOADREADY and, without traps and warp, HASDISK, and by no other step |
| `AutostartLaws.RunTypes` | vice/src/autostart.c:634-1022 | over runs: RUN is typed exactly as often as such steps occur |
| `AutostartLaws.NeedsAnswers` | vice/src/autostart.c:732-1022 | in any run without the end of a file RUN is not typed before all the answers have come that the mode still needs, and never after an error |
| `AutostartLaws.PatientSucceeds` | vice/src/autostart.c:732-1022 | with those answers, however long each takes, the program is loaded, RUN is typed once if that is wanted, and warp mode is back |
| `AutostartLaws.StartSucceeds` | vice/src/autostart.c:966-1086 | this holds from the start of a tape, disk or program autostart on, through the reset it causes and the delay |
| `AutostartLaws.TrapsSucceed` | vice/src/autostart.c:684-860 | when traps serve the drive the end of the file types RUN |

## Left out

- Memory is plain RAM: dummy reads, I/O side effects, memory mapping and the bank-pointer fast fetch of both 6510 cores.
- The clock of the 6510 models is unbounded; `Cosimulation.RunLater` shows that runs do not depend on where it starts, so a 32-bit clock shows the same values modulo 2^32.
- When an interrupt is due is part of the run: the delay rules of `interrupt_check_*_delay`, the opcode information bits and the clock of a pending NMI become inputs of `DoInterrupt` and `Brk`.
- JAM ends a run; ROM traps, the monitor, DMA, CPU history, refresh cycles, `DRIVE_CPU`, 8502 and C64DTV variants are not modelled.
- ANE and LXA use the constants of the source, and neither core's runs contain stolen cycles: only the cycle core's SHx stores know about them.
- Bit 5 of the 6510's `reg_p` is not kept; every use of it goes through `P_UNUSED`.
- The 65816 model counts no cycles and leaves out interrupt checks, WAI, STP, traps and the addressing modes of loads and stores: a loaded value comes in with the instruction, a store is a write to some address.
- Core65816.Core.MoveMacro: addresses beyond bank $FF, which a program counter at the end of that bank could produce, are ordinary addresses here.
- AlarmLoop.Machine.ProcessAlarms: callbacks do not move the clock, create or destroy alarms; at most 256 alarms exist; at clock 2^32 - 1, the mark of an empty queue, the source goes on with an entry that may not exist.
- Acia6551.Acia.Store: `acia_set_irq`, `acia_set_mode`, `myacia_peek`, resources and the serial driver are not modelled; whether the device opens, the DSR line and received bytes are inputs.
- Baud rates are real numbers; rounding of the floating-point quotient is not modelled.
- Alarm names and the release of memory are not modelled; a destroyed alarm is one that is in no list.
- CbmDos.CommandParse.Parse: `parsecmd` is a sequence, empty where the source leaves it NULL; for directory commands the buffer is taken to have two NULs behind the command, since the parser may count the first one as part of it.
- Error texts and file type names of `cbmdos.c` are tables without behaviour.
- Autostart.AutostartEndsWell: true drive emulation, program names, the C128 column key, the monitor trigger and other keyboard input are left out; whether traps serve the drive is an input; snapshot autostarts are modelled but not part of the property, since a reset may use a warp value saved earlier.
