# SCARV XCrypto decoder test bench, modelled in Dafny

This project models the Verilator test bench of the SCARV XCrypto
co-processor's instruction decoder and proves properties of the model.

- **Decode checker.** On every clock cycle the bench reads the decoder's
  probes: the encoded instruction word, the `init` flag and nine subclass
  words. It checks them against an exact-match rule for `xc.init` and 71
  mask/match rules. Each rule says that an encoding matching the rule's
  pattern under its mask must raise one named bit of one subclass word. A
  failed check prints a line and clears the global verdict `passed`.
- **Clock driver.** `clockSpin(n)` evaluates the circuit at clock low and at
  clock high, n times. Each cycle advances `cpuTime` by two ticks and
  `mCycleCnt` by one, and runs the decode checker once.
- **Debug access handshake.** A read or write of a debug register raises
  `debug_req_i` and spins until `debug_gnt_o`, then drops the request. A read
  then spins until `debug_rvalid_o` and takes `debug_rdata_o`.
  `waitForDebugStall` reads the control register until its halt flag shows.
- **Program loader.** `writeInstr` pokes a word into RAM as four
  little-endian bytes. `loadProgram` stores 72 words from address 0x80: one
  encoding per rule, plus `xc.init`.
- **Main scenario.** Reset for five cycles, then load the program. Halt, spin
  five cycles while halted, then arm traps. Resume for 73 cycles, then halt
  again and wait for the halt. The process exits with
  `!passed`.
- **Constant tables.** The instruction class, status, subclass-index and
  packed-width constants of `scarv_cop_common.h`.

The Verilated circuit is an oracle of type `seq<Stimulus> -> Outputs`. Its
outputs after an evaluation are any function of every evaluation so far
(clock level and input pins) and every RAM poke. Nothing is assumed about
it: each property of the bench holds for every circuit.

Modules:

- `CopCommon` (`cop_common.dfy`): the header constants.
- `DecodeCheck` (`decode_check.dfy`): rules, snapshots and the checker, for
  any rule table.
- `RuleTable` (`rule_table.dfy`): the 71 rules in check order.
- `ProgramImage` (`program_image.dfy`): 32-bit addresses, RAM as a map from
  address to byte, word stores and the program image.
- `Testbench` (`testbench.dfy`): the `Testbench` class. Its fields are the
  source's globals (`cpuTime`, `mCycleCnt`, `passed`), the pins it drives,
  the stimuli so far, the RAM, the printed lines and a ghost trace of cycles.
  Its methods are the source's functions.

The class invariant `Valid` states five things:

- `cpuTime == 2 * mCycleCnt`;
- there is one trace entry per counted cycle;
- `passed` holds exactly when every check of every cycle passed;
- the printed lines are the diagnostics of every cycle, in order;
- the outputs last read are those of the last cycle in the trace.

A second invariant, `Faithful`, ties the trace to the stimuli: the trace is
`CyclesOf(circuit, history)`. That is one cycle per clock-high evaluation,
showing its pins and the outputs right after it. Clock-low evaluations and
RAM pokes make no cycle.

Which operation keeps which invariant:

- `EvalAt` and `EndCycle` are the two halves of one cycle. `Valid` does not
  hold between them; `EndCycle` restores it.
- `SpinOnce`, `ClockSpin` and the handshake steps (`AwaitGrant`,
  `AwaitReadData`, `Request`, `DebugAccess`) keep `Valid`. They state the new
  stimuli and cycles exactly, and the lemma `SpinCyclesAreCycles` turns that
  statement into `Faithful`.
- `DebugRead`, `DebugWrite` and every later operation promise both
  invariants. They also promise that earlier stimuli and cycles are kept,
  with new ones only added after them.
- The RAM pokes (`PokeByte`, `WriteInstr`, `LoadProgram`) leave the cycles
  of the stimuli unchanged.

## Model

| member | source | states |
|---|---|---|
| CopCommon.SubclassesContiguous | verilator-model/scarv_cop_common.h:29-107 | each class numbers its subclass bits 0, 1, ..., size - 1 in the order the header lists them |
| CopCommon.SubclassesDistinct | verilator-model/scarv_cop_common.h:29-107 | within a class no two subclasses share a bit index |
| CopCommon.SubclassGroupSizes | verilator-model/scarv_cop_common.h:29-107 | the class sizes: sha3 5, move 4, permute 3, load/store 16, bitwise 7, palu 12, mp 15, random 3, aes 6 |
| CopCommon.SubclassesBelow16 | verilator-model/scarv_cop_common.h:29-107 | every subclass index is below 16, so `1 << k` is a bit of a 32-bit word |
| CopCommon.ClassAndStatusCodes | verilator-model/scarv_cop_common.h:11-27 | the class codes are exactly 0..8, distinct; the status codes are exactly 0..6, distinct, with SUCCESS = 0 |
| CopCommon.PackWidthCodes | verilator-model/scarv_cop_common.h:111-115 | the code for lane width 2^k is 5 - k, strictly decreasing as the width doubles |
| DecodeCheck.Fires | verilator-model/testbench.cpp:80-575 | definition: a rule applies to an encoding when the encoding masked by the rule's mask equals its match pattern |
| DecodeCheck.RuleHolds | verilator-model/testbench.cpp:80-575 | definition: a rule is satisfied when it does not apply or its class's subclass word has its bit set |
| DecodeCheck.InitHolds | verilator-model/testbench.cpp:62-68 | definition: the exact xc.init encoding must come with a non-zero init flag; any other encoding satisfies the init check |
| DecodeCheck.SnapshotOk | verilator-model/testbench.cpp:58-577 | definition: one check passes when the init check and every rule of the table hold |
| DecodeCheck.Diagnostics | verilator-model/testbench.cpp:58-577 | definition: the lines one check prints, the init line first if that check fails, then the mnemonic of every failed rule in table order |
| DecodeCheck.Failures | verilator-model/testbench.cpp:80-575 | the failure lines of the rule checks: none exactly when every rule holds; no more lines than rules; each names the mnemonic of a rule that fired without its subclass bit |
| DecodeCheck.FailuresStepHolds | verilator-model/testbench.cpp:80-575 | checking one more rule that holds prints nothing more |
| DecodeCheck.FailuresStepFails | verilator-model/testbench.cpp:80-575 | checking one more rule that fails appends exactly its mnemonic |
| DecodeCheck.CheckRules | verilator-model/testbench.cpp:80-575 | the loop over the table in order: `ok` holds exactly when every rule holds, and the printed lines are the failures in table order |
| DecodeCheck.DiagnosticsEmptyIff | verilator-model/testbench.cpp:58-577 | one check prints nothing exactly when it passes (init check and every rule) |
| DecodeCheck.FailedRuleReported | verilator-model/testbench.cpp:80-575 | a rule that fires while its subclass bit is clear fails the check, and its mnemonic is printed |
| DecodeCheck.FailedRuleListed | verilator-model/testbench.cpp:80-575 | a failed rule's mnemonic is among the failure lines |
| DecodeCheck.RuleOrderIrrelevant | verilator-model/testbench.cpp:80-575 | any permutation of the rule table passes and fails on the same snapshots |
| DecodeCheck.ChecksConjoin | verilator-model/testbench.cpp:80-575 | the rules are independent: a snapshot passes a table made of two parts exactly when it passes both |
| DecodeCheck.PatternFires | verilator-model/testbench.cpp:80-575 | a rule whose pattern lies within its mask fires on its own pattern |
| DecodeCheck.ForeignOpcodeFiresNothing | verilator-model/testbench.cpp:80-575 | a rule in the custom-1 opcode slot does not fire on a word whose bits [6:0] are not 0x2B |
| DecodeCheck.ForeignOpcodePasses | verilator-model/testbench.cpp:58-577 | when every rule is in the custom-1 slot, a word outside it passes the check and prints nothing |
| DecodeCheck.RaisedBitsCover | verilator-model/testbench.cpp:80-575 | the subclass word made of the bits of every firing rule has the bit of each firing rule |
| DecodeCheck.ConformingDecoderPasses | verilator-model/testbench.cpp:58-577 | any snapshot passes if each subclass word contains every bit a firing rule asks for, and `init` is set for xc.init. This holds on every encoding, whatever else the words hold and whatever the rule overlaps |
| DecodeCheck.ExactDecoderPasses | verilator-model/testbench.cpp:58-577 | in particular, the decoder that raises exactly the bits of the firing rules, and `init` for xc.init, passes |
| RuleTable.RuleAt | verilator-model/testbench.cpp:80-575 | definition: rule i of the table is the mask, match pattern, class, subclass bit and mnemonic of the i-th test, in the order the bench makes them |
| RuleTable.RuleWellFormed | verilator-model/testbench.cpp:80-575 | each rule sits in the custom-1 opcode slot, its pattern lies within its mask, it does not fire on xc.init and its bit is below 16 |
| RuleTable.RulesWellFormed | verilator-model/testbench.cpp:80-575 | every rule of the table is well formed |
| RuleTable.RulesOpcodeSlotted | verilator-model/testbench.cpp:80-575 | every mask covers 0x7F and every pattern has 0x2B in bits [6:0] |
| RuleTable.PatternsWithinMasks | verilator-model/testbench.cpp:80-575 | every rule fires on its own pattern |
| RuleTable.RuleBitsBelow16 | verilator-model/testbench.cpp:80-575 | every bit a rule tests is below 16 |
| RuleTable.InitFiresNoRule | verilator-model/testbench.cpp:62-68 | the xc.init encoding fires no mask/match rule: only the init check applies to it |
| RuleTable.ForeignWordPasses | verilator-model/testbench.cpp:80-575 | a word whose bits [6:0] are not 0x2B passes every check and prints nothing, whatever the subclass words hold |
| RuleTable.ZeroWordPasses | verilator-model/testbench.cpp:80-575 | the all-zero encoding passes every check |
| RuleTable.StubbedXcr2gprFails | verilator-model/testbench.cpp:80-85 | an xc.xcr2gpr encoding with the move class's xcr2gpr bit clear fails the check and prints the xc.xcr2gpr line |
| RuleTable.EverySubclassChecked | verilator-model/testbench.cpp:80-575 | every subclass bit of every class is tested by a rule of the table, as many rules as subclass bits, so the correspondence is one to one |
| RuleTable.SubclassCountMatchesRules | verilator-model/scarv_cop_common.h:29-107 | the nine classes have 71 subclasses in all, one per rule |
| ProgramImage.StoreWord | verilator-model/testbench.cpp:658-665 | definition: the RAM after the four byte writes of one word, least significant byte at the lowest address |
| ProgramImage.StoreWords | verilator-model/testbench.cpp:668-679 | definition: the RAM after storing the words one after another at consecutive word addresses |
| ProgramImage.AddrAdd | verilator-model/testbench.cpp:658-665 | address arithmetic is 32-bit: without overflow it is plain addition |
| ProgramImage.LittleEndianBytes | verilator-model/testbench.cpp:658-665 | the four bytes `(w >> 8i) & 0xFF`, put back together least significant first, give w |
| ProgramImage.StoredBytes | verilator-model/testbench.cpp:658-665 | after a word store, byte i of the word is at `addr + i` |
| ProgramImage.LoadStoreWord | verilator-model/testbench.cpp:658-665 | storing a word and reading its four bytes back little-endian yields the word, at any address |
| ProgramImage.StoreWordFrame | verilator-model/testbench.cpp:658-665 | a word store adds exactly its four addresses and changes no other byte |
| ProgramImage.StoreWordKeeps | verilator-model/testbench.cpp:658-665 | a word store leaves a word stored wholly below it intact |
| ProgramImage.StoreWordsNext | verilator-model/testbench.cpp:676-678 | storing i + 1 words is storing i words, then word i at `base + 4i` |
| ProgramImage.StoreWordsLast | verilator-model/testbench.cpp:676-678 | the last stored word reads back from its own address |
| ProgramImage.StoreWordsKeep | verilator-model/testbench.cpp:676-678 | storing a further word keeps the earlier words |
| ProgramImage.StoreWordsLayout | verilator-model/testbench.cpp:668-679 | after storing consecutive words, word i reads back from `base + 4i` |
| ProgramImage.StoreWordsFrame | verilator-model/testbench.cpp:668-679 | storing consecutive words changes no byte outside `base .. base + 4n` |
| ProgramImage.ProgramWord | verilator-model/testbench.cpp:672 | definition: word j of the program image, the j-th entry of the instruction array |
| ProgramImage.Slot | verilator-model/testbench.cpp:672 | the image word for rule i: word i for rules 0 and 1, word i + 1 after the xc.init word |
| ProgramImage.SlotCovers | verilator-model/testbench.cpp:672 | rule i fires on the image word at its slot |
| ProgramImage.ProgramCoversRules | verilator-model/testbench.cpp:672 | the image has 72 words, word 2 is the xc.init encoding, and every rule fires on its slot's word, so every rule is exercised |
| ProgramImage.LoadedInit | verilator-model/testbench.cpp:668-679 | once loaded, address 0x88 holds the xc.init encoding |
| ProgramImage.LoadedCoversRule | verilator-model/testbench.cpp:668-679 | once loaded, `0x80 + 4 * Slot(i)` holds a word that fires rule i |
| ProgramImage.LoadedFrame | verilator-model/testbench.cpp:668-679 | loading the image changes no byte outside 0x80..0x19F |
| Testbench.CyclesOf | verilator-model/testbench.cpp:581-597 | definition: the cycles a history of stimuli makes, one per clock-high evaluation, each showing its pins and the outputs right after it |
| Testbench.SpinAdvance | verilator-model/testbench.cpp:581-597 | one more cycle extends the stimuli by a low and a high evaluation and the trace by the cycle after them |
| Testbench.SpinMore | verilator-model/testbench.cpp:581-597 | spinning one cycle after i cycles is spinning i + 1 cycles, for the stimuli and for the trace |
| Testbench.SpinAt | verilator-model/testbench.cpp:583-591 | cycle k of a spin is a clock-low evaluation followed by a clock-high evaluation with the same pins |
| Testbench.SpinCyclesAt | verilator-model/testbench.cpp:589-594 | the check of cycle k sees the outputs after the high-phase evaluation of that cycle |
| Testbench.PokeMakesNoCycle | verilator-model/testbench.cpp:658-665 | a RAM poke adds no cycle to the trace |
| Testbench.CycleMakesCycle | verilator-model/testbench.cpp:583-594 | a clock-low then clock-high evaluation with pins p adds exactly one cycle, showing p and the outputs after the high phase |
| Testbench.CyclesUpToExtend | verilator-model/testbench.cpp:581-597 | later stimuli do not change the cycles the earlier stimuli made |
| Testbench.SpinCyclesAreCycles | verilator-model/testbench.cpp:581-597 | the cycles `clockSpin` records are exactly the cycles its stimuli make |
| Testbench.SpinCyclesPins | verilator-model/testbench.cpp:581-597 | every cycle of a spin runs with the pins set before it |
| Testbench.Log | verilator-model/testbench.cpp:58-597 | definition: the lines a run prints, every cycle's check lines cycle after cycle |
| Testbench.ExitStatus | verilator-model/testbench.cpp:743 | the exit status is 0 exactly when the run passed, and 1 otherwise |
| Testbench.LogEmptyIff | verilator-model/testbench.cpp:58-577 | a run printed no diagnostic line exactly when every check of every cycle passed |
| Testbench.FailedCycleFailsRun | verilator-model/testbench.cpp:743 | one failed check on any cycle makes the exit status 1 and prints a line |
| Testbench.VerdictMonotone | verilator-model/testbench.cpp:56-577 | the verdict is only ever lost: later cycles never restore it |
| Testbench.VerdictStep | verilator-model/testbench.cpp:58-577 | the verdict after one more cycle is the earlier verdict and that cycle's check |
| Testbench.LogStep | verilator-model/testbench.cpp:58-577 | the lines after one more cycle are the earlier lines followed by that cycle's |
| Testbench.CheckedCycle | verilator-model/testbench.cpp:58-577 | checking one more cycle keeps the verdict and the printed lines in step with the trace |
| Testbench.RequestPins | verilator-model/testbench.cpp:602-609 | a request raises `debug_req_i` and drives the address and write-enable, plus the data for a write only; reset, interrupt and fetch-enable are kept |
| Testbench.ReleasePins | verilator-model/testbench.cpp:619 | dropping the request lowers only `debug_req_i` |
| Testbench.HandshakePins | verilator-model/testbench.cpp:600-631 | the cycles of an access granted after g cycles and answered k cycles later: the first g show the request raised for that address, write-enable and write data; the k after show the same address and write-enable with the request dropped; reset, interrupt and fetch-enable are unchanged throughout |
| Testbench.LowBetweenAll | verilator-model/testbench.cpp:612-628 | the recursive "line stayed low" predicate is the same as "no sample in the range showed the line" |
| Testbench.SetHalt | verilator-model/testbench.cpp:710 | the written control word has the halt flag set and every other bit as read |
| Testbench.ClearHalt | verilator-model/testbench.cpp:721 | the written control word has the halt flag clear and every other bit as read |
| Testbench.Testbench.constructor | verilator-model/testbench.cpp:34-56 | time and cycle count start at 0, the verdict starts true, nothing printed, no stimulus, RAM empty |
| Testbench.Testbench.EvalAt | verilator-model/testbench.cpp:585-591 | one evaluation at a clock level appends that level and the pins to the stimuli, refreshes the outputs and advances time by one tick |
| Testbench.Testbench.CheckProperties | verilator-model/testbench.cpp:58-577 | `passed` becomes false exactly when it was false, or the init check fails, or some rule fires without its subclass bit; otherwise it is unchanged. The init line, then the failed rules' lines in table order, are printed |
| Testbench.Testbench.EndCycle | verilator-model/testbench.cpp:593-594 | the cycle is counted, recorded in the trace and checked, restoring the invariant |
| Testbench.Testbench.SpinOnce | verilator-model/testbench.cpp:584-594 | one cycle: low then high evaluation with the same pins, time + 2, cycle count + 1, one check of the outputs after the high phase |
| Testbench.Testbench.ClockSpin | verilator-model/testbench.cpp:581-597 | `cpuTime` grows by exactly 2n and `mCycleCnt` by exactly n; the stimuli are n low/high pairs with the current pins; the trace grows by n cycles, each checked once after its high phase; the invariant is kept; spinning no cycle leaves the outputs as they were |
| Testbench.Testbench.AwaitGrant | verilator-model/testbench.cpp:612-616 | at least one cycle is spun before the grant is sampled; no earlier sample showed the grant; without the grant, exactly budget + 1 cycles were spun |
| Testbench.Testbench.AwaitReadData | verilator-model/testbench.cpp:625-628 | the current outputs are sampled first; spinning stops at the first sample with rvalid; without rvalid, exactly budget cycles were spun |
| Testbench.Testbench.Request | verilator-model/testbench.cpp:600-619 | the request pins are raised, g >= 1 cycles are spun with them until the first grant, and the request is dropped once granted |
| Testbench.Testbench.DebugAccess | verilator-model/testbench.cpp:600-631 | the request is held for the g cycles up to the first grant, then dropped for the k cycles after; a write completes on the grant; a read returns `rdata` from the first sample, at or after the grant, with rvalid set |
| Testbench.Testbench.DebugRead | verilator-model/testbench.cpp:634-639 | earlier stimuli and cycles are kept and at least one cycle is added. On completion, the value is the read data of a cycle with rvalid set, the request is low and the address is on the bus |
| Testbench.Testbench.DebugWrite | verilator-model/testbench.cpp:642-645 | earlier stimuli and cycles are kept and at least one cycle is added. On completion, the grant was seen with the address, write-enable and value on the bus, and the request is low |
| Testbench.Testbench.SpinAndReadCtrl | verilator-model/testbench.cpp:652-654 | one cycle with the pins as they were, then a control-register read: at least two cycles are added and the first shows the old pins. Earlier stimuli and cycles are kept; on completion the value is read data with rvalid set |
| Testbench.Testbench.WaitForDebugStall | verilator-model/testbench.cpp:648-656 | earlier stimuli and cycles are kept; it returns only after a control-register read with the halt flag (0x00010000) set |
| Testbench.Testbench.PokeByte | verilator-model/testbench.cpp:660-664 | one RAM byte write: the poke is appended to the stimuli, the RAM maps the address to the byte and no cycle is added |
| Testbench.Testbench.WriteInstr | verilator-model/testbench.cpp:658-665 | the RAM becomes `StoreWord(old RAM, addr, instr)`: `(instr >> 8i) & 0xFF` at `addr + i`, nothing else changed, no cycle added |
| Testbench.Testbench.LoadProgram | verilator-model/testbench.cpp:668-679 | the RAM becomes the 72 image words stored from 0x80, at `0x80 + 4i`, and no cycle is added |
| Testbench.Testbench.Reset | verilator-model/testbench.cpp:694-702 | five cycles run with reset, fetch-enable and request low, after the earlier cycles, which are kept; then reset is released |
| Testbench.Testbench.SetHaltFlag | verilator-model/testbench.cpp:710 | earlier stimuli and cycles are kept; on success some new cycle c showed rvalid with the control word ctrl, and the final write put `SetHalt(ctrl)` on the bus: the word read with the halt flag set |
| Testbench.Testbench.ClearHaltFlag | verilator-model/testbench.cpp:721-722 | earlier stimuli and cycles are kept; on success some new cycle c showed rvalid with the control word ctrl, and the final write put `ClearHalt(ctrl)` on the bus: the word read with the halt flag clear |
| Testbench.Testbench.HaltForSetup | verilator-model/testbench.cpp:709-717 | earlier stimuli and cycles are kept, as are reset, interrupt and fetch-enable; on success the last access was the write of 0xF to the trap-enable register |
| Testbench.Testbench.Resume | verilator-model/testbench.cpp:721-727 | earlier stimuli and cycles are kept, as are reset and interrupt; on success fetch-enable is raised and the last access was a write of a control word with the halt flag clear |
| Testbench.Testbench.HaltAndWait | verilator-model/testbench.cpp:731-732 | earlier stimuli and cycles are kept, as are reset, interrupt and fetch-enable; on success the last access was a read of the control register showing the halt flag |
| Testbench.Testbench.DebugSession | verilator-model/testbench.cpp:707-732 | earlier stimuli and cycles are kept, as are reset and interrupt; on success fetch-enable is raised and the last read showed the halt flag |
| Testbench.ResetFirstKept | verilator-model/testbench.cpp:699-701 | cycles added after the reset cycles keep those first |
| Testbench.ResetAndLoad | verilator-model/testbench.cpp:694-705 | exactly five cycles are made, all holding the core in reset with fetch-enable and the debug request low; then reset is released (fetch-enable and request still low) and the RAM holds the loaded image; every checked cycle is one the stimuli made |
| Testbench.RunTestbench | verilator-model/testbench.cpp:682-744 | the checked cycles are exactly those the run's stimuli made, the first five of them in reset, and the RAM holds the loaded image. When no poll hangs, the exit code is `!passed`, which is 0 exactly when every check of every cycle passed, exactly when nothing was printed, and the core was last seen halted |

## Left out

- The Verilated circuit (`Vtop`, `eval()` and the probe paths into the decoder) is an arbitrary oracle. The decoder's own behaviour is not part of this model.
- VCD tracing (`tfp->open`, `dump`, `close`) and the `new`/`delete` of the model objects: I/O with no logic.
- The text of the diagnostic lines. Each failed check is represented by the mnemonic its line cites, and the init check by `xc.init`. The fixed progress messages of `main` are not modelled.
- `sc_time_stamp` returns `cpuTime` as a floating-point number and is not modelled.
- Termination of the poll loops (grant, rvalid, halt). The source polls forever; each poll here gives up after a budget of cycles (grant, rvalid) or of control-register reads (halt) and reports `Stalled`, and `RunTestbench` then reports `Hang`. The claims about completed accesses and the exit code hold for circuits that answer within the budget. Nothing is claimed about circuits that never answer.
- Testbench.Testbench.ClockSpin: `cpuTime` and `mCycleCnt` are unbounded naturals. The source's 64-bit counters could only wrap after 2^63 cycles.
- Testbench.Testbench.DebugRead: its contract states the final read and that cycles were only added. It does not restate the cycle-by-cycle handshake, which DebugAccess states.
- Testbench.Testbench.DebugWrite: its contract states the final write and that cycles were only added. It does not restate the cycle-by-cycle handshake, which DebugAccess states.
- Testbench.Testbench.WaitForDebugStall: its contract states the final read and that cycles were only added, not how many reads came before it.
- Testbench.Testbench.HaltForSetup: its contract states the phase's last access. The halting write before it is stated by SetHaltFlag and not repeated.
- Testbench.Testbench.Resume: its contract states the halt-clearing write and the fetch-enable pin, not the 73 cycles that follow.
- Testbench.Testbench.HaltAndWait: its contract states the final halt read. The halting write before it is stated by SetHaltFlag and not repeated.
- Testbench.Testbench.DebugSession: its contract states the end state of the three phases, not each phase again.
- Testbench.RunTestbench: its contract ties every checked cycle to the run's stimuli and places the reset cycles first. It does not restate the exact stimuli of the debug session, which the contracts of DebugAccess and ClockSpin state piece by piece.
- RAM written by the core itself is not modelled. `ram` holds the bytes the bench poked; what the core later stores is inside the oracle.
- Inputs the bench has not yet set (the debug address, write-enable and data before the first access) are taken to start at 0.
- The debug register constants the bench never uses (HIT, CAUSE, GPR0, GPR31, NPC, PPC, the single-step flag) and the random-number-generator type are declared only.
- A debug write followed by a read of the same register returning the written value, and the core halting within a bounded number of cycles, depend on the circuit. They are not properties of the bench.
