# Verification model of CPB

CPB is a BASIC system for a small device. This project models, in Dafny, the parts of it whose correctness is
decided by intricate code, and proves what they are for:

- **The compiler back end and the superinstruction optimizer.** A one-pass compiler emits stack-machine code and
  threads the targets it does not know yet through operand fields; the optimizer then overwrites the first slot of
  many patterns, pass after pass, and leaves the tails where they are so that every slot can still be entered. The
  compiler is a class over a code array (`Backpatch`), refined to code with symbolic labels (`Labels`, `Threading`,
  `Targets`), that to code composed block by block (`Blocks`, `BlockCompiler`), and that to a structured big-step
  semantics (`Semantics`, `Simulation`, `Extension`, `Correctness`). `StackNeed` computes from the blocks how much of
  the value stack a program needs, and `FullStack` where less is not enough. The optimizer is loops over the code
  array (`OptimizerLoops`), refined to functions (`Optimizer`), whose fused forms are tied to what the raw code spells
  (`Spelling`, `Justification`, `LocalPatterns`, `Pipelines`) and means (`Machine`, `Fusion`, `OptimizerProof`,
  `Aliasing`, `AliasedProgram`). `Validation` and `OptimizerValidity` are the static check and its preservation.
- **Editing on the SD card** (`CrashRecovery`): work files, the switch of the session file, recovery, with power lost
  after any file operation. `SourceText` is the text of those files: merging edits into a snapshot, scanning it again
  (`Listings` has the types both share); `WorkFiles` puts the two together.
- **The program in external memory** (`PsramStore`): a sorted index over text slots, every write of which may fail
  part way.
- **The editor's undo history** (`EditorHistory`): identities of states, grouped typing, a bounded ring of records.
- **YMODEM** (`Ymodem`): sender and receiver as one state machine over a link that loses and damages.

Numbers are abstract: a machine brings its own arithmetic, of which only that multiplication commutes and what the
opcodes' own comments say is assumed, so the order of every other operation matters. Outside events (a refused write,
a failed read, power loss, a lost packet) are parameters over which every theorem is quantified.

Read first: `OptimizerProof.OptimizerPreservesMeaning`, `Correctness.AgreesUnlessHaltIsShared`,
`Correctness.OptimizedIsExactWithRoom`, `Backpatch.Compiler.CompileSource`, `CrashRecovery.Store.EditAll`,
`Ymodem.SunkIsAlwaysAPrefix`, `EditorHistory.UnchangedIsSavedAfterEveryRun`, `PsramStore.Store.ReplacePair`.

`dafny verify dfyconfig.toml` checks everything; `--resource-limit 2000000` is enough.

## Model

| member | source | states |
|---|---|---|
| `OptimizerProof.OptimizerPreservesMeaning` | src/core/basic_compiler.cpp:274-1381 | for every program, every machine, every state and every slot to start from, spans' insides included: raw and optimized code stop alike (same variables, locals, frames, output, same failure and what it leaves behind), each running on exactly when the other does, unless the raw run overflows the value stack, which the optimized one may need less of. The one condition is on the raw program: no complex iteration or capped-channel pixel it spells uses its slots twice in a crossing way |
| `OptimizerProof.OptimizedIsFaithful` | src/core/basic_compiler.cpp:274-1381 | after all passes, each slot of the optimized code either still is the raw operation or a fused form that the raw code spells from that very slot, whatever earlier passes had rewritten around it |
| `OptimizerProof.StepSimulated` | src/core/vm.cpp:1551-1740 | each step of the optimized code is some positive number of steps of the raw code, or the raw code overflows on the way |
| `Justification.FirstJustified` | src/core/basic_compiler.cpp:330-714 | every operation the first pass writes decodes to an expression the raw operations spell from that slot |
| `LocalPatterns.LocalJustified` | src/core/basic_compiler.cpp:177-273 | the same for the function-local pass with its seven-bit packed operands |
| `Pipelines.GrayJustified` | src/core/basic_compiler.cpp:887-963 | the same for the gray-pixel pipeline `G=INT(A*B) : COLOR G,G,G : PSET X,Y`, whose parts earlier passes may have fused already |
| `Il.Unpack6` | src/core/basic_compiler.cpp:365-371 | five six-bit slots packed into the low thirty bits are each read back |
| `Aliasing.RightExactlyWhenAliasFree` | src/core/vm.cpp:1551-1740 | a fused operation with slots in range means what it replaces on every lawful machine and state if and only if its slots do not cross |
| `AliasedProgram.FusesRightExactlyWhenAliasFree` | src/core/basic_compiler.cpp:716-1100 | lifted to the optimizer: a fused slot of its output means the raw span it covers, always, if and only if that raw span is alias free |
| `AliasedProgram.AliasedProgramGoesWrong` | src/core/basic_compiler.cpp:716-886 | a concrete loop, `T=X*X-Y*Y+C : Y=2*X*Y+T : X=T : ...`, is fused by the optimizer although it aliases; with ordinary whole-number arithmetic, from C = 1 and the rest 0, the program as written leaves Y = 1 and the optimized one Y = 0 |
| `OptimizerLoops.Optimize` | src/core/basic_compiler.cpp:274-1381 | the in-place loops over the code array compute the optimizer function, and so leave an array that stops alike with the one before |
| `OptimizerLoops.MarkTargets` | src/core/basic_compiler.cpp:274-324 | the marking loops over operations, lines and function boundaries leave the marks that the passes and the validity proof are about |
| `OptimizerValidity.StraightSpanStaysInside` | src/core/basic_compiler.cpp:274-324 | a span without flow marks lies within one function |
| `OptimizerValidity.OptimizerPreservesValidity` | src/core/basic_compiler.cpp:274-1381 | whatever passes the static check unoptimized passes it optimized |
| `Validation.Validate` | src/core/il.cpp:9-139 | the checking loops accept exactly the valid programs |
| `Backpatch.Compiler.CompileSource` | src/core/basic_compiler.cpp:2977-3156 | the compiler with its threaded chains leaves in the code array the program that compiling with symbolic labels gives, succeeds exactly when that does, and every operation in the array lands: every jump, branch, EXIT, FOR body and GOTO or GOSUB target is a slot of 0 to the length, its own function's where it must be, and no link of a chain is left to be taken for a line number |
| `Backpatch.Compiler.PatchExits` | src/core/basic_compiler.cpp:2646-2653 | the walk along an EXIT chain ends, fills every hole that waits for this block's end and no other, and the other chains stand |
| `Backpatch.Compiler.PatchJumps` | src/core/basic_compiler.cpp:2701-2706 | the same for the chains of IF, SELECT and CASE, which share slots with nothing else |
| `Backpatch.Compiler.CompileIf` | src/core/basic_compiler.cpp:2395-2485 | opening a block IF weaves its hole into the control stack as the labelled compiler does |
| `Backpatch.Compiler.CompileFor` | src/core/basic_compiler.cpp:2486-2538 | the same for FOR: start, limit and step checks and the forward skip |
| `Backpatch.Compiler.CompileNext` | src/core/basic_compiler.cpp:2539-2576 | NEXT closes the loop it names, resolves its skip and all its exits, and only those |
| `Backpatch.Compiler.CompileWend` | src/core/basic_compiler.cpp:2596-2620 | WEND jumps back and resolves its WHILE |
| `Backpatch.Compiler.CompileLoop` | src/core/basic_compiler.cpp:2631-2645 | LOOP tests or jumps back and resolves the DO and its exits |
| `Backpatch.Compiler.CompileExit` | src/core/basic_compiler.cpp:2654-2674 | EXIT links itself into the innermost loop of its kind, with the number of FOR frames opened inside |
| `Backpatch.Compiler.CompileEndIf` | src/core/basic_compiler.cpp:2675-2700 | END IF resolves the pending branch and every jump to the end |
| `Backpatch.Compiler.CompileCase` | src/core/basic_compiler.cpp:2720-2780 | CASE resolves the clause before, and its tests jump to the clause at the first match |
| `Backpatch.Compiler.CompileEndSelect` | src/core/basic_compiler.cpp:2781-2796 | END SELECT resolves what waits, and drops the selector on the path that matched nothing |
| `Backpatch.EveryTargetLands` | src/core/basic_compiler.cpp:3073-3147 | for every sound source that compiles, every operation of the linked program lands |
| `Targets.EveryJumpIsResolved` | src/core/basic_compiler.cpp:3073-3147 | the same before line numbers are looked up: no hole is left, FOR_CHECK's body included, and each target stays in its own function |
| `Targets.LandsExactlyUnlessHaltIsShared` | src/core/basic_compiler.cpp:3123-3130 | every target is below the length if and only if the code does not both end in HALT already and have a jump to its end |
| `Targets.IfThenEndFails` | src/core/basic_compiler.cpp:3123-3130 | `IF A THEN END` alone compiles to a branch that targets the length |
| `BlockCompiler.ProgramCompiles` | src/core/basic_compiler.cpp:2395-2796 | compiling the lines of any nesting of blocks gives the code composed from the blocks, every target computed |
| `Simulation.BlockRuns` | src/core/basic_compiler.cpp:2395-2796 | on every machine, the code of any block, anywhere in a program, does what the structured semantics says: same variables and output at the block's end or at the exit it takes, FOR frames and value stack as deep as before, or the same failure, or running on as long |
| `Simulation.ClausesRun` | src/core/basic_compiler.cpp:2707-2796 | SELECT runs the first clause that matches, by value or inclusive range, else ELSE, and pops its selector exactly once on every path |
| `Simulation.LeaveMeets` | src/core/basic_compiler.cpp:2654-2674 | EXIT discards exactly the FOR frames opened inside the loop being left |
| `Correctness.CompiledRunsAsMeant` | src/core/basic_compiler.cpp:2977-3156 | whatever a program means, its compiled code ends in (or it overflows the stack), the shared trailing HALT accounted for exactly |
| `Correctness.WhatRunsIsMeant` | src/core/basic_compiler.cpp:2977-3156 | conversely, whatever compiled code ends in without overflow is what the program means |
| `Correctness.AgreesUnlessHaltIsShared` | src/core/basic_compiler.cpp:3123-3130 | where the stack suffices, compiled code agrees with the meaning if and only if not both: the code ends in HALT by itself, so that none is added, and the meaning runs off the end; then it fails with a bad jump target |
| `Correctness.EndedProgramAgrees` | src/core/basic_compiler.cpp:3123-3130 | so a program whose last statement is END always agrees |
| `StackNeed.NeedIsEnough` | src/core/vm.cpp:777-781 | for every program, machine and run: with as many cells to spare as `BlockNeed` computes from the blocks alone, no push fails, and each slot has one stack depth whatever path led there |
| `Correctness.NeverOverflows` | src/core/basic_compiler.cpp:2977-3156 | so the compiled program never overflows such a stack, from any start |
| `FullStack.AssignmentOverflowsExactly` | src/core/vm.cpp:777-781 | the bound is sharp: an assignment whose expression has a value overflows if and only if its need is not there |
| `FullStack.OnlyTheRawProgramOverflows` | src/core/basic_compiler.cpp:612-636 | with one cell left, `X=A+B` overflows as written and runs to its end once it is optimized |
| `Correctness.SharedHaltFails` | src/core/basic_compiler.cpp:3123-3130 | the compiled `IF A THEN END` fails from a start where it means to run off its end |
| `Correctness.CompiledIsUnfused` | src/core/basic_compiler.cpp:2977-3156 | what the compiler emits holds none of the fused operations, as the optimizer needs |
| `Correctness.OptimizedRunsAsMeant` | src/core/basic_compiler.cpp:3149-3156 | end to end: a program's meaning is what its compiled and optimized code ends in, or the raw code overflows |
| `Correctness.WhatOptimizedRunsIsMeant` | src/core/basic_compiler.cpp:3149-3156 | and back: what the optimized code ends in is the meaning, or the raw code overflows |
| `Correctness.OptimizedIsExactWithRoom` | src/core/basic_compiler.cpp:3149-3156 | with `BlockNeed` cells to spare nothing is left open: raw and optimized code stop with exactly the same outcomes, they stop whenever the meaning is settled, and each outcome is that meaning |
| `CrashRecovery.SwitchIsAtomic` | src/core/program_store.cpp:1015-1044 | in every card state of the switch the next boot adopts the old program until the session file is renamed in, the new one from then on |
| `CrashRecovery.Writer.Commit` | src/core/safe_file.cpp:90-122 | a commit succeeds if and only if none of its operations fails, and, cut after any of them, leaves the target old or new, and says which |
| `CrashRecovery.Store.Publish` | src/core/program_store.cpp:1103-1133 | publishing succeeds if and only if the session can be written and no operation of the card fails; every card state on the way is adoptable, with one switching point |
| `CrashRecovery.Store.Edit` | src/core/program_store.cpp:1412-1431 | an edit, cut anywhere, is the program before or after; it succeeds if and only if a work name is free, no staging file of an earlier snapshot is there, the written text passes its check, the session can be written and no operation of the card fails; when it is refused for a staging file the card is untouched |
| `CrashRecovery.LeftoverBlocksEdits` | src/core/safe_file.cpp:64 | on any card with a program and a free work name: an edit cut by power loss, a restart and recovery leave the program as it was on a card without faults, and each of any later edits is refused |
| `CrashRecovery.Store.SetDirty` | src/core/program_store.cpp:690-703 | the dirty flag switches with the session, never alone, and does so if and only if it has that value already or the session can be written and no operation fails |
| `CrashRecovery.Store.Recover` | src/core/program_store.cpp:1134-1186 | recovery succeeds if and only if the session stands, or its backup does and can be put in place; it adopts what it should, every state it passes through would be recovered to the same program, and it never removes a staging file |
| `CrashRecovery.Store.PreserveUnverified` | src/core/program_store.cpp:1045-1074 | putting work files aside loses no text at any moment, and succeeds if and only if there are names enough and no operation fails |
| `CrashRecovery.Store.EditAll` | src/core/program_store.cpp:845-1186 | over a whole sitting of edits, flags and restarts, each card state ever passed through adopts one of the programs of the sitting, in their order; on a card that never fails and has room, all of them are carried out |
| `WorkFiles.WrittenIsDocument` | src/core/program_store.cpp:1134-1249 | for the reader made of the source's own scan: the text a program is written as passes the check after writing, and is that program to recovery if and only if it is numbered or no row begins with a digit |
| `WorkFiles.FaithfulUnlessRowsLookNumbered` | src/core/program_store.cpp:1412-1431 | so what `Edit` asks of its reader holds of every change if and only if the same |
| `WorkFiles.PublishedButNotAdopted` | src/core/program_store.cpp:1134-1186 | where it does not hold, the published session is one that recovery refuses |
| `SourceText.ReadsBackUnlessRowsLookNumbered` | src/core/program_store.cpp:1196-1249 | a written program scans back to the same mode, numbers, offsets and lengths if and only if it is numbered or none of its rows begins with a digit |
| `SourceText.EveryLineIsFetched` | src/core/program_store.cpp:87-121 | each line of the file is read back through its index entry |
| `SourceText.WrittenIsVerified` | src/core/program_store.cpp:939-969 | the check after writing accepts every written program |
| `SourceText.VerifiedButNotReadBack` | src/core/program_store.cpp:1196-1249 | two rows, `CLS` and `10`, pass that check and do not scan |
| `SourceText.MergingMeans` | src/core/program_store.cpp:856-930 | merging at most two edits into sorted lines is the map update, in order |
| `SourceText.Snapshot.MergeEdits` | src/core/program_store.cpp:856-930 | the streaming loops write exactly the merged program and its index, and fail exactly when it is too large |
| `SourceText.Snapshot.SpliceRows` | src/core/program_store.cpp:898-909 | a row splice writes the sequence with the run replaced and renumbered |
| `PsramStore.Store.SetLine` | src/core/program_store.cpp:365-474 | a set is the map update with sorted index, distinct slots, matching hashes and exact byte total; after a failed write the memory still holds the old program if and only if the index write stopped short of the line's place and the text did not go into the line's own slot |
| `PsramStore.Store.EraseLine` | src/core/program_store.cpp:476-523 | the same for taking a line away |
| `PsramStore.Store.ReplacePair` | src/core/program_store.cpp:1433-1591 | two lines replaced or erased as one; when any write fails the old program is there unchanged, or the store is suspended, and suspended only if putting it back failed |
| `PsramStore.FreeLeavesRoom` | src/core/program_store.cpp:394-422 | a free text slot exists only while there are fewer entries than slots |
| `EditorHistory.UnchangedIsSavedAfterEveryRun` | include/editor_model.hpp:154-159 | after any run of edits, grouped typing, splits and joins, saves, undo and redo, with records dropped or the history lost: a text not marked as changed is the text last saved, and each record held leads back to the one text its identity stands for |
| `EditorHistory.IdentitiesNeverChange` | include/editor_model.hpp:154-159 | an identity in use at one point of a run stands for the same text at every later point |
| `EditorHistory.Editor.InsertChar` | src/core/editor_model.cpp:503-523 | typing changes the line as it should, keeps each identity's text fixed, and makes one record for a run of typing |
| `EditorHistory.Editor.SplitLine` | src/core/editor_model.cpp:693-805 | a split cuts the line in two as exactly one record that leads back; when it succeeds is stated exactly, and otherwise the text stays |
| `EditorHistory.Editor.JoinLine` | src/core/editor_model.cpp:847-890 | a join makes two lines one as exactly one record that leads back; when it succeeds is stated exactly, and otherwise the text stays |
| `EditorHistory.Editor.InsertLine` | src/core/editor_model.cpp:1135-1160 | the same for a new empty line |
| `EditorHistory.Editor.DeleteLine` | src/core/editor_model.cpp:1162-1191 | and for taking a line away |
| `EditorHistory.Editor.Save` | src/core/editor_model.cpp:1101-1104 | after a save the text is the saved one and not changed |
| `EditorHistory.Editor.Undo` | src/core/editor_model.cpp:1049-1091 | undo gives the text and the identity recorded, or changes nothing, unless it fails after the document has taken the lines; then exactly when the text before was the saved one and another, the program passes for saved although it is not |
| `EditorHistory.Editor.UndoAndRedo` | src/core/editor_model.cpp:1049-1099 | undo and then redo succeed if and only if none of their reads and writes fails, and then restore text, identity and both stacks; if the undo is not reached the text stays, if the redo fails the text is the undone one under its own identity |
| `EditorHistory.ThereAndBack` | src/core/editor_model.cpp:1049-1099 | either order of the two restores everything, for any records |
| `EditorHistory.InversePutsBack` | src/core/editor_model.cpp:970-1047 | the record taken before an edit leads back, for one line, two lines or a run of rows |
| `EditorHistory.TornUndo` | src/core/editor_model.cpp:1049-1091 | a run that ends marked as saved and is not what was saved |
| `EditorHistory.HistoryStack.Push` | src/core/psram_editor_history.cpp:110-136 | the ring is a stack that forgets its oldest record when full |
| `Ymodem.SunkIsAlwaysAPrefix` | src/core/ymodem.cpp:188-334 | over every run, with any packets lost or damaged, any replies lost or garbled, and either end or both timing out, the bytes written are the first bytes of the file, grow only, and the file is finished only when it is complete |
| `Ymodem.NumberIsKnown` | src/core/ymodem.cpp:255-300 | eight bits of a block's number tell which block it is, however far the sender has run ahead |
| `Ymodem.EveryFileIsDeliveredDespiteLosses` | src/core/ymodem.cpp:338-376 | every file is delivered whole in a run in which the header, each block, its acknowledgement and the end are each lost any number of times below the retry limit |

## Findings

Properties that do not hold of the code, each with an input and the exact condition:

- **Aliased fusion.** `RGB_PSET_MINMUL` and `COMPLEX_ITER` are fused without a check that their slots differ, and the
  VM reads its operands before it writes the results (src/core/vm.cpp:1551-1740). `AliasedProgram` has a program that
  fusing changes, from C = 1 and the rest 0; `RightExactlyWhenAliasFree` and `FusesRightExactlyWhenAliasFree` say exactly
  when fusing is right. Exact here is over all lawful arithmetics at once: on one particular arithmetic a crossing may do no
  harm, as where the device's own clamping gives two channels of a capped pixel the same value.
- **The shared trailing HALT.** The final HALT is left out when the code already ends in one
  (src/core/basic_compiler.cpp:3123-3130), also when that one belongs to a branch: a program whose last statement is
  `IF A THEN END` fails with a bad jump target when A is false. `AgreesUnlessHaltIsShared` is the exact condition.
- **Fused code needs less stack.** A raw run may overflow the value stack where the optimized one does not: with one cell
  left, `X=A+B` does (`OnlyTheRawProgramOverflows`). With `StackNeed.BlockNeed` cells to spare there is no difference
  (`OptimizedIsExactWithRoom`), and for an assignment that bound is exact (`AssignmentOverflowsExactly`); every
  statement above that says "or overflows" means this one difference.
- **A leftover staging file.** `open` refuses when RMBEDIT.TMP or RMBEDIT.BAK exists (src/core/safe_file.cpp:64). Power
  lost during a snapshot leaves one, a failed snapshot does exactly when removing it fails too, and recovery does not
  remove it: from then on every SD edit is refused although the card works (`LeftoverBlocksEdits`; the condition is in
  `Store.Edit`). No text is lost.
- **Rows that begin with a digit.** A structured program with such a row is written, verified and published, and
  recovery then refuses to scan it (`VerifiedButNotReadBack`, `PublishedButNotAdopted`);
  `ReadsBackUnlessRowsLookNumbered` is the exact condition.
- **A torn undo.** If the document takes the restored lines and reading the line back fails, `undo` reports failure
  and keeps the identity of the text it has just replaced (src/core/editor_model.cpp:1079-1088); a program can then
  pass for saved (`TornUndo`; the condition is in `Editor.Undo`).

## Left out

- OptimizerProof.OptimizerPreservesMeaning: error messages and the pc an error is reported at are not compared; the variables, locals and output left behind are.
- OptimizerProof.OptimizerPreservesMeaning: programs of more than 64 symbols are outside, as they are for the compiler (kMaxSymbols).
- Simulation.BlockRuns: statements other than LET, PSET, colour, blocks, EXIT and END are straight code that pushes or pops; an expression is code for one value of its type.
- Simulation.BlockRuns: module level only; inside a FUNCTION the source emits the local forms of FOR, which are not modelled, and a FOR opened inside a one-line IF is not part of the structured statement.
- Backpatch.Compiler.CompileFor: the local forms of FOR that the source emits inside a FUNCTION are not modelled.
- Backpatch.Compiler.CompileSelect: string selectors, and the tables of ON ... GOTO, are not modelled.
- Backpatch.Compiler.CompileSource: the lexer, the pool of constants and symbol lookup are inputs; a line comes as the operations of its expressions.
- Backpatch.Compiler.CompileSource: errors are one failure, without the message and the line.
- CrashRecovery.Writer.Commit: a read that fails is not modelled, and a rename or a remove is one atomic step.
- CrashRecovery.Store.Edit: the session file's own text is any format that reads back; the scan of the work file is a Reader, and WorkFiles shows when the source's own scan is one.
- SourceText.ReadsBackUnlessRowsLookNumbered: texts hold no NUL character.
- SourceText.Snapshot.MergeEdits: reading the lines of the source cannot fail half way.
- PsramStore.Store.ReplacePair: entries are written whole; a failed write stops between two of them. Memory that cannot be allocated is not modelled.
- PsramStore.Store.ReplacePair: the sort of the new index is done by putting each new entry in its place.
- PsramStore.Store.SetLine: a failed index write that has changed part of the index is in the contract, for any memory; the driver's raw write never stops half way, so on the device only a write refused before it starts remains.
- PsramStore.Store.SetLine: the 32-bit hash is any function of number and text; equal hashes of different texts are not considered.
- EditorHistory.Editor.SplitLine: the indentation of a row split at its end is any function of the row; the display and the cursor's visual position are not modelled.
- EditorHistory.Editor.Undo: the line worked on after a step is given from outside; identities are unbounded integers, not 64 bits.
- EditorHistory.Editor.InsertLine: a read of the document that fails right after a successful write is modelled for undo and redo only.
- StackNeed.NeedIsEnough: enough, and exact for an assignment; a program may need less than its blocks say when the deepest of them is never reached.
- Ymodem.SunkIsAlwaysAPrefix: one file, and no reply that comes after its time-out; a damaged packet is one event, never turns into an end of transmission, and the bytes on the wire, the CRC and the cancel sequence are not modelled.
- Ymodem.SunkIsAlwaysAPrefix: what the sender reports is not stated; acknowledgements left over from repeated headers can carry it past blocks that were lost.
- The read cache, the compiled cache, XMODEM, the region allocator, the audio ring, the viewport of the editor and the VM's rounding of numbers are not part of this model.
