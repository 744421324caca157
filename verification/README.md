# Verification of a Lua runtime

This project models the hardest parts of a Lua 5.5 runtime written in Rust and proves what they
promise. Values and whole runs are modelled by functions; code that works by changing things in
place is also written as methods of classes, each proved equal to its function.

- **The garbage collector** (`Gc*.dfy`): the incremental four-colour mark-sweep collector with its
  two gray queues, barriers, weak pointers, resurrection, and a sweep over a linked list that the
  mutator keeps prepending to. `GcSpec` holds the operations as functions on a state, `GcInvariant`,
  `GcMutation` and `GcSweep` the invariant and why each operation keeps it, `GcRuns` whole runs of
  mutator and collector steps, `GcResurrect` resurrection over runs, `GcCycle` exactness of a full
  cycle, `GcLifecycle` drop-once and free-once, `GcMetrics` the pacing counters, `GcLedger` and
  `GcAccounts` the counters over runs and the pacing bound, `GcTraces` what the trace counters count,
  `GcProgress` termination, `GcSchedule` which steps one call of the collector takes and when it
  ends, and `GcContext` the classes `Metrics`, `Context` and `Arena`.
- **The condition compiler** (`Lua*.dfy`): jump lists for `and`, `or`, `not` and comparisons, with
  placeholder destinations, polarity flips, the boolean tail, and tail elision; then `if`, `while`,
  `repeat`, `break`, labels and assembly. `LuaVm` is the machine and the source language,
  `LuaCompile` and `LuaStmt` the compiler as functions, `LuaCtx` the compiler as a class.
  `LuaTheorems` holds the results, with a condition on the source text (`LuaShape`) that is exact
  for the compiler's flag (`LuaOrphans`, `LuaExact`, `LuaExactStmt`) and the number of labels read off
  it (`LuaLabels`); `LuaElision` and `LuaWrap` show what goes wrong. `LuaLimits` and `LuaLimitsStmt`
  read off the source how many registers and constants it takes, so that success and failure of
  compilation are exact; `LuaFrame` and `LuaMerge` say that the code stays inside the stack it asks
  for, and that `last_target` sees every jump to its end.
- **Upvalue capture** (`Upvalues.dfy`, `UpvaluesCtx.dfy`, `UpvaluesWrap.dfy`).
- **`table.sort`** (`TableSort.dfy`), **root slots** (`RootSlots.dfy`), **UTF-8** (`Bits.dfy`,
  `Utf8.dfy`, `Utf8Text.dfy`).
- **The expression parser** (`Pratt.dfy`), its **event list with forward parents** and the **sink**
  (`Sink.dfy`, `SinkLoop.dfy`, `ParserEvents.dfy`, `ParserState.dfy`).

In three places the code does not do what it is documented to do. Each has lemmas with concrete
inputs, and an exact condition for when a jump is left behind, a counter goes negative, or a number
is shared:

1. `patch_to_here` removes a test and its jump even when an earlier jump has been aimed at the end
   of the removed pair. `((q or p) and nil) or (not x)` then jumps past its own code
   (`LuaElision.ElisionMiscompiles`), as does the condition `(q and p) or true`
   (`LuaElision.BranchElisionMiscompiles`) and `if q or p then end` with an empty body
   (`LuaElision.EmptyArmMiscompiles`). The flag `orphans` of the model records when a jump is left
   behind, and without it compilation is correct. The predicates `Orphaning`, `BranchOrphaning`,
   `ArmsOrphaning` and `BlockOrphaning` read the flag off the source text, exactly
   (`LuaTheorems.ExprFlagIsExact`, `ArmsFlagIsExact`, `SourceProgram`). A jump left behind need not
   be taken: `(((nil and q) or p) and nil) or z`, over distinct locals, has one and runs correctly
   from all registers (`LuaElision.HarmlessRuns`), so the absence of the flag is
   sufficient for correctness and not necessary.
2. A backward barrier on a black object that needs no tracing takes back a trace that was never
   counted, and `traced_gcs` becomes -1 (`GcLedger.TraceCounterUnderflows`). What the counters hold
   after any run is `GcTraces.TraceBalance`; `GcTraces.UnderflowExactly` says after which runs a
   barrier that fires makes them negative.
3. Label numbers are cut to sixteen bits and upvalue numbers to eight without a check. Two labels
   share a number if and only if the source makes more than 65536 of them, counted by `BlockLabels`
   (`LuaLabels.LabelsShareIff`), and a `while` whose body makes 65536 jumps back to its own jump for
   ever (`LuaWrap.LabelsRunOut`). Upvalues come to share a number if and only if some function that
   has to capture a name has 256 upvalues already, which `RoomToRead` asks before the read
   (`UpvaluesWrap.ReadRoomIsExact`, `UpvaluesShareIff`); the read is then still right if and only if
   the entry at the wrapped number leads to the same place (`UpvaluesWrap.ReadsRightIff`). In three
   nested functions a name reads another variable (`UpvaluesWrap.UpvaluesRunOut`).

## Model

| member | source | states |
|---|---|---|
| GcRuns.RunsAreSafe | src/dmm/context.rs:285-709 | after any run of mutator and collector steps every object reachable from the root or the held pointers is allocated with its value intact, and every weak pointer held there points at a box not yet freed |
| GcRuns.StepKeeps | src/dmm/context.rs:260-709 | every step of a run, of mutator or collector, in every phase, keeps the invariant of lists, colours and queues |
| GcRuns.MarkingIsComplete | src/dmm/context.rs:568-625 | when nothing is left to mark, everything reachable from the root is black, and every box weakly referenced from there is no longer white |
| GcRuns.RunsMarkCompletely | src/dmm/context.rs:389-502 | the same, strong and weak, at any point of any run where marking has finished, whatever barriers, upgrades and resurrections came between |
| GcRuns.UpgradeInRuns | src/dmm/gc_weak.rs:42-45 | in a run `upgrade` succeeds only for a pointer that may be held, and fails only when the value is gone or doomed |
| GcRuns.DoomedIsDropped | src/dmm/context.rs:666-682 | a doomed value is dropped by the end of the sweep under way, whatever runs in between |
| GcRuns.NewBoxSurvives | src/dmm/context.rs:360-386 | a box allocated while a sweep is under way is still there with its value when that sweep ends and at every point before |
| GcResurrect.ResurrectedSurvives | src/dmm/gc_weak.rs:80-97 | a resurrected value, stored or not, is intact when the cycle ends and at every point before, whatever runs in between |
| GcResurrect.ResurrectedReachSurvives | src/dmm/gc.rs:238-250 | and so is everything it reaches, directly or not, when the sweep begins |
| GcInvariant.MarkOneKeeps | src/dmm/context.rs:568-625 | marking one object or the root keeps the invariant |
| GcInvariant.TraceKeeps | src/dmm/context.rs:470-494 | tracing a strong child keeps structure and queues and leaves the child marked |
| GcMutation.BackwardBarrierKeeps | src/dmm/context.rs:389-412 | after a backward barrier the invariant holds and the parent may adopt the child |
| GcMutation.ForwardBarrierKeeps | src/dmm/context.rs:430-448 | after a forward barrier the child is marked unless the parent is known not to be black |
| GcMutation.BarriersActIfNeeded | src/dmm/context.rs:389-468 | a barrier for a parent and a child acts if and only if, while marking, the parent is black and the child is not marked enough |
| GcMutation.OpenBarriersActIfNeeded | src/dmm/context.rs:389-468 | barriers that name one side only act while marking, for a black parent or an unmarked child; the root barrier if and only if the root need not be traced any more |
| GcMutation.StoreKeeps | src/dmm/context.rs:389-468 | a store covered by a barrier keeps the invariant |
| GcMutation.AllocateKeeps | src/dmm/context.rs:360-386 | a new box goes to the front of the list, white, and is never part of the current sweep |
| GcMutation.ResurrectKeeps | src/dmm/context.rs:553-566 | resurrecting an intact value while marking keeps the invariant |
| GcMutation.UpgradeIsExact | src/dmm/context.rs:507-550 | `upgrade` returns true if and only if the pointer may be held, and false if and only if the value is gone or certain to be dropped by this sweep |
| GcSweep.StartSweepKeeps | src/dmm/context.rs:300-325 | when nothing is left to mark, the whole list becomes the part to sweep, and what was marked is safe |
| GcSweep.SweepOneKeeps | src/dmm/context.rs:627-699 | a sweep step splices the list, keeps `sweep_prev` and `sweep` linked, and never meets a gray object |
| GcSweep.SweptSafe | src/dmm/context.rs:627-699 | exactly what was safe to hold before a sweep step is safe to hold after it |
| GcCycle.EndCyclePart | src/dmm/context.rs:326-350 | at the end of a cycle that began asleep exactly the reachable and weakly remembered boxes remain, values only in the reachable ones, all white, queues empty |
| GcLifecycle.DroppedOnceFreedOnce | src/dmm/context.rs:198-227 | over any run ended by dropping the context each value is dropped once and each box freed once, in that order |
| GcLifecycle.NothingIsBroken | src/dmm/context.rs:627-699 | at every point of a run no value is dropped twice and no box freed before its value is dropped |
| GcLedger.CountsAreExact | src/dmm/metrics.rs:376-418 | the totals equal the length and byte sum of the list, and while marking `marked_gcs` is the number of objects that are not white |
| GcAccounts.AccountsAreExact | src/dmm/metrics.rs:303-418 | after any run the bytes allocated, dropped, freed and remembered are those of the boxes to which that happened since the last cycle ended, the wakeup amount is what that cycle remembered times the sleep factor, at least the minimum, and the artificial debt is what it left unpaid unless it was run as one unit |
| GcLedger.CreditsBounded | src/dmm/metrics.rs:337-341 | at every point of a cycle the credits are at most the worst path per byte times the bytes that existed in the cycle |
| GcLedger.DefaultPacingIsBelowOne | src/dmm/metrics.rs:145-153 | with the default pacing the credits stay at or below 0.55 per byte that existed in the cycle, at every point of any run, so the debt is at least the debits less that |
| GcLedger.FrugalRunsDoNotUnderflow | src/dmm/metrics.rs:409-413 | the trace counters never underflow when barrier parents need tracing |
| GcTraces.TraceBalance | src/dmm/metrics.rs:376-418 | after any run, for objects and for bytes, while marking: the trace counters are the black objects that need tracing, plus the untraced ones resurrected in this cycle, less the untraced ones that are gray now |
| GcTraces.UnderflowExactly | src/dmm/context.rs:702-708 | after any run, a barrier that fires leaves the object counter negative if and only if there were at least as many untraced gray objects as traced black and resurrected untraced ones together; for bytes likewise, with the size of its parent |
| GcLedger.TraceCounterUnderflows | src/dmm/metrics.rs:409-413 | a run of nine steps after which the trace counter is -1 |
| GcMetrics.WorkIsProduct | src/dmm/metrics.rs:303-343 | work by repeated addition is the product of the source |
| GcMetrics.DebtIsOwed | src/dmm/metrics.rs:303-343 | the debt is never negative; it is positive if and only if the heap is not empty and the debits exceed both zero and the credits, and then it is their difference |
| GcMetrics.DebtAfterCycle | src/dmm/metrics.rs:303-374 | after a cycle that resets the debt nothing is owed until more than the wakeup amount has been allocated; after one that does not, what was owed before is still owed, less the wakeup amount |
| GcContext.Metrics.FinishCycle | src/dmm/metrics.rs:346-374 | counters reset for the next cycle, with or without the debt |
| GcContext.Context.Allocate | src/dmm/context.rs:360-386 | updates list, counters and log as the specification says and keeps the invariant |
| GcContext.Context.BackwardBarrier | src/dmm/context.rs:389-412 | the barrier on the mutable state |
| GcContext.Context.Upgrade | src/dmm/context.rs:507-550 | the upgrade test on the mutable state |
| GcContext.Context.Resurrect | src/dmm/context.rs:553-566 | resurrection on the mutable state |
| GcContext.Context.MarkOne | src/dmm/context.rs:568-625 | one marking step, by a loop over the children |
| GcContext.Context.SweepOne | src/dmm/context.rs:627-699 | one sweep step; true exactly at the end of the list |
| GcSchedule.CollectsOneWay | src/dmm/context.rs:285-358 | a call of the collector takes steps until the debt is paid or the stop condition is reached, and none after that: its steps and its final state are determined by its arguments and the state before |
| GcSchedule.PaysDebt | src/dmm/context.rs:293-356 | a call that pays debt does nothing without debt, has debt before every step it takes, and ends without debt or at its stop condition, which for the end of a cycle means that the last step ended one |
| GcContext.Context.DoCollection | src/dmm/context.rs:285-358 | takes exactly the steps of such a call; ends for every stop condition, sweeps at most twice, stops in the phase asked for, and a full cycle begun asleep is exact |
| GcContext.Arena.CollectDebt | src/dmm/arena.rs:285-290 | nothing changes without debt; else it ends without debt, or at the end of a full cycle |
| GcContext.Arena.MarkDebt | src/dmm/arena.rs:300-312 | nothing changes without debt; else it ends without debt, fully marked or in a sweep; fully marked, everything reachable is black |
| GcContext.Arena.CycleDebt | src/dmm/arena.rs:347-353 | nothing changes without debt; else it ends without debt, or at the end of the cycle |
| GcContext.Context.DropAll | src/dmm/context.rs:198-227 | walks the list once, dropping and freeing every box |
| GcContext.Arena.FinishCycle | src/dmm/arena.rs:360-365 | a full cycle from sleep leaves exactly what is reachable or weakly remembered |
| GcContext.Arena.FinishMarking | src/dmm/arena.rs:324-340 | unless sweeping, all that is reachable is marked when it returns |
| GcContext.Arena.MutateRoot | src/dmm/arena.rs:234-243 | the root barrier lets the root be replaced |
| GcContext.Arena.StartSweeping | src/dmm/arena.rs:399-406 | goes from marked to sweeping and stops there; its phase assertion holds |
| LuaTheorems.NeverPanics | src/compiler/rules.rs:419-431 | compiling an expression fails none of the assertions modelled as panics: temporaries are freed in order, and every listed jump follows its control and is unfilled |
| LuaTheorems.ValueContext | src/compiler/rules.rs:953-1091 | running the code of an expression raises iff the expression does, else stops at its end with the short-circuit value in the result register, lower registers unchanged and no placeholder left |
| LuaTheorems.ExprFlagIsExact | src/compiler/rules.rs:621-664 | a jump is left behind an elided pair if and only if the source expression is orphaning, in value, register and branch context |
| LuaTheorems.ValueCompiles | src/compiler/rules.rs:377-390 | an expression compiles to a register if and only if its temporaries in use at once, counted on the source, fit in 255 registers and the constants it loads that are not in the table yet fit in 65535; the error names what was lacking; success adds exactly those constants, each once, and sets the stack exactly |
| LuaTheorems.BranchCompiles | src/compiler/rules.rs:4055-4065 | the same for a condition |
| LuaTheorems.ProgramCompiles | src/compiler/rules.rs:4067-4177 | the same for a block, which also must have no `break` outside a loop |
| LuaLimits.NeedIsShallow | src/compiler/rules.rs:3403-3470 | an expression takes at most one temporary more than comparisons are nested in right operands of comparisons |
| LuaLimits.LoadsAreWritten | src/compiler/rules.rs:1145-1179 | no constant is loaded that is neither written in the source nor a boolean |
| LuaFrame.RegsFramed | src/compiler/rules.rs:386-388 | the code of an expression names no register past the stack that the chunk asks for, but for the placeholder |
| LuaFrame.BlockFramed | src/compiler/rules.rs:386-388 | nor does the code of a block |
| LuaTheorems.SourceValueContext | src/compiler/rules.rs:953-1091 | every expression whose source is not orphaning and for which registers and constants suffice compiles, and then as in the value-context theorem: conditions on the source text only |
| LuaTheorems.NoConstValueContext | src/compiler/rules.rs:621-664 | the same for every expression that fits in which no left operand ends in a constant |
| LuaTheorems.FoldedContext | src/compiler/rules.rs:3482-3530 | an expression that folds leaves no code and no jumps, and its literal is its value |
| LuaTheorems.SourceBranchContext | src/compiler/rules.rs:4055-4065 | a condition whose source is not orphaning and fits compiles, falls through iff it is true and otherwise reaches a jump of the returned list |
| LuaTheorems.SourceProgram | src/compiler/rules.rs:4055-4177 | a block compiles, and meets the hypothesis of the program theorems, if and only if its registers, constants and labels fit, no `break` stands outside a loop, and its source is not orphaning; it never panics |
| LuaTheorems.ArmsFlagIsExact | src/compiler/rules.rs:4140-4177 | the arms of an `if`, if their labels have numbers, leave a jump behind an elided pair if and only if their source is orphaning, empty bodies included |
| LuaTheorems.ProgramMirrors | src/compiler/rules.rs:4067-4177 | whatever structured statements do, the assembled code does, and it keeps running as long as they do |
| LuaTheorems.ProgramHalts | src/compiler/defs.rs:278-291 | the machine reaches the end of the code only if the source finishes, with the same locals |
| LuaTheorems.ProgramRaises | src/compiler/defs.rs:278-291 | the machine raises only if the source does |
| LuaTheorems.ProgramDiverges | src/compiler/rules.rs:4067-4177 | a source that never ends keeps the machine inside its code |
| LuaTheorems.Assembles | src/compiler/defs.rs:278-291 | assembly does not panic and leaves no placeholder destination |
| LuaMerge.MergesAreSeen | src/compiler/rules.rs:1466-1485 | if a jump of a faithfully compiled program arrives at the end of its code, `last_target` says so, so that a final return is not left out there |
| LuaTheorems.SteadyProgram | src/compiler/rules.rs:4055-4177 | steady programs compile and meet the hypothesis of the program theorems if and only if they fit |
| LuaCorrect.ExprGood | src/compiler/rules.rs:844-941 | the invariants of expression descriptions, stated over runs, hold for every compiled expression |
| LuaCorrect.ExprShape | src/compiler/defs.rs:40-95 | jump lists hold distinct jumps behind their controls, and placeholders stand only before listed jumps |
| LuaCorrect.RegYields | src/compiler/rules.rs:953-1091 | a discharged expression delivers its value |
| LuaReg.DischargeYields | src/compiler/rules.rs:953-1091 | discharge of every kind of description keeps its value, with or without the boolean tail |
| LuaDischarge.TailBuilt | src/compiler/rules.rs:1043-1087 | the tail loads false and skips, or loads true, and every list jump lands where it should |
| LuaLogic.GoIfGoes | src/compiler/rules.rs:844-941 | after `goiftrue` or `goiffalse` control falls through iff the truth is as wanted, and leaving jumps carry the value |
| LuaLogic.JoinedFits | src/compiler/rules.rs:3482-3530 | joining the jumps of the left operand with the right operand gives the value of `and` and `or` |
| LuaLogic.NegateCondNegates | src/compiler/rules.rs:822-839 | negating swaps the exits, and each of their jumps is taken exactly when it was not before; nothing else in the code changes |
| LuaNot.NotFits | src/compiler/rules.rs:799-807 | swapping exits and dropping preserved values negates the value |
| LuaNot.ComparedFits | src/compiler/rules.rs:3403-3470 | the comparison's jump is taken exactly when the comparison holds |
| LuaGo.PatchToHereGoes | src/compiler/rules.rs:621-664 | patched or elided, the jumps of the list now fall out, if nothing else was aimed past the elided pair |
| LuaOrphans.PatchShapes | src/compiler/rules.rs:621-664 | what `patch_to_here` takes from the end of the code, what it aims, and when it leaves a jump behind, from the shape of the end alone |
| LuaExact.ExprFlag | src/compiler/rules.rs:2572-2610 | the end of an expression's code has the shape read off its source, unless a jump is left behind, which its source says |
| LuaTheorems.BlockFlagIsExact | src/compiler/rules.rs:4055-4177 | whether a block leaves a jump behind, and whether it leaves any code, is read off its source, if its labels have numbers |
| LuaSteady.SteadyIsSafe | src/compiler/rules.rs:636-655 | expressions whose left operands end in no constant, or fold, are not orphaning |
| LuaIdle.BlankDoes | src/compiler/rules.rs:4140-4163 | a block that leaves no code does nothing when it runs |
| LuaAsserts.ExprAsserts | src/compiler/rules.rs:636-655 | the debug assertions of `patch_to_here` hold at every elision inside an expression: no label jump stands in the pair taken away, and no label past its start |
| LuaAsserts.BranchAsserts | src/compiler/rules.rs:636-655 | and where a condition is tested |
| LuaAsserts.ArmAsserts | src/compiler/rules.rs:636-655 | and at the end of an `if` arm |
| LuaElision.ElisionMiscompiles | src/compiler/rules.rs:621-664 | `((q or p) and nil) or (not x)` leaves its code |
| LuaElision.BranchElisionMiscompiles | src/compiler/rules.rs:4055-4065 | the true condition `(q and p) or true` skips into its body |
| LuaElision.EmptyArmMiscompiles | src/compiler/rules.rs:4140-4163 | `if q or p then end` jumps past the code that follows |
| LuaElision.HarmlessRuns | src/compiler/rules.rs:621-664 | an orphaning expression over distinct locals that runs correctly from all registers |
| LuaPlaced.StmtMirrors | src/compiler/rules.rs:4067-4177 | code laid out as the statement says runs as the statement does |
| LuaProgram.PlacesStmt | src/compiler/rules.rs:4067-4177 | compiled and assembled statements are laid out as they say |
| LuaAssemble.AssembledAims | src/compiler/defs.rs:278-291 | every labelled jump gets the place of its label and nothing else changes |
| LuaGrowth.StmtGrows | src/compiler/rules.rs:1294-1326 | compiling a statement only appends code, gives scopes their registers back and never panics |
| LuaLabels.LabelsShareIff | src/compiler/rules.rs:495-506 | when a block is compiled behind what a chunk holds, two of the numbers handed out are equal if and only if the chunk's labels and those of the source together are more than 65536 |
| LuaLabels.BlockMakes | src/compiler/rules.rs:4067-4177 | compiling a block makes exactly the labels that its source says, and hands out the numbers that follow those before |
| LuaWrap.LabelsRunOut | src/compiler/rules.rs:495-506 | a `while` with a multiple of 65536 loops in its body compiles to a jump back to itself: the machine runs for ever where the source ends |
| LuaCtx.Ctx.PatchToHere | src/compiler/rules.rs:621-664 | the loop that pops no-op pairs and patches the rest |
| LuaCtx.Ctx.PatchTo | src/compiler/rules.rs:595-607 | downgrades and aims every jump of a list |
| LuaCtx.Ctx.PatchListAux | src/compiler/rules.rs:695-742 | settles placeholders and aims jumps, one list entry after the other |
| LuaCtx.Ctx.NeedValue | src/compiler/rules.rs:673-685 | whether some jump of a list preserves no value |
| LuaCtx.Ctx.NegateCond | src/compiler/rules.rs:822-839 | flips every control and swaps the lists |
| LuaCtx.Ctx.Discharge | src/compiler/rules.rs:953-1091 | discharge on the mutable chunk |
| LuaCtx.Ctx.GoIfTrue | src/compiler/rules.rs:844-889 | `goiftrue` on the mutable chunk |
| LuaCtx.Ctx.GoIfFalse | src/compiler/rules.rs:894-930 | `goiffalse` on the mutable chunk |
| LuaCtx.Ctx.AllocConstant | src/compiler/rules.rs:1145-1179 | equal constants share a slot; at most 65535 of them |
| LuaCtx.Ctx.CompileExpr | src/compiler/rules.rs:2572-2610 | compiles in place what the specification compiles; the assertions on registers and on jumps behind controls are proved at each step |
| LuaCtx.Ctx.CompileNot | src/compiler/rules.rs:2953-3036 | folding of constants and negation of every kind of operand |
| LuaCtx.Ctx.CompileComparison | src/compiler/rules.rs:3403-3470 | a comparison in place |
| LuaCtx.Ctx.CompileAnd | src/compiler/rules.rs:3482-3507 | `and` in place |
| LuaCtx.Ctx.CompileOr | src/compiler/rules.rs:3512-3530 | `or` in place |
| LuaCtx.Ctx.CompileBranch | src/compiler/rules.rs:4055-4065 | a branch condition in place |
| LuaCtx.Ctx.CompileWhile | src/compiler/rules.rs:4067-4103 | `while` in place |
| LuaCtx.Ctx.CompileRepeat | src/compiler/rules.rs:4105-4129 | `repeat` in place |
| LuaCtx.Ctx.CompileArms | src/compiler/rules.rs:4140-4177 | an `if` chain in place |
| LuaCtx.Ctx.Assemble | src/compiler/defs.rs:278-291 | assembly in place |
| Upvalues.ResolvesInnermost | src/compiler/rules.rs:1136-1143 | a name resolves to a binding if and only if some scope has it and no later one has the name; to none if and only if no scope has the name |
| Upvalues.ScopesNest | src/compiler/rules.rs:1093-1135 | entering a scope changes no name, binding one changes that name only, and leaving the scope restores every name |
| Upvalues.ResolvesOrCaptures | src/compiler/rules.rs:1212-1225 | a free name is inlined with no upvalue at any level if its binding folds, else its upvalue leads through every level to the register of the innermost enclosing binding; unbound and `global` names are neither; if every function that must capture it has a number left |
| Upvalues.ResolvesForChild | src/compiler/rules.rs:1237-1287 | the same for a request from an inner function |
| Upvalues.RoomIsExact | src/compiler/rules.rs:1237-1287 | no upvalue list outgrows its eight-bit numbers if and only if every function that must capture the name had one left |
| Upvalues.SameMeaning | src/compiler/rules.rs:1256-1263 | existing upvalue entries keep index and meaning |
| Upvalues.ResolvesOnce | src/compiler/rules.rs:1212-1216 | a captured name resolves again to the same index |
| Upvalues.ReadsLexically | src/compiler/rules.rs:2636-2663 | reading an identifier, with numbers left for what it captures, denotes its innermost binding, or a global if there is none |
| Upvalues.RunsAreSound | src/compiler/rules.rs:1093-1136 | entering and leaving scopes and functions, binding and using names, in any order, keeps every upvalue list sound, if each use has numbers left for what it captures |
| UpvaluesWrap.UpvaluesShareIff | src/compiler/rules.rs:1219-1222 | after a read two upvalues of some function share a number if and only if a function that had to capture the name had none left |
| UpvaluesWrap.ReadRoomIsExact | src/compiler/rules.rs:2636-2663 | the condition for reading is exactly that the read outgrows no list |
| UpvaluesWrap.ReadsRightIff | src/compiler/rules.rs:1212-1287 | with numbers left or not, a read denotes the innermost binding if and only if, at the first function on the way out that has none left, the entry at the wrapped number leads to the same place |
| UpvaluesWrap.UpvaluesRunOut | src/compiler/rules.rs:1212-1225 | in three nested functions that fit the register limit, the name read after 256 others denotes the first of them and not its own binding |
| UpvaluesCtx.Ctx.ResolveLocal | src/compiler/rules.rs:1136-1143 | the loop from the inside out finds the binding of the innermost scope that has the name |
| UpvaluesCtx.Ctx.ResolveForChild | src/compiler/rules.rs:1237-1287 | the recursion through the enclosing contexts, in place |
| UpvaluesCtx.Ctx.ResolveOrCapture | src/compiler/rules.rs:1212-1225 | resolution by the function itself, in place |
| TableSort.SortRun | src/builtin/table.rs:352-421 | for every comparator: ends, touches only `[1, n]`, leaves a permutation, compares only elements of the table; raises if and only if its last comparison does, reports an invalid order if and only if a scan compares past its bound, and every comparison before passed; for a strict weak order it sorts; with two elements or more it raises if every comparison does, and with four or more it reports an order in which everything is less than everything |
| TableSort.OutcomeShows | src/builtin/table.rs:352-421 | what the comparisons made say of the outcome, for comparators that never answer and that always do |
| TableSort.Partition | src/builtin/table.rs:383-412 | scans stay in bounds and the pivot ends between smaller and greater elements, or the comparator is inconsistent |
| TableSort.MedianOfThree | src/builtin/table.rs:369-376 | leaves the sentinels that bound the scans |
| TableSort.Sort | src/builtin/table.rs:301-345 | trivial tables untouched, tables of 2147483647 or more refused, the outcome otherwise that of the run |
| TableSort.SplitInterval | src/builtin/table.rs:413-419 | partitioning leaves only the two sides to be sorted |
| TableSort.LeqTrans | src/builtin/table.rs:352-421 | "not greater" is transitive in a strict weak order |
| RootSlots.RunsAreSound | src/dmm/dynamic_roots.rs:242-317 | after any run of stash, clone and drop the free chain has each vacant slot once and ends at the null index, occupied slots count their handles less one and hold their pointer, and unrelated handles never share a slot |
| RootSlots.RunsKeep | src/dmm/dynamic_roots.rs:134-154 | no such run panics |
| RootSlots.SlotsAreReused | src/dmm/dynamic_roots.rs:255-290 | vacant slots are reused: after any run the table is exactly as long as the most slots that were in use at once |
| RootSlots.Slots.Add | src/dmm/dynamic_roots.rs:255-290 | reuses the first vacant slot or appends one |
| RootSlots.Slots.Inc | src/dmm/dynamic_roots.rs:292-301 | counts one more handle |
| RootSlots.Slots.Dec | src/dmm/dynamic_roots.rs:303-317 | counts one handle less, or puts the slot on the free list |
| Utf8.Encode | src/builtin/utf8.rs:79-97 | appends the bytes of the table in section 2 of RFC 2279 |
| Utf8.EncodeLiteral | src/parser/lit.rs:184-205 | appends the same bytes, by filling a buffer from its end |
| Utf8.EncodedHasForm | src/builtin/utf8.rs:79-97 | the encoding of every word, byte by byte: the six forms of the table, and what the code makes of words beyond it |
| Utf8.DecodeAt | src/builtin/utf8.rs:47-76 | decodes one code point |
| Utf8.DecodeEncoded | src/builtin/utf8.rs:47-97 | an encoded code point decodes to itself and its length, anywhere in a string, iff it is acceptable; strict decoding rejects surrogates and values above 0x10FFFF (section 3 of RFC 3629) |
| Utf8.EncodeDecoded | src/builtin/utf8.rs:47-76 | every successful decoding re-encodes to exactly the bytes consumed |
| Utf8Text.LuaLen | src/builtin/utf8.rs:211-262 | positions relative to either end, bounds errors, the position of a malformed byte, or the count |
| Utf8Text.LenOfText | src/builtin/utf8.rs:211-262 | the length of n encoded characters is n, counting from any of them |
| Utf8Text.LenOfPart | src/builtin/utf8.rs:211-262 | from the start of a character to any byte of a later one both are counted, with those between |
| Utf8Text.LenOfRange | src/builtin/utf8.rs:117-262 | for any bytes and positions: the errors, the number of decodings that start in the range, or the first that fails; negative positions count from the end |
| Utf8Text.LenInverse | src/builtin/utf8.rs:211-262 | only encoded texts have a length, and it is their number of characters |
| Utf8Text.LuaOffset | src/builtin/utf8.rs:268-338 | the three searches and the end of the character found |
| Utf8Text.OffsetForward | src/builtin/utf8.rs:301-311 | counting on from a character finds the character so many further on, or none past the end |
| Utf8Text.OffsetBackward | src/builtin/utf8.rs:312-322 | counting back likewise |
| Utf8Text.OffsetFromFront | src/builtin/utf8.rs:268-338 | the k-th character from the front |
| Utf8Text.OffsetFromBack | src/builtin/utf8.rs:268-338 | with a negative count, the character so many from the back |
| Utf8Text.OffsetOfByte | src/builtin/utf8.rs:291-295 | the character that contains a byte |
| Utf8Text.OffsetInside | src/builtin/utf8.rs:296-300 | counting from inside a character is refused |
| Utf8Text.OffsetPositions | src/builtin/utf8.rs:282-290 | positions outside the text are refused, and negative ones count from its end |
| Utf8Text.EncodingsOk | src/builtin/utf8.rs:79-97 | encoded characters are a first byte followed by continuation bytes |
| Pratt.YieldParses | src/parser/rules.rs:109-181 | a tree that respects the binding powers, followed by no operator, is read back from its yield |
| Pratt.ParsesRespect | src/parser/rules.rs:113-161 | every tree returned respects the binding powers and yields exactly the consumed tokens |
| Pratt.YieldUnambiguous | src/parser/machinery.rs:136-159 | a token sequence is the yield of at most one such tree |
| Pratt.RespectsIsByTheManual | src/parser/machinery.rs:127-159 | the binding powers are the precedence and associativity of section 3.4.8 of the Lua 5.5 manual |
| Pratt.OperatorsOfTheManual | src/parser/machinery.rs:127-159 | the infix and prefix operators are exactly those listed: the manual's, and unary `+`, which the code accepts beyond it |
| Pratt.ParsesTheManual | src/parser/rules.rs:113-161 | a tree is what the parser reads from the front of some tokens if and only if it is built by the manual's precedence and associativity, with the manual's own list of operators, the tokens begin with its yield, and no operator follows |
| Sink.SinkRebuilds | src/parser/machinery.rs:424-468 | the sink issues the calls of the intended tree, through chains of any length and abandoned markers, and never panics |
| Sink.SinkBalanced | src/parser/machinery.rs:424-468 | its calls are balanced and emit each token once, in order |
| SinkLoop.Finish | src/parser/machinery.rs:424-468 | the loop that takes events out of the list as it follows chains |
| ParserEvents.BuiltIsRebuilt | src/parser/machinery.rs:229-303 | every balanced use of `start`, `complete`, `precede`, `retype` and `abandon` becomes the tree it means |
| ParserEvents.AbandonedTooSoon | src/parser/machinery.rs:263-280 | if a preceding marker is abandoned as the last event, the node before it takes the event that comes right after: the sink stops there if that is no start, else that later node encloses it; for every node and every following events |
| ParserState.State.Precede | src/parser/machinery.rs:292-303 | links the completed node to the new start |
| ParserState.State.Abandon | src/parser/machinery.rs:263-280 | leaves a tombstone, or nothing if the start was the last event |
| ParserState.State.RExprInner | src/parser/rules.rs:113-161 | parses what the specification parses and leaves the events of the tree |
| ParserState.State.RExprLhs | src/parser/rules.rs:164-175 | the start of an expression |
| ParserState.State.RExprUnary | src/parser/rules.rs:177-184 | a prefix operator and its operand |
| ParserState.State.RParenExpr | src/parser/rules.rs:202-208 | a parenthesised expression |
| ParserState.ParsedIsRebuilt | src/parser/machinery.rs:424-468 | from tokens to builder calls: the sink rebuilds the parsed tree with its tokens in order |

## Left out

- LuaTheorems.ValueContext: asks that no elided pair was the target of an earlier jump, because the code miscompiles otherwise. The condition is exact for the compiler's flag and not for correctness: a jump left behind may never be taken (`LuaElision.HarmlessRuns`), and which orphaning expressions still run correctly is not decided here.
- LuaTheorems.ProgramMirrors: asks that no jump is left behind an elided pair and that the source makes at most 65536 labels, because the code breaks beyond that; the offsets of jumps are unbounded here, 32 bits in the source.
- LuaTheorems.NeverPanics: the debug assertions of `patch_to_here` are no panics of the model; the lemmas of `LuaAsserts` prove them apart, for label numbers that have not run out.
- Upvalues.ResolvesOrCaptures: asks that every function that must capture the name has a number left, because a read may denote another variable otherwise (`UpvaluesWrap.UpvaluesRunOut`), and treats `_ENV` apart, whose descriptor in the main chunk is only a placeholder.
- UpvaluesWrap.ReadsRightIff: a global is a field of whatever `_ENV` denotes; which table that is without a number left for `_ENV` is not followed.
- GcLedger.FrugalRunsDoNotUnderflow: asks that barrier parents need tracing, because the counters may underflow otherwise.
- GcLedger.CreditsBounded: factors are reals, without rounding.
- RootSlots.RunsKeep: the table and the number of handles stay below the greatest index, which memory guarantees.
- Sink.SinkRebuilds: a marker put before a node is not abandoned while it is the last event; `ParserEvents.AbandonedTooSoon` says what the sink does then. The parser's own rules never do this.
- Collector memory is a map from addresses to boxes; pointer tagging, layouts, vtables, lifetimes, panics in destructors and external-allocation accounting are not modelled, and counters are unbounded integers.
- Tracing a value is visiting its listed children, and a value that needs no tracing has none.
- Destination hints, assignments, `for`, calls, varargs, `goto`, `<close>`, string constants and arithmetic in the compiler; float literals are kept by their bits.
- Comparisons are a function of the operand values that may raise; metamethods with side effects are not modelled. Statement bodies are opaque work on the locals.
- A jump index equal to the tape length in `patch_list_aux` is skipped in the model and out of bounds in the source; neither occurs for well-formed descriptions.
- Comparators that change the table being sorted, suspension, and the primitive comparison of values.
- `DynamicRootSet` identity and `fetch`; slots of other sets.
- `utf8.char`, `utf8.codes`, `utf8.codepoint` and argument checking.
- Lexing, error recovery and statements in the parser; calls, indexing, tables and functions as expressions end the parse of the model. A prefix operator without an operand, which the parser lets pass, is an error here.
- The executor, coroutines, tables, metamethods and the standard library otherwise.
