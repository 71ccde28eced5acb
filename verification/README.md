# mini-debugger in Dafny

A model of the parts of mini-debugger, a ptrace debugger with its own DWARF parsers, that
keep a debugged program intact and read its debug information, with proofs of what they
promise. `dafny verify dfyconfig.toml` checks the whole project.

## What is modelled

**The breakpoint state machine** (`Tracee`, `Overlay`, `Kernel`, `Session`, `Outcomes`,
`Mutation`, `Commands`, `Resuming`, `Debugging`, `Worlds`, `Driver`, `FailingInputs`). The
tracee is byte memory, RIP, the remaining registers, and DR0, DR6, DR7. Programs behave by two
relations, what an instruction does and how a delivered signal enters its handler. The kernel
is an arbitrary function that answers every resumption under the law `Kernel.Answers`:

- the resumed task makes moves of these relations, at most one when single-stepped, into a
  handler only if the debugger delivers a signal, and never through an INT3, which traps;
- it then stops with a signal, forks, execs or ends; no other task changes;
- a SIGTRAP comes from an INT3, a completed step, debug register slot 0, or anything else: a
  signal sent by whomever, at any moment, with or without a requested step;
- the task does not write its own debug registers.

What a program would be with no debugger attached is its *logical* state, the concrete state
with the saved bytes lifted back. The invariant `Session.Consistent` says that INT3 is exactly
at the installed breakpoints, that ids and addresses are inverse, that a breakpoint is out
exactly while its displaced step is pending, that slot 0 of the debug registers holds the
watchpoint and the snapshot what was there before, and that at most three process domains with
disjoint ids exist, the retained ones stopped with nothing pending.

That alone would allow a debugger that corrupts its programs. `Worlds` therefore describes the
undebugged programs of a session on their own, without tables or patches, and what may happen
to them: they run, the user stores into them, they fork, exec and end. `Driver.Play` proves
that every sequence of commands against every kernel is a sequence of such steps, and that a
detached process is what its undebugged program is. `Driver.ContinueMany` proves transparency:
the stops of any series of continues lie on one run of the undebugged program, and no managed
instruction of it is executed without a stop. All this assumes what the debugger relies on,
`Overlay.Discreet`: on the states they go through, the programs touch managed bytes only by
fetching an instruction that starts there.

**Users of the breakpoint machine** (`SourceMotion`, `Requests`, `Deferred`,
`FailingSessions`, `TaskTable`): `step`, `next` and `finish` with their temporary breakpoints,
which no program notices; breakpoints on code not yet loaded, and whose every breakpoint of the
table is over whole sessions; and the table of a process's tasks.

**Call-frame information** (`Leb128`, `Fields`, `CallFrame`, `EhFrame`, `Unwind`): the
interpreter with its early exit against the fully expanded table, two independent scanners of
`.eh_frame` against each other, and the unwinders on arbitrary stacks.

**Line tables** (`LineProgram`, `LineIndex`): the row machine against the row matrix, the
meaning of the compiled ranges, and bisection against a linear scan. Decoders of both kinds of
programs are inverse to encoders written from the standard's tables.

**Core memory and inline scopes** (`CoreMemory`, `RangeList`, `InlineScopes`, `InlineLocals`):
reads that never mix sources, range lists, the chain of active inlined calls, and the agreement
of the catalogue of their locals with the lookup of one.

Where the source throws, a member returns `Err`. Loops of the source are methods proved
against functions. Objects whose methods change fields are classes.

## Where a promise does not hold as stated

Each is kept as the code has it, with the condition under which it holds and an input for
which it does not.

- `single_step` does not look whether RIP stands on an armed byte. A completed step is one
  instruction whenever it does not; otherwise RIP moves by one byte and nothing else happens
  (`Debugger.SingleStep`, `FailingInputs.StepFromArmedByteIsNoStep`).
- A SIGTRAP that was sent to the process is taken for a completed step if one was requested,
  and for a hit if RIP is just behind an installed breakpoint, and in no other case
  (`Resuming.SentTrapIff`, `FailingInputs.SentTrapIsTakenForStep`, `SentTrapIsTakenForHit`).
- A fork that is refused in a displaced step leaves the step pending. If the program then stands
  on another breakpoint, the next displaced step executes its INT3 (`Resuming.Unfinished`,
  `FailingInputs.RefusedForkLeavesStepPending`, `UnfinishedStepSkips`).
- `discard_breakpoint` leaves its INT3 in memory; the program is unchanged exactly when the
  breakpoint was out or hid an INT3 (`Debugger.DiscardBreakpoint`,
  `FailingInputs.DiscardedBreakpointStays`).
- `next` and `finish` with a breakpoint of the user's at the return address return normally
  when the image or the process is replaced; the table is then empty or the survivor's.
- `reconcile_requests` does not notice a breakpoint that was removed from the debugger's table
  while its target still resolves to the same address (`Requests.Overlooked`,
  `FailingSessions.RequestIsOverlooked`, `RemovedIsOverlooked`).
- `reconcile_requests` forgets the breakpoint of a target that has moved without writing the
  program's byte back; the program notices exactly if that byte was no INT3
  (`DeferredBreakpoints.ReconcileRequests`, `FailingSessions.MovedLeavesInt3`,
  `MovedTargetIsSeen`).
- A deferred request or a continue that needs a bootstrap breakpoint where none can be set
  leaves the bootstrap address behind, and in no other case (`Requests.Monitors`). Then a stop of
  the user's at the entry point is taken for an internal one
  (`FailingSessions.UserStopIsSwallowed`). And a loader breakpoint remains for good if and only if
  one is set while that address is remembered, the process stops at a breakpoint there, and by
  then the loader can be armed somewhere else (`DeferredBreakpoints.HandleInternalStop`,
  `Requests.LostIff`, `FailingSessions.BreakpointIsOrphaned`).
- `scaled_offset` refuses some products that fit, and `advance` a zero code alignment; the
  cases are stated exactly.
- `find_virtual_file` can name an owner where `find_virtual_address` finds nothing, exactly when
  the last range that begins at or before the address has ended
  (`LineIndex.OwnedWithoutLocation`).
- The frame-pointer unwinder reports the end of the chain for a trace of maximum length whose
  last frame pointer is zero (`Unwind.FullLengthWithoutLimitReached`).
- The value lookup for an inlined local reads the names of all locals of the unit, so it can
  fail for a name the catalogue lists; exactly when one of those names cannot be read
  (`InlineLocals.ListedButNotFound`).

## Model

| member | source | states |
|---|---|---|
| `Tracee.WriteByteStoresOneByte` | src/ptrace/ptrace.cpp:151-156 | writing a byte by reading, patching and poking its whole word changes exactly that byte of memory, and every other byte keeps its value |
| `Tracee.ReadByteIsTheByte` | src/ptrace/ptrace.cpp:147-149 | the low byte of the little-endian word at an address is the byte at that address |
| `Tracee.ReadMemory` | src/ptrace/ptrace.cpp:131-145 | reading in words of eight bytes, the last one cut off, gives exactly the bytes of the range; it fails exactly when a word it needs is not mapped |
| `Kernel.Machine.Poke` | src/ptrace/ptrace.cpp:151-156 | a byte write changes that byte of that task and nothing else of any task |
| `Kernel.Machine.Resume` | src/ptrace/ptrace.cpp:68-80 | a resumed task makes some moves (at most one when single-stepped, into a handler only if a signal is delivered) and then stops, forks, execs or ends; a SIGTRAP is an INT3, a completed step, a watchpoint, or a signal sent by anyone at any moment; no other task changes |
| `Overlay.LiftedRun` | src/debugger/debugger.cpp:977-1008 | along any run of the armed program no armed instruction is executed, the overlay stays in place, and lifting the hidden bytes gives a run of the undebugged program, which leaves an armed address only into the handler of a delivered signal |
| `Overlay.TailContinuesRun` | src/debugger/debugger.cpp:977-1008 | the logical states of a resumed run continue the run so far, one move at a time, and execute no armed instruction |
| `Overlay.PutBack` | src/debugger/debugger.cpp:467-475 | writing all saved bytes back, each through its word and in any order, restores the program's memory |
| `Session.ArmingKeepsOtherSlots` | src/debugger/debugger.cpp:335-376 | arming slot 0 of DR7 enables it and leaves every bit of the other slots as it was |
| `Session.SavedBytesAreLogical` | src/debugger/debugger.cpp:276-292 | in a consistent process every saved byte is the program's byte, and every other byte of memory is the program's own |
| `Session.ArmingKeepsConsistent` | src/debugger/debugger.cpp:276-292 | arming keeps the session invariant and the undebugged program |
| `Session.RemovingKeepsConsistent` | src/debugger/debugger.cpp:294-311 | removing keeps the session invariant, in any process state, and the undebugged program |
| `Session.DiscardingKeepsSound` | src/debugger/debugger.cpp:313-323 | forgetting a breakpoint keeps the rest consistent; it keeps the undebugged program if and only if the breakpoint was out or hid an INT3, since the INT3 stays behind |
| `Session.HitKeepsSound` | src/debugger/debugger.cpp:995-1008 | the repair after a hit (RIP back, byte restored, step pending) keeps the overlay and the program's memory |
| `Session.ReinsertingKeepsSound` | src/debugger/debugger.cpp:550-557 | putting the INT3 back after the displaced step keeps the overlay and is not seen by the program |
| `Session.ClassifyKeepsSound` | src/debugger/debugger.cpp:970-993 | whatever a SIGTRAP turns out to be, the classified and repaired process is sound, and only RIP of the program has changed |
| `Session.ClassifySettles` | src/debugger/debugger.cpp:514-526 | after classification no watchpoint report is left in DR6, and process, ids and addresses are as before |
| `Outcomes.ExecKeepsConsistent` | src/debugger/debugger.cpp:618-635 | after exec nothing is armed and the program is exactly what the task holds |
| `Outcomes.HandOverKeepsConsistent` | src/debugger/debugger.cpp:575-609 | a survivor that takes over is consistent without any repair, and at most three domains with disjoint ids remain |
| `Outcomes.ReleasingKeepsConsistent` | src/debugger/debugger.cpp:906-941 | releasing a fork child keeps the session invariant and the followed parent's program |
| `Outcomes.AdoptingKeepsConsistent` | src/debugger/debugger.cpp:828-904 | the adopted fork child has all of its parent's breakpoints, ids and watchpoint over the same logical memory |
| `Outcomes.ForkBesideKeepsConsistent` | src/debugger/debugger.cpp:732-826 | retaining both processes keeps the invariant: at most three domains, disjoint ids, the child's watchpoint registers armed |
| `Mutation.PokingIsStoring` | src/debugger/memory_mutation.cpp:56-67 | poking around the armed bytes and updating the saved ones is, underneath the breakpoints, a store of exactly the given range |
| `Mutation.PokeAround` | src/debugger/memory_mutation.cpp:56-63 | the write loop stores every byte of the range that is not armed, in order, up to the first unmapped word |
| `Mutation.Rehide` | src/debugger/memory_mutation.cpp:65-67 | exactly the installed breakpoints within the range get the written byte as their saved byte |
| `Mutation.FindUninstalled` | src/debugger/memory_mutation.cpp:45-54 | a write is refused exactly when an uninstalled breakpoint lies in its range |
| `Commands.WritingKeepsConsistent` | src/debugger/memory_mutation.cpp:22-68 | a whole write keeps every armed byte at INT3 and the session invariant, and updates the program's memory on exactly the range |
| `Commands.PartialWriteKeepsConsistent` | src/debugger/memory_mutation.cpp:56-67 | a write that fails at an unmapped word still leaves a consistent session |
| `Commands.WatchingKeepsConsistent` | src/debugger/debugger.cpp:335-376 | arming a watchpoint keeps the invariant with the previous registers in the snapshot |
| `Commands.ExchangingKeepsConsistent` | src/debugger/debugger.cpp:198-240 | selecting another process keeps ids disjoint and every retained process complete |
| `Commands.DetachingIsClean` | src/debugger/debugger.cpp:441-490 | after restoring, memory is the program's memory and DR0, DR6, DR7 are the snapshot's |
| `Resuming.RunKeepsSound` | src/debugger/debugger.cpp:401-420 | whatever the program executes, it leaves the overlay, the tables and slot 0 sound |
| `Resuming.TrapKeepsFaith` | src/debugger/debugger.cpp:964-993 | whatever caused a SIGTRAP, the classified program has gone along exactly the moves that were made; a completed step is exactly one, or none if the SIGTRAP was a sent one; a hit stands on an armed address; the two exceptions, a step on an armed byte and a foreign SIGTRAP behind a breakpoint, put RIP off by one, exactly as stated |
| `Resuming.SentTrapIff` | src/debugger/debugger.cpp:964-993 | a sent SIGTRAP leaves the program where it is and reports no step that did not happen if and only if no step was requested and RIP is not just behind an installed breakpoint |
| `Resuming.SteppedOverIsSound` | src/debugger/debugger.cpp:528-557 | once the step-over returns nothing is pending, every breakpoint of the then active process is in place, and the program has not noticed |
| `Resuming.StepOnArmedByte` | src/debugger/debugger.cpp:422-439 | a single step started on an armed byte, no signal being delivered, executes the INT3: RIP moves by one and nothing else happens, unless a sent SIGTRAP comes before it |
| `Resuming.ToldRan` | src/debugger/debugger.cpp:564-993 | after every stop, whatever its cause, the program's memory and registers other than RIP are those some run of the undebugged program from where it was ends with |
| `FailingInputs.StepFromArmedByteIsNoStep` | src/debugger/debugger.cpp:422-439 | a concrete consistent session and kernel answer in which a step from an armed byte is reported as completed though the program has no such step |
| `FailingInputs.SentTrapIsTakenForStep` | src/debugger/debugger.cpp:972-975 | a concrete session in which a sent SIGTRAP is reported as a completed step and nothing was executed |
| `FailingInputs.SentTrapIsTakenForHit` | src/debugger/debugger.cpp:977-988 | a concrete session in which a SIGTRAP sent just behind a breakpoint is reported as a hit, RIP is moved back, and the instruction there is executed twice |
| `FailingInputs.RefusedForkLeavesStepPending` | src/debugger/debugger.cpp:528-548 | a concrete session in which a fork refused in a displaced step leaves the step pending though it was made, with the program on the next breakpoint |
| `FailingInputs.UnfinishedStepSkips` | src/debugger/debugger.cpp:528-548 | from there the next displaced step executes an INT3 and an instruction of the program is skipped |
| `FailingInputs.DiscardedBreakpointStays` | src/debugger/debugger.cpp:313-323 | a concrete session in which a discarded breakpoint leaves its INT3 in the program |
| `Debugging.Debugger.constructor` | src/debugger/debugger.cpp:93-114 | a fresh session is consistent, has nothing armed, and its trace is the program's state |
| `Debugging.Debugger.AddBreakpoint` | src/debugger/debugger.cpp:276-292 | succeeds exactly when the policy, the process state, the table and the mapping allow it; then the byte is INT3, the old byte saved, the id new, the program unchanged; a refusal changes nothing |
| `Debugging.Debugger.RemoveBreakpoint` | src/debugger/debugger.cpp:294-311 | found exactly when the id is managed; the byte is written back if installed and the process stopped, a pending step for it forgotten, the program unchanged |
| `Debugging.Debugger.DiscardBreakpoint` | src/debugger/debugger.cpp:313-323 | forgets without writing, in any process state; in a stopped one the program is unchanged exactly when the breakpoint was out or hid an INT3 |
| `Debugging.Debugger.ClassifyTrap` | src/debugger/debugger.cpp:970-993 | a SIGTRAP is a watchpoint report, the requested step, a hit that is repaired, or a foreign trap, in this order |
| `Debugging.Debugger.ClassifyWatchpointStop` | src/debugger/debugger.cpp:514-526 | reports exactly when the owner's DR6 says slot 0, and clears only that bit |
| `Debugging.Debugger.PrepareBreakpointHit` | src/debugger/debugger.cpp:995-1008 | RIP moved back, byte restored, breakpoint out, step pending, and nothing else |
| `Debugging.Debugger.FirstStoppedRetained` | src/debugger/debugger.cpp:191-196 | the retained process with the smallest pid, if there is one |
| `Debugging.Debugger.SwapActive` | src/debugger/debugger.cpp:198-221 | exactly exchanges the active domain with a retained one |
| `Debugging.Debugger.HandleEnd` | src/debugger/debugger.cpp:567-615 | the end of the only process, or a hand-over to a survivor with its tables unchanged |
| `Debugging.Debugger.HandleExec` | src/debugger/debugger.cpp:618-635 | everything about the replaced image is dropped and the session is consistent |
| `Debugging.Debugger.ReleaseChild` | src/debugger/debugger.cpp:906-941 | the released child holds the program's own bytes and debug registers; the parent is untouched |
| `Debugging.Debugger.FollowTheChild` | src/debugger/debugger.cpp:828-904 | the parent is left byte-clean and the child has every breakpoint with its id |
| `Debugging.Debugger.RetainChild` | src/debugger/debugger.cpp:772-826 | the child is kept beside the parent with the parent's watchpoint and no breakpoints |
| `Debugging.Debugger.OnFork` | src/debugger/debugger.cpp:722-941 | for all three policies: refused exactly by the stated conditions, otherwise the stated outcome for both processes, and the program's run prolonged by exactly what was executed |
| `Debugging.Debugger.Resume` | src/debugger/debugger.cpp:564-993 | every event of a resumed process, a SIGTRAP of any cause included, leads to the outcome of its kind and a consistent session; the trace of the program is prolonged by the moves that were made, and its memory is reached by them in every case, also where RIP slips |
| `Debugging.Debugger.ReinsertBreakpoint` | src/debugger/debugger.cpp:550-557 | puts INT3 back exactly where the breakpoint is managed and out |
| `Debugging.Debugger.StepOverPending` | src/debugger/debugger.cpp:528-548 | one displaced instruction, whatever happens in it, and then nothing pending and everything installed in whichever process is active |
| `Debugging.Debugger.ContinueExecution` | src/debugger/debugger.cpp:401-420 | after a displaced step if one is pending, runs on; the undebugged run is prolonged without skipping or repeating and without executing a managed instruction, and a breakpoint stop at an address means the program is about to execute it; a misread foreign SIGTRAP and an unfinished displaced step change RIP only, as stated; and the session is what the kernel's first report makes of it, if that is a signal that ends the call |
| `Debugging.Debugger.SingleStep` | src/debugger/debugger.cpp:422-439 | a completed step is exactly one move of the program, or none for a sent SIGTRAP, whenever RIP is not armed; RIP plus one and nothing else when the INT3 is executed; it never ends in a breakpoint hit |
| `Debugging.Debugger.WriteMemory` | src/debugger/memory_mutation.cpp:22-68 | accepted exactly under the stated conditions; stores exactly the range into the program's memory underneath the breakpoints; a rejection changes nothing; a failing poke leaves a described prefix written; a pending step stays resumable |
| `Debugging.Debugger.AddWriteWatchpoint` | src/debugger/debugger.cpp:335-376 | succeeds exactly when not refused; DR0 and DR7 armed, the other slots' bits kept, the previous registers in the snapshot |
| `Debugging.Debugger.RemoveWatchpoint` | src/debugger/debugger.cpp:378-387 | restores DR0, DR6 and DR7 to the snapshot |
| `Debugging.Debugger.SetForkFollowPolicy` | src/debugger/debugger.cpp:152-178 | accepted exactly when the processes and the table allow it |
| `Debugging.Debugger.SelectProcess` | src/debugger/debugger.cpp:223-240 | switches exactly when the target is retained and the active process is stopped with nothing pending |
| `Debugging.Debugger.Detach` | src/debugger/debugger.cpp:441-490 | an attached process is left with the program's own memory, and with DR0, DR6, DR7 as in the snapshot |
| `Driver.Play` | src/debugger/debugger.cpp:276-557 | any sequence of commands against any behaviour of the traced processes moves the undebugged programs only by their own runs, the user's stores and the reported forks, execs and ends; a process that was detached has the memory, registers and debug registers its undebugged program had; RIP is off only after a misread SIGTRAP or from the states stated |
| `Driver.PlayOne` | src/debugger/debugger.cpp:276-557 | one command is one step of the undebugged world, given its result: setting and removing breakpoints is none at all |
| `Worlds.ResumptionIsStep` | src/debugger/debugger.cpp:564-941 | a stop of any kind is a step of the world: the resumed program ran and no other changed; a fork adds a copy or exchanges parent and child; exec replaces one program; an end removes one and hands over |
| `Worlds.RemovalUnseen` | src/debugger/debugger.cpp:294-311 | taking a breakpoint out is seen by no program |
| `Worlds.DiscardSeen` | src/debugger/debugger.cpp:313-323 | a discarded breakpoint leaves its INT3 to the program looked at if it was installed, and nothing else of any program changes |
| `Worlds.PatchUnseenIff` | src/debugger/debugger.cpp:313-323 | INT3s left in a program go unseen exactly where it had them anyway |
| `Worlds.WatchingSeen` | src/debugger/debugger.cpp:335-376 | a watchpoint changes no program, and the debug registers the program had are remembered |
| `Worlds.UnwatchingSeen` | src/debugger/debugger.cpp:378-387 | removing it gives the program the debug registers it had |
| `Worlds.StoreSeen` | src/debugger/memory_mutation.cpp:22-68 | a write is a store into the one program looked at |
| `Worlds.PartSeen` | src/debugger/memory_mutation.cpp:56-67 | a write that fails has stored some of its bytes and changed nothing else of any program |
| `Worlds.SelectionUnseen` | src/debugger/debugger.cpp:198-240 | selecting another process changes no program |
| `Worlds.DetachmentSeen` | src/debugger/debugger.cpp:441-490 | detaching removes one program from the session and leaves its process exactly as that program is |
| `Driver.ContinueMany` | src/debugger/debugger.cpp:401-420 | any series of continues with any signals forwarded, no SIGTRAP being misread, goes along one run of the undebugged program up to its last stop in the same program; stop k is state at[k] of it, a breakpoint stop at an address is about to execute it, and every managed instruction the run comes to is such a stop or left into a handler |
| `Driver.ForkKeepsOverlay` | src/debugger/debugger.cpp:722-941 | a fork at any moment, also inside a displaced step: the process released has the program's own memory and debug registers, the one followed has every breakpoint with its id, all installed |
| `Driver.DeathHandsOver` | src/debugger/debugger.cpp:567-615 | a death at any moment, also inside a displaced step, hands over to a survivor whose tables and memory are unchanged |
| `SourceMotion.IdsCarryOver` | src/debugger/debugger.cpp:564-941 | which table a stop leaves: the same ids, none after exec, or the survivor's |
| `SourceMotion.ContinueToTemporary` | src/source/source_step.cpp:145-172 | a temporary breakpoint is taken out again on every path and no program notices it: the whole call is one resumption of the undebugged programs; a user's breakpoint at the address is kept; a replaced image or process is reported as success only if there was no temporary one to miss |
| `SourceMotion.RunToReturnAddress` | src/source/source_finish.cpp:110-138 | finish leaves the managed ids as they were unless the image or process was replaced, and is one resumption of the undebugged programs; it says returned exactly at the target with no breakpoint of the user's there |
| `SourceMotion.NextSource` | src/source/source_step.cpp:135-198 | next leaves the managed ids as they were on every path unless the image or process was replaced; it is a series of as many resumptions of the undebugged programs as it counts, within its instruction limit |
| `Deferred.DeferredBreakpoints.AddTarget` | src/loader/deferred_symbol_breakpoints.cpp:173-203 | accepted exactly when the target is new, its breakpoint can be set if it resolves, and the loader can be monitored then; a new request has a breakpoint exactly when its target resolves; no program notices anything; a refused one leaves requests and table as they were, and a bootstrap address exactly when the entry point could not be armed |
| `Deferred.DeferredBreakpoints.Remove` | src/loader/deferred_symbol_breakpoints.cpp:205-214 | takes the breakpoint out of the table and no other that is the user's or a request's; with the last request the internal breakpoints go; fails exactly when the breakpoint had disappeared; no program notices |
| `Deferred.DeferredBreakpoints.EnsureMonitoring` | src/loader/deferred_symbol_breakpoints.cpp:226-245 | with requests there is a loader or a bootstrap breakpoint, exactly when one can be set; nothing else is added and no program notices; a bootstrap address is left over exactly when the entry point cannot be armed, and stands beside a loader breakpoint exactly when one was left over before |
| `Deferred.DeferredBreakpoints.ReconcileOne` | src/loader/deferred_symbol_breakpoints.cpp:247-268 | one request brought up to date without touching the breakpoints of the others; the program gets exactly the INT3 of its stale breakpoint |
| `Deferred.DeferredBreakpoints.ReconcileRequests` | src/loader/deferred_symbol_breakpoints.cpp:247-268 | every request has a breakpoint exactly when its target resolves, at the resolved address; the table holds it exactly unless it had been removed from the table while its target kept its address; the programs notice it exactly if a stale breakpoint was forgotten over a byte that is no INT3 |
| `Deferred.DeferredBreakpoints.SuspendMonitoring` | src/loader/deferred_symbol_breakpoints.cpp:270-273 | in a stopped process exactly the internal breakpoints leave the table, and no program notices |
| `Deferred.DeferredBreakpoints.HandleInternalStop` | src/loader/deferred_symbol_breakpoints.cpp:288-304 | an id that is nobody's is left in the table if and only if a loader breakpoint is set, the stop is at a remembered bootstrap address, and the loader can be armed again; then it is that loader breakpoint |
| `Deferred.DeferredBreakpoints.ContinueExecution` | src/loader/deferred_symbol_breakpoints.cpp:306-317 | in every session: on return with the process stopped the table holds a request's breakpoints, those it held before that were not internal, those of another process, and exactly the loader breakpoints forgotten in one of its turns; there are none of these if no bootstrap address is remembered beside a loader breakpoint at the start, nor if no resumption is at risk |
| `Requests.LostIff` | src/loader/deferred_symbol_breakpoints.cpp:288-304 | a turn leaves a loader breakpoint to nobody if and only if it began with a breakpoint at a remembered bootstrap address beside a loader breakpoint, stopped there, and the loader could be armed again |
| `Requests.SeriesAccounts` | src/loader/deferred_symbol_breakpoints.cpp:306-317 | over any number of turns the table gains only what is forgotten in them or what other processes had |
| `Requests.SeriesKeepsLost` | src/loader/deferred_symbol_breakpoints.cpp:306-317 | unless the image or the process is exchanged it gains all that is forgotten |
| `Requests.NothingIsLost` | src/loader/deferred_symbol_breakpoints.cpp:306-317 | nothing is forgotten if no bootstrap address is remembered beside a loader breakpoint at first, nor if no resumption is at risk |
| `Requests.CallAccounts` | src/loader/deferred_symbol_breakpoints.cpp:306-317 | the same for a whole call, from what can be seen before it |
| `Requests.ReboundClaims` | src/loader/deferred_symbol_breakpoints.cpp:247-268 | a request that loses its breakpoint or gets a new one leaves the user's and the internal breakpoints as they are |
| `Requests.StaleUnseenIff` | src/loader/deferred_symbol_breakpoints.cpp:247-268 | forgetting stale breakpoints goes unseen exactly if all of them hid an INT3 |
| `Deferred.Serve` | src/loader/deferred_symbol_breakpoints.cpp:173-317 | over every series of requests, withdrawals, continues, and breakpoints the user sets and removes, refused or not: every breakpoint in the table is a request's, an internal one still known, the user's, one that was there before, or a loader breakpoint forgotten in a turn; none of the last kind as long as no command sets a loader breakpoint beside a left-over bootstrap address |
| `FailingSessions.UserStopIsSwallowed` | src/loader/deferred_symbol_breakpoints.cpp:241-245 | a session in which a request is refused because of the user's breakpoint at the entry point, and the next stop at that breakpoint is taken for an internal one |
| `FailingSessions.BreakpointIsOrphaned` | src/loader/deferred_symbol_breakpoints.cpp:288-317 | the same session carried on through calls any client may make: the user's breakpoint removed, a second request accepted, the breakpoint set again, and a continue in which the program reaches the entry point while the loader has moved; it returns with the process stopped, nothing internal known, and a breakpoint in the table that is neither the user's nor a request's |
| `FailingSessions.RequestIsOverlooked` | src/loader/deferred_symbol_breakpoints.cpp:247-268 | a request whose breakpoint an exec has dropped while its target resolves to the same address: however it is reconciled it claims a breakpoint that is not there |
| `FailingSessions.RemovedIsOverlooked` | src/loader/deferred_symbol_breakpoints.cpp:247-268 | the same in every session in which the user removes the breakpoint of a request |
| `FailingSessions.MovedLeavesInt3` | src/loader/deferred_symbol_breakpoints.cpp:247-268 | in every session in which the target of a request has moved while its breakpoint is installed over another byte, a completed reconciliation leaves an INT3 in the program |
| `FailingSessions.MovedTargetIsSeen` | src/loader/deferred_symbol_breakpoints.cpp:247-268 | a concrete session of that kind |
| `TaskTable.Tasks.WaitFor` | src/process/process.cpp:233-297 | each report changes exactly its task; the process shows the aggregate state and looks at a stopped task if there is one; unknown tasks are refused unless they belong; an invalid clone message and an unsupported state are errors after the task was noted |
| `TaskTable.Tasks.UpdateAggregateState` | src/process/process.cpp:337-347 | stopped exactly when some task is |
| `TaskTable.Tasks.SelectCurrentTask` | src/process/process.cpp:349-358 | the smallest stopped task, or the smallest task |
| `TaskTable.Tasks.MarkRunning` | src/process/process.cpp:299-304 | only that task runs, and the aggregate follows |
| `TaskTable.Tasks.SelectTid` | src/process/process.cpp:306-324 | possible exactly when every task is stopped and the task is tracked |
| `TaskTable.Tasks.Become` | src/process/process.hpp:57-76 | after exec or adoption the process is one stopped task and nothing else |
| `TaskTable.Tasks.Detach` | src/process/process.cpp:360-408 | detached exactly when every task could be let go; the rest stay tracked |
| `TaskTable.Live` | src/process/process.cpp:233-358 | over every run the table holds the tasks of all happenings in order, and the shown state is their aggregate |
| `TaskTable.TrackedIffNotEnded` | src/process/process.cpp:233-358 | a task is in that table exactly if the last happening about its existence was its appearance, or it was there from the start and nothing ended it |
| `TaskTable.SingleTaskIsTheProcess` | README.md:124 | with one task, as the breakpoint machine assumes, the process is in the state of that task |
| `Leb128.ReadUleb` | src/dwarf/eh_frame.cpp:102-117 | the reader delivers what the bytes denote |
| `Leb128.UlebSucceedsIff` | src/dwarf/eh_frame.cpp:102-117 | a number is read exactly when an encoding of at most ten bytes within the limit denotes one below 2^64, and then that number and its own bytes |
| `Leb128.ReadSleb` | src/dwarf/eh_frame.cpp:119-134 | the lenient reader delivers the denoted number modulo 2^64, as a signed one |
| `Leb128.ReadStrictSleb` | src/dwarf/line_table.cpp:134-153 | the strict reader delivers what the bytes denote |
| `Leb128.StrictSlebSucceedsIff` | src/dwarf/line_table.cpp:134-153 | a number is read exactly when an encoding of at most ten bytes within the limit denotes one of 64 signed bits |
| `Leb128.StrictImpliesLenient` | src/dwarf/line_table.cpp:134-153 | whatever the strict reader accepts, the lenient one reads alike |
| `Leb128.UlebRoundTrip` | src/dwarf/line_table.cpp:117-132 | every unsigned 64-bit number, encoded between any bytes, is read back from exactly its own bytes |
| `Leb128.SlebRoundTrip` | src/dwarf/eh_frame.cpp:119-134 | every signed 64-bit number is read back by both readers |
| `Fields.Scalar` | src/dwarf/eh_frame.cpp:68-77 | a field is read exactly when it lies within both the limit and the data |
| `Fields.ReadCString` | src/dwarf/eh_frame.cpp:136-145 | the loop delivers the characters up to the next zero byte, or fails at the limit |
| `CallFrame.ScaledOffsetIff` | src/dwarf/eh_frame.cpp:208-222 | the product is delivered exactly when the factor is below 2^63 and the product fits, division truncating |
| `CallFrame.ScaledOffsetRefusesInRange` | src/dwarf/eh_frame.cpp:208-222 | a product that fits is refused exactly for factors from 2^63 on with alignment 0, or -1 and exactly 2^63 |
| `CallFrame.AddSigned` | src/dwarf/eh_frame.cpp:224-236 | succeeds exactly when the sum is a 64-bit address, and then it is the sum |
| `CallFrame.AdvancedIff` | src/dwarf/eh_frame.cpp:307-321 | the location advances exactly when the sum stays below 2^64 and the code alignment is not zero |
| `CallFrame.Decode` | src/dwarf/eh_frame.cpp:323-411 | an instruction consumes at least its opcode and never passes its entry |
| `CallFrame.RowsAscend` | src/dwarf/eh_frame.cpp:323-414 | the rows of an expanded program ascend from its initial location |
| `CallFrame.RunSelectsRow` | src/dwarf/eh_frame.cpp:323-414 | for every program that decodes and expands completely and every target, the early exit gives the last row at or below the target |
| `CallFrame.Execute` | src/dwarf/eh_frame.cpp:323-414 | the interpreter loop with its stack is that selection |
| `CallFrame.RememberRestore` | src/dwarf/eh_frame.cpp:375-382 | remember, any properly nested block, restore: rules and stack are as before |
| `CallFrame.NestedKeepsStack` | src/dwarf/eh_frame.cpp:375-382 | a properly nested block leaves everything remembered before it |
| `CallFrame.LastMentionDecides` | src/dwarf/eh_frame.cpp:300-374 | between remember and restore the rule of a register is what the last instruction naming it says, offsets being exact products |
| `EhFrame.ReadAugmentation` | src/dwarf/eh_frame.cpp:256-287 | the descriptor loop of the evaluator, P, L and R, is its specification |
| `EhFrame.ReadSignalAugmentation` | src/dwarf/eh_frame_signal.hpp:223-256 | the descriptor loop of the index, which also knows S, is its specification |
| `EhFrame.CiesAgree` | src/dwarf/eh_frame_signal.hpp:201-265 | what the evaluator accepts the index reads alike as no signal frame, and the index accepts nothing else that is no signal frame |
| `EhFrame.ScanIsFirstCovering` | src/dwarf/eh_frame.cpp:482-551 | on a section well-formed throughout, the scan selects the first FDE that covers the target |
| `EhFrame.FindFde` | src/dwarf/eh_frame.cpp:482-551 | the evaluator's loop, which always terminates, is that scan |
| `EhFrame.ScansAgree` | src/dwarf/eh_frame_signal.hpp:281-333 | whenever the evaluator reaches the first covering FDE or the end without error, the index stops at the same FDE or the end and answers no |
| `EhFrame.IsSignalFrame` | src/dwarf/eh_frame_signal.hpp:281-333 | the index loop answers by that scan, and no wherever the evaluator succeeds |
| `EhFrame.CoverageAt` | src/dwarf/eh_frame.cpp:507-522 | the covered addresses never wrap and are read within the entry |
| `EhFrame.EvaluateFrame` | src/dwarf/eh_frame.cpp:482-551 | the evaluator is its specification on every input, errors included; on success frame and return address are exact sums from the last row at or below the target in the table that starts with the CIE's rules |
| `EhFrame.EvaluateIff` | src/dwarf/eh_frame.cpp:482-551 | a frame is found exactly when an FDE covers the target, its rules can be worked out and both addresses can be read off them; none exactly when no FDE covers it |
| `EhFrame.RecoverRegister` | src/dwarf/eh_frame.cpp:553-571 | a caller's register is the same value or the word at its offset from the frame address, by its rule only |
| `Unwind.TraceIsSafe` | src/unwind/cfi.cpp:368-417 | on any stack, pointers strictly increase, each frame is its predecessor's caller, and the chain ends even without a limit |
| `Unwind.CallerIff` | src/dwarf/eh_frame.cpp:606-660 | a frame's caller is found exactly when the first covering FDE describes one: its stack pointer is the frame address, its instruction pointer the word in the return slot, RBP and RBX as their rules restore them |
| `Unwind.TraceIsCalls` | src/unwind/cfi.cpp:368-417 | along a whole backtrace every frame was called from the next in this sense |
| `Unwind.UnwindCallFrames` | src/unwind/cfi.cpp:368-417 | the backtrace is the chain cut at the limit; it says limit exactly when it has maximum length, and otherwise why the chain ends |
| `Unwind.SmallerLimitIsPrefix` | src/unwind/cfi.cpp:368-417 | a smaller limit yields a prefix of a larger one's trace |
| `Unwind.BuildInspectionFrames` | src/unwind/cfi.cpp:330-366 | the live inspection frames are the numbered backtrace, without at most one last frame outside of every module |
| `Unwind.BuildSnapshotFrames` | src/snapshot/inspection.hpp:227-315 | snapshot frames are the chain cut at the limit, each in a module, with its reason |
| `Unwind.ChainIsSafe` | src/unwind/frame_pointer.cpp:25-86 | frame pointers strictly increase by at most the span, only the outermost may be zero, and no return address is zero |
| `Unwind.UnwindFramePointers` | src/unwind/frame_pointer.cpp:25-86 | the chain cut at the limit; it says limit exactly at maximum length with a last frame pointer that could be followed |
| `Unwind.FullLengthWithoutLimitReached` | src/unwind/frame_pointer.cpp:66-70 | a trace of maximum length that is reported as the end of the chain |
| `LineProgram.Decode` | src/dwarf/line_table.cpp:551-644 | an instruction consumes at least its opcode and stays within its unit |
| `LineProgram.FileOffset` | src/dwarf/line_table.cpp:386-395 | file indices count from one up to version 4 and from zero in version 5 |
| `LineProgram.RunUnit` | src/dwarf/line_table.cpp:536-644 | the ranges of a unit are its row matrix, compiled as the rows appear |
| `LineProgram.SequenceMeaning` | src/dwarf/line_table.cpp:536-548 | for every sequence with nondecreasing addresses the ranges are non-empty, ordered and disjoint, and each address has the location of the last row at or before it, or none |
| `LineProgram.SequenceBySequence` | src/dwarf/line_table.cpp:543-547 | sequences do not see each other |
| `LineIndex.UpperBound` | src/dwarf/line_table.cpp:661-663 | bisection finds how many ranges begin at or before the address |
| `LineIndex.FindVirtualAddress` | src/dwarf/line_table.cpp:659-668 | any location comes from a range that contains the address; on disjoint ranges the search is a linear scan |
| `LineIndex.ContainingIsChosen` | src/dwarf/line_table.cpp:659-668 | on disjoint ranges whichever contains the address is chosen |
| `LineIndex.FindOwner` | src/dwarf/line_table.cpp:677-691 | an owner exactly when all containing ranges are of one unit, none when there are none, refused when two units claim the address |
| `LineIndex.FindVirtualFile` | src/dwarf/line_table.cpp:677-699 | the owner's file of that index; the owner is the unit of the chosen range |
| `LineIndex.OwnerIsOfChosen` | src/dwarf/line_table.cpp:659-699 | with an owner, the search by address finds the owner's range exactly when the last range beginning at or before the address has not ended |
| `LineIndex.OwnedWithoutLocation` | src/dwarf/line_table.cpp:659-699 | overlapping ranges where an address has an owner but no location |
| `LineIndex.LookupMeansLastRow` | src/dwarf/line_table.cpp:536-668 | from row matrices that ascend and do not overlap, through compilation and sorting, every lookup gives the last row at or before the address |
| `LineIndex.UnitIsSequences` | src/dwarf/line_table.cpp:536-548 | the ranges of a unit are those of its sequences one after the other, and of rows left without an end |
| `LineIndex.BuildRanges` | src/dwarf/line_table.cpp:536-658 | the ranges built from all units are those of the sequences of their row matrices, if no unit leaves a sequence open; it fails exactly when a program does not decode |
| `CoreMemory.CheckedAdd` | src/elf/elf.cpp:37-42 | succeeds exactly when the sum fits 64 bits |
| `CoreMemory.ReadMemory` | src/elf/elf.cpp:508-531 | the read loop answers from one segment's captured bytes |
| `CoreMemory.ReadIff` | src/elf/elf.cpp:508-531 | on segments that do not overlap, a range is read exactly when one segment has captured it, with exactly its bytes |
| `CoreMemory.BulkIsJoined` | src/elf/elf.cpp:508-531 | a bulk read is its single-byte reads joined; it succeeds exactly when all of them do and the range stays in its segment |
| `CoreMemory.MappingForAddress` | src/elf/elf.cpp:533-542 | on sorted mappings the early exit loses nothing: the first owner, or none exactly when there is none |
| `CoreMemory.ReadSnapshotMemory` | src/snapshot/memory.hpp:26-98 | from the core exactly when every byte is captured, from a file exactly when none is and one mapping's file has the whole range, refused otherwise; and which bytes |
| `InlineScopes.IsDescendantOf` | src/dwarf/source_lookup_impl.inc:509-517 | the walk over parents decides ancestry |
| `InlineScopes.InlineDepth` | src/dwarf/source_lookup.cpp:119-130 | one more than the number of inlined calls between the entry and the subprogram |
| `InlineScopes.CollectActive` | src/dwarf/source_lookup.cpp:163-184 | exactly the active inlined calls of the subprogram, with their depths |
| `InlineScopes.DiscoverChain` | src/dwarf/source_lookup.cpp:163-202 | a returned chain is exactly the active calls, nested, element i with i calls around it; refused exactly when attributes cannot be read or there is no such chain of at most eight |
| `InlineScopes.ChainHasNoGaps` | src/dwarf/source_lookup.cpp:190-202 | a chain is totally ordered by ancestry and contains every inlined call around each element |
| `InlineLocals.ScopeDepth` | src/dwarf/source_lookup.cpp:132-151 | the number of active lexical blocks between a local and the call, if nothing else is between |
| `InlineLocals.BestIsUniqueDeepest` | src/dwarf/source_lookup.cpp:549-572 | the fold picks the only match at the greatest depth |
| `InlineLocals.BestFailsIff` | src/dwarf/source_lookup.cpp:336-344 | the fold fails exactly when two matches are equally deep and none before the second is deeper |
| `InlineLocals.DiscoverLocals` | src/dwarf/source_lookup.cpp:314-347 | exactly the names that mean something, each with the depth and kind of its pick; refused if and only if a scope or a name in an active scope cannot be read, some name is ambiguous at some moment, or there are more than 64 |
| `InlineLocals.LookUpLocal` | src/dwarf/source_lookup.cpp:549-579 | succeeds exactly when all it reads can be read and the name has a pick, and then selects it |
| `InlineLocals.CatalogueAgreesWithLookup` | src/dwarf/source_lookup.cpp:314-347 | for a listed name the lookup selects the entry that was listed, the only one at the greatest depth, exactly when the name of every local of the unit can be read |
| `InlineLocals.ListedButNotFound` | src/dwarf/source_lookup.cpp:549-572 | a unit with an unreadable name outside of the selected call, where a listed name cannot be looked up |
| `Fields.ScalarRoundTrip` | src/dwarf/eh_frame.cpp:68-77 | a little-endian field is read back from between any bytes |
| `Fields.CStringRoundTrip` | src/dwarf/eh_frame.cpp:136-145 | a terminated string is read back from between any bytes |
| `CallFrame.DecodeRoundTrip` | src/dwarf/eh_frame.cpp:344-411 | every call-frame instruction is decoded back from its encoding between any bytes |
| `CallFrame.CompactForms` | src/dwarf/eh_frame.cpp:328-342 | the three forms with the operand in the opcode decode to their instruction |
| `CallFrame.ProgramRoundTrip` | src/dwarf/eh_frame.cpp:323-414 | every call-frame program is decoded back from its encoding |
| `CallFrame.LastCfaDecides` | src/dwarf/eh_frame.cpp:383-406 | between remember and restore the frame address is given by the last instructions that define its register and its offset |
| `EhFrame.CieRoundTrip` | src/dwarf/eh_frame.cpp:238-298 | every CIE with augmentation zR is parsed back field by field, with its instructions where they are |
| `EhFrame.CoverageRoundTrip` | src/dwarf/eh_frame.cpp:509-521 | the addresses an FDE covers are found back from their encoding relative to the field |
| `LineProgram.DecodeRoundTrip` | src/dwarf/line_table.cpp:551-644 | every line-number instruction is decoded back from its encoding between any bytes |
| `LineProgram.ProgramRoundTrip` | src/dwarf/line_table.cpp:551-644 | every line-number program is decoded back from its encoding |
| `LineProgram.SpecialOpcodeMeans` | src/dwarf/line_table.cpp:638-643 | the special opcode chosen for a line and an address advance does exactly both |
| `LineProgram.ConstAddPcMovesAsSpecial` | src/dwarf/line_table.cpp:613-619 | const_add_pc moves the address as special opcode 255 would, and nothing else |
| `RangeList.ScanIsMembership` | src/dwarf/source_lookup.cpp:35-73 | on every well-formed list the bounded scan decides membership; it says no only for well-formed lists |
| `RangeList.ContainsPc` | src/dwarf/source_lookup.cpp:35-73 | the loop with its moving base is that scan, and fails on unavailable data |
| `SourceMotion.StepSource` | src/source/source_step.cpp:100-126 | step leaves the managed ids as they were unless the image or process was replaced, is a series of as many resumptions of the undebugged programs as it counts, ends on another line when it says so, and refuses without executing anything |
| `Unwind.FinishRunsToSecondFrame` | src/source/source_finish.cpp:41-79 | finish runs to the address the backtrace shows as its second frame, and refuses exactly the frames stated |
| `InlineScopes.ContiguousIffChain` | src/dwarf/source_lookup.cpp:186-202 | sorted by depth, the active calls are contiguous and nested exactly when they form a chain |

## Left out

- `vfork`, clone events and processes with several threads in the breakpoint machine: one task per process is assumed.
- Register snapshots at breakpoint hits, executable paths, stop-sequence numbers and thread listings: bookkeeping without influence on the rest.
- ptrace calls that fail in the middle of an operation, other than the first contact with an address and the pokes of a write.
- General registers other than RIP are one value; instruction lengths, call decoding and symbol lookup are parameters.
- `Process::launch` and `attach` discovery loops, cleanup in destructors, and moving of processes.
- DWARF line-table headers of versions 4 and 5, unit discovery, ELF section, symbol and note parsing: byte sections, headers and segments are given.
- Attribute lookup, abstract origins, value materialisation and type resolution: the name of an entry, and whether it contains an address, are fields of the entry.
- `find_virtual_source` and the physical (not inlined) local catalogue: the same folds over other candidates.
- Command-line front ends, the user-breakpoint registry and path substitution.
- Kernel.Machine.Resume: what a program does to memory it shares with other processes and debug registers changed from outside, are not modelled.
- Debugging.Debugger.Resume: a wait that never returns is not modelled; every resumption reports.
- Debugging.Debugger.ContinueExecution: transparency is for programs that only fetch at managed addresses.
- Deferred.DeferredBreakpoints.ContinueExecution: a call that handles internal stops forever is represented by a bound on their number, for every bound.
- LineIndex.BuildRanges: a unit whose program ends inside a sequence is covered by `LineIndex.UnitIsSequences` only.
- SourceMotion.NextSource: addresses behind recognised calls are taken to be code the program only fetches.
- Driver.ContinueMany: says nothing after a foreign SIGTRAP was misread; `Driver.Play` covers those sessions up to RIP.
- LineProgram.RunUnit: the line register is unbounded, where the source's signed 64-bit sum may overflow.
- Leb128.ReadUleb: the disjoint bits the source combines with a bitwise or are added.
- Unwind.UnwindCallFrames: the loop takes the caller of a frame as a function, so it holds for every module cache; `Unwind.CallerFrame` is that function for one module, and looking a module up is not modelled.
- Unwind.BuildSnapshotFrames: registers restored from signal frames are part of the parameter that computes the caller.
- CoreMemory.ReadMemory: the range checks that loading has already made cannot fail and are left as impossible branches.
