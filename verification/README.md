# Paged attention: memory manager, scheduler and kernels

A Dafny model of the core of candle-vllm: the reference-counted block engine, the scheduler that drives it, the memory
operations the scheduler hands to the cache engine, and the arithmetic of the kernels that write and read the cache.

How it is built:

- **Values first.** `Pools`, `Engine`, `MemoryOps` and `Scheduler` give the source's operations as total functions with
  the same branches and the same order; a Rust panic (failed `unwrap`, `assert!`, double free) is the outcome `Panic`.
  Their laws are lemmas by induction over the source's loops.
- **Objects on top.** `BlockEngine`, `Scheduler`, `CacheEngine` and `Sequence` are classes with the source's fields and
  loops. Each method is proved equal to its function, panics included. Loops and recursions all have a termination measure.
- **The step theorem.** Operations are decided during a step and executed after it. `StepInvariant` keeps, for every block,
  the block whose old contents it will hold once the pending operations have been executed; each engine operation keeps
  it, so `ScheduleSafe` holds for the whole step and `StepPreservesContents` for the caches.
- **Runs.** `Runs` and `Generation` prove invariants of every reachable state as the code is written, for groups of one
  sequence, which is what `add_request` builds. `RunHistory` is the record of admissions of a run, `IterationCounts` says
  what the next iteration will do from counts known before it, and `CacheRuns`, `PromptPaths` and `StoredRuns` what the
  caches hold through a run. `SwapSpan` follows a group of any size through a swap-out and a later swap-in. `Preemption`
  and `Finishing` say for groups of any size what becomes of those preempted and of those that finish.
- **Kernels.** Threads of a thread block run one after the other between barriers, over the reals; `exp` is any function
  with the laws of an exponential. `PartitionedAttention.AttendContext` ties the work split, the reductions, the two
  passes and the merge to the softmax of the context, `CachedAttention` the cache written by one kernel to what the other
  reads, and `BlockView` the flattened caches to the block copies. `AttentionMeaning` says what the
  functions in these results are. Arrays that the kernels overwrite are arrays here.

The code is followed as written where it falls short of its comments or of the design; `Defects` has an input for each such
place in the modelled code and names the lemma with the exact condition. Three places are modelled as their comments say, each
beside the form as written and the exact condition under which the two agree: `swap_in` takes GPU blocks and returns CPU
blocks (as written: `Engine.SwapInAsWritten`); the first token of a sequence opens a block (as written:
`Sequences.AppendAsWritten`); a block's device, not the flag `is_gpu`, which is true for every block, decides to which pool it
returns and whether a slot can be appended to it (as written: `FlagDefect.FreeSequenceAsWritten` and
`FlagDefect.AppendSlotAsWritten`).

One thing the design needs turns out false for groups of several sequences: a step reserves a private *last* block, but when the
last logical block is full the token is written to the block before it, without copy-on-write. `Slots.DecodeWriteIff` says
exactly when a write is seen by nobody else, `Defects.SharedBlockOverwritten` shows one that is.

Another can fail after a preemption by recompute: that all earlier positions of a running sequence are in the cache.
`CacheRuns.AllWrittenIff` and `PromptPaths.PromptPathIff` say when, `Readmission.ReadmittedUnwritten` is a run that fails.

## Model

| member | source | states |
|---|---|---|
| `ScheduleTheorem.ScheduleSafe` | src/scheduler/mod.rs:73-203 | Main theorem: from any valid state with groups of any size in `running` and `swapped_out`, a step that does not panic keeps accounting, ownership, placement and queues; its three maps are inverses of one plan (nothing is lost by extending them), copy sources and destinations are disjoint, it never swaps both ways, and every surviving table position has as its origin the block it had before |
| `ScheduleTheorem.StepPreservesContents` | src/openai/pipelines/llm_engine.rs:206-220 | For any contents of the two caches, executing the maps in the order swap-in, swap-out, copy leaves every position of every surviving table with the contents it had, also when a block freed by a swap-out is a copy destination of the same step |
| `EngineStep.ScheduleAndExecute` | src/openai/pipelines/llm_engine.rs:94-99 | The same for the two objects: after `schedule` and `execute_scheduler_ops` each surviving sequence reads through its new table what it read before, keys and values in every layer |
| `ScheduleTheorem.AdmitSafe` | src/scheduler/mod.rs:76-127 | Admission keeps the invariant, moves a prefix of `waiting` to the end of `running` in order, so their concatenation is unchanged, leaves old tables alone, and never gets past an ignored group |
| `ScheduleTheorem.ImpossiblePanics` | src/scheduler/mod.rs:98-112 | The `Impossible` branch falls through to an allocation that always panics |
| `ScheduleTheorem.DecodeSafe` | src/scheduler/mod.rs:129-202 | A step without admission is safe, schedules exactly the running groups, and each of their last blocks is a GPU block held by one entry only |
| `ScheduleSafety.PreemptSafe` | src/scheduler/mod.rs:283-315 | Preemption by recompute, swap or abort keeps the step invariant, whatever operations are pending |
| `ScheduleSafety.MakeRoomSafe` | src/scheduler/mod.rs:147-161 | The inner loop never panics and keeps the invariant: handled groups keep their slots, and pending copies stay as they are |
| `ScheduleSafety.ProcessSafe` | src/scheduler/mod.rs:142-169 | The pass over `running` keeps the invariant; groups already given their slot are never preempted: they stay, in order, at the head of the new queue |
| `ScheduleSafety.SwapInLoopSafe` | src/scheduler/mod.rs:177-194 | The swap-in loop keeps the invariant and runs only when nothing was swapped out in the step |
| `StepInvariant.FreeStep` | src/scheduler/mod.rs:321-325 | Freeing a group not yet handled cannot panic and takes no block that a pending operation reads or writes |
| `StepInvariant.SwapOutStep` | src/scheduler/block_engine.rs:259-292 | A swap-out cannot panic under its guard and its operations can be delayed to the end of the step |
| `StepInvariant.SwapInStep` | src/scheduler/block_engine.rs:340-373 | Likewise for a swap-in while nothing has been swapped out |
| `StepInvariant.AppendStep` | src/scheduler/block_engine.rs:296-326 | Likewise for one slot append with its copy |
| `StepInvariant.AppendGroupStep` | src/scheduler/mod.rs:257-274 | Likewise for the appends of a whole group |
| `Conservation.ScheduleConserves` | src/scheduler/mod.rs:73-203 | As multisets, the queues after a step and the aborted groups are the queues before it; the aborted ones are those preempted groups of several sequences whose entries exceeded the CPU blocks free when their turn came |
| `Preemption.PreemptOutcome` | src/scheduler/mod.rs:283-315 | One preemption at any point of a pass: a group of one sequence goes to the head of `waiting`; any other is swapped out, to the end of `swapped_out` with all blocks on the CPU, exactly if the CPU has a free block for each of its table entries, and is aborted otherwise; with its status, and nothing else changed |
| `Preemption.SwapGuards` | src/scheduler/block_engine.rs:247-255 | The two swap guards compare the number of table entries of the group with the free blocks of the other device |
| `Preemption.AppendGuard` | src/scheduler/block_engine.rs:223-227 | The append guard compares the number of sequences whose last logical block is full with the free GPU blocks |
| `Preemption.SwapOutTakes` | src/scheduler/block_engine.rs:259-292 | A swap-out takes one CPU block per different block of the group |
| `Preemption.ProcessFate` | src/scheduler/mod.rs:142-169 | The pass for groups of any size: those that keep running are a prefix, the rest is preempted from the back, and queues, statuses and free CPU blocks follow from the tables before the pass |
| `Preemption.SwapInPrefix` | src/scheduler/mod.rs:177-194 | The swap-in loop moves a prefix of the swapped-out queue to the end of `running` and stops at the first group its guard refuses |
| `Preemption.DecodeFates` | src/scheduler/mod.rs:129-202 | Both together: all three queues and all statuses after a step that admits nothing, for groups of any size |
| `Preemption.FatesPlaced` | src/scheduler/mod.rs:283-315 | After that step requeued groups wait without tables, swapped-out groups have their tables on the CPU, aborted ones have none, each with its status |
| `Preemption.AdmitStarts` | src/scheduler/mod.rs:108-115 | Admission sets the status of exactly the admitted sequences, to running |
| `QueueOrder.LatestFirstDescending` | src/scheduler/mod.rs:327-339 | Both sorts give a permutation, as multisets, with descending arrival times |
| `QueueOrder.LatestFirstStable` | src/scheduler/mod.rs:327-339 | Groups with the same arrival time come out in the reverse of their order in the queue |
| `QueueOrder.ProcessOrder` | src/scheduler/mod.rs:142-169 | For one-sequence groups survivors are a prefix and preempted groups the remaining suffix at the head of `waiting`, in the same order |
| `QueueOrder.DecodeOrder` | src/scheduler/mod.rs:139-169 | A step that admits nothing: the new running and waiting queues concatenated are the sorted running queue followed by the old waiting queue |
| `SingleSequence.ProcessSingle` | src/scheduler/mod.rs:144-169 | For one-sequence groups the pass never panics, copies nothing and lengthens exactly the tables whose last logical block is full |
| `SingleSequence.DecodeSingle` | src/scheduler/mod.rs:129-202 | Outside admission the empty-pool `unwrap`, the missing last block and the double free are unreachable; nothing keeps running exactly when nothing ran or the only group has to preempt itself |
| `DecodeWrites.AppendTurnIff` | src/scheduler/mod.rs:162-167 | For the group in hand at any point of the pass: when its appends panic, exactly |
| `DecodeWrites.AppendPrivateIff` | src/scheduler/block_engine.rs:302-320 | Which table entries of a group are referenced by nothing else after its appends, in terms of its tables before them |
| `DecodeWrites.DecodeFollows` | src/scheduler/mod.rs:129-202 | The same for every group scheduled by a step, kept or swapped in, in terms of the tables before the step |
| `SwapInRoom.SwapInTakes` | src/scheduler/block_engine.rs:340-373 | A swap-in takes exactly as many GPU blocks as the group has different blocks |
| `SwapInRoom.SwapInThenAppendIff` | src/scheduler/mod.rs:182-191 | For groups of any size and any sharing: under the guard the swap-in succeeds, and the appends after it exactly when the pool has a block for every different block and every sequence less one per last block that only open ends share |
| `SwapInRoom.SwapInTurnIff` | src/scheduler/mod.rs:177-194 | The same for the first group of the swap-in loop in any valid state: when its turn panics |
| `Admission.AdmissionPanicsIff` | src/scheduler/mod.rs:79-115 | The admission loop panics at a group exactly when the group needs more blocks than are free; otherwise it admits it |
| `Admission.VerdictAgreesIff` | src/scheduler/block_engine.rs:200-211 | `can_allocate` as written gives the intended verdict exactly under a stated condition on required, free and total blocks |
| `Admission.AdmitSingle` | src/scheduler/mod.rs:79-115 | New tables have one block per logical block, nothing is shared, and the number of running groups stays below `max_num_seqs` |
| `Runs.RunOk` | src/openai/pipelines/llm_engine.rs:83-148 | In every state of every interleaving of requests, steps, tokens, finishes and clean-ups: pools accounted, table keys exactly the running sequences, no sharing, each group in exactly one queue or finished, at most `max_num_seqs - 1` sequences running |
| `Runs.AllFinishedAllFree` | src/scheduler/mod.rs:209-256 | Once both queues are empty, both free lists are permutations of the initial pools and every group ever added has finished; `Finishing.FinishAllFreesAll` says what empties them |
| `Finishing.FinishFrees` | src/openai/pipelines/llm_engine.rs:139-148 | In every run, after `Finish(i)` and a clean-up with `i` running: its group has finished, it has no table, and the free list has gained exactly the blocks of its table if no other running sequence had finished, of all that went otherwise |
| `Finishing.FinishAllFreesAll` | src/openai/pipelines/llm_engine.rs:139-148 | If all requests have been admitted and none waits again, and then all running sequences finish and there is a clean-up: nothing runs, all have finished and both pools are full |
| `Finishing.PoolDivided` | src/scheduler/block_engine.rs:106-123 | In every state of every run the GPU pool is divided between the free list and the tables, each block in one place |
| `Finishing.CleanUpExact` | src/scheduler/mod.rs:209-227 | Clean-up in any valid state keeps exactly the running groups with a sequence that has not finished, in order, and exactly their tables and those of swapped-out groups |
| `Finishing.StopThenClean` | src/scheduler/mod.rs:209-227 | For a running group of any size: once all its sequences are stopped a clean-up removes it and its tables, and only groups that have finished |
| `Finishing.RunLens` | src/scheduler/sequence.rs:72-75 | In every run a sequence is as long as its prompt and the tokens it was given |
| `Finishing.MoveLens` | src/openai/pipelines/llm_engine.rs:134-146 | From any valid state a move changes no length but that of the sequence it gives a token |
| `Runs.FreeFinishedOk` | src/scheduler/mod.rs:209-227 | Clean-up never panics in a reachable state and keeps the invariant |
| `Runs.CleanUpSafe` | src/scheduler/mod.rs:209-227 | Clean-up never panics in any valid state, whatever is swapped out, keeps it valid and leaves all remaining tables alone |
| `Interleavings.MoveSafe` | src/openai/pipelines/llm_engine.rs:94-148 | From any valid state with groups of any size only a schedule step can panic, and every move keeps the state valid |
| `Interleavings.InterleavingSafe` | src/openai/pipelines/llm_engine.rs:94-148 | So does every interleaving of steps, tokens, finishes and clean-ups |
| `Runs.RequestOk` | src/openai/pipelines/llm_engine.rs:418-440 | A request keeps the invariant |
| `Generation.GenerateOk` | src/openai/pipelines/llm_engine.rs:83-148 | In every state of every run of the generation loop the length of each table is a function of the current length and the length that the history of the run records for its sequence |
| `Generation.IterateOk` | src/openai/pipelines/llm_engine.rs:93-148 | One iteration keeps this, with the record updated by exactly the sequences it admits |
| `Generation.IteratePanicsIff` | src/openai/pipelines/llm_engine.rs:93-148 | When an iteration panics, in terms of its two phases: admission panics; or nothing is admitted and nothing keeps running or a sequence that does was admitted with a multiple of the block size and does not have one now |
| `Generation.LookupAfterAppend` | src/openai/pipelines/llm_engine.rs:336-347 | After the slot append the table has `len / block_size + 1` entries, or one fewer when the length at admission was a multiple of the block size; the lookup is in bounds exactly when that length was no multiple or the current one is |
| `Generation.DecodeLookups` | src/openai/pipelines/llm_engine.rs:326-351 | The same for every running sequence after a decode step, which never panics, for any record that fits the table lengths; `GenerateOk` says that the history does |
| `RunHistory.HistoryIsLastAdmission` | src/openai/pipelines/llm_engine.rs:93-148 | The history of a run has exactly the sequences ever admitted, each with its length in the state before its last admission |
| `RunHistory.AdmittedOnce` | src/openai/pipelines/llm_engine.rs:430-436 | A sequence admitted once was admitted with the length of its prompt; one never admitted still has that length |
| `RunHistory.RunLookups` | src/openai/pipelines/llm_engine.rs:326-351 | After the slot appends of every decode step of every run: `len / block_size + 1` table entries and the lookup in bounds if the last admission was at no multiple of the block size; otherwise one entry fewer, and in bounds exactly at multiples |
| `RunHistory.UnpreemptedLookup` | src/openai/pipelines/llm_engine.rs:336-347 | For a sequence never preempted the condition is about its prompt length |
| `IterationCounts.AdmitCounts` | src/scheduler/mod.rs:79-115 | How many groups admission takes, and whether it panics, from the free blocks, the limits and the numbers of blocks needed |
| `IterationCounts.FreeExact` | src/scheduler/block_engine.rs:229-245 | Freeing a sequence that shares nothing gives back exactly its blocks |
| `IterationCounts.ProcessSurvivors` | src/scheduler/mod.rs:142-169 | Which groups the pass keeps, from the free blocks and from which groups are full and how many blocks each has |
| `IterationCounts.DecodeKeeps` | src/scheduler/mod.rs:129-202 | The same for a step without admission: a prefix of the sorted running queue of the length so counted |
| `IterationCounts.NextIterationPanicsIff` | src/openai/pipelines/llm_engine.rs:93-148 | When the next iteration of any run panics, from counts in the state before it and the history of the run |
| `CacheRuns.SlotsApart` | src/openai/pipelines/llm_engine.rs:262-272 | Between and after the steps of a run, the slots of all positions of all tables are in range and distinct |
| `CacheRuns.PromptSlots` | src/openai/pipelines/llm_engine.rs:225-276 | After every admission of every run each position of an admitted sequence has a slot, in range, and the slot of no other position of any sequence |
| `CacheRuns.IterationFacts` | src/openai/pipelines/llm_engine.rs:93-148 | What an iteration does to tables and lengths: tables of sequences it does not admit only grow at the end, scheduled sequences gain a token, and unless it admits all running sequences are scheduled |
| `CacheRuns.CacheHolds` | src/openai/pipelines/llm_engine.rs:112-127 | The invariant of the cache through every run: the positions of a running sequence written since its last admission are those from its first written one on but the last, and each slot holds what was last computed for its position |
| `CacheRuns.AllWrittenIff` | src/openai/pipelines/llm_engine.rs:112-127 | Before every iteration of every run all positions of a running sequence but the last have been written since its last admission, exactly when that admission took the prompt path or was at one token |
| `CacheRuns.NeverPreempted` | src/openai/pipelines/llm_engine.rs:112-127 | In a run that admits no sequence twice every admission takes the prompt path |
| `CacheRuns.RunHasCells` | src/openai/pipelines/llm_engine.rs:93-148 | Whatever the model computes and the caches hold at first, every run has such cells |
| `PromptPaths.PromptPathIff` | src/openai/pipelines/llm_engine.rs:112-127 | In every run an iteration that admits takes the prompt path exactly when the first group it admits was never admitted before |
| `PromptPaths.PastPromptOrFinished` | src/openai/pipelines/llm_engine.rs:134-146 | A sequence once admitted has more tokens than its prompt or is finished |
| `Readmission.ReadmittedUnwritten` | src/openai/pipelines/llm_engine.rs:112-127 | A run with two prompts in which one is preempted and admitted again, and runs with its first position unwritten |
| `StoredRuns.MapSequence` | src/openai/pipelines/llm_engine.rs:262-275 | The row of one sequence in the slot mapping: the slots of its positions, then padding |
| `StoredRuns.MapBatch` | src/openai/pipelines/llm_engine.rs:219-308 | The mapping has exactly the positions that the chosen path writes, each with its slot |
| `StoredRuns.LaunchIsWrite` | kernels/reshape_and_cache_kernel.cu:16-48 | The kernel launched on such a mapping puts what was computed into those slots and leaves all other slots alone |
| `StoredRuns.WriteIteration` | src/openai/pipelines/llm_engine.rs:112-132 | Both together on the element caches |
| `StoredRuns.StoredBeforeIteration` | src/openai/pipelines/llm_engine.rs:93-148 | Before every iteration of every run, a sequence whose last admission took the prompt path finds keys and values of all its positions but the last in the flattened caches, through its table |
| `Slots.SameSlotIff` | src/openai/pipelines/llm_engine.rs:347-349 | Two positions have one slot exactly when they are the same offset of the same block |
| `Slots.WriteIsolatedIff` | src/scheduler/block_engine.rs:307-320 | A block may be written without any other table entry seeing it exactly when its count is one |
| `Slots.BatchWritesApart` | src/openai/pipelines/llm_engine.rs:326-351 | In every decode batch of every run, whose groups have one sequence each, slots written for different sequences are distinct and in range, and none is a slot of another sequence |
| `Slots.UnseenIffCountOne` | src/openai/pipelines/llm_engine.rs:336-349 | The slot written for a sequence is a slot of no other table entry exactly when its block has count one |
| `Slots.DecodeWriteIff` | src/openai/pipelines/llm_engine.rs:326-351 | For groups of any size, after any decode step from any valid state: the slot is in range, and it is unseen exactly when, before the step, its entry is the open end, or is yet to be added, or all other references to its block are open ends of the group |
| `Pools.AllocAccounted` | src/scheduler/block_engine.rs:106-110 | Taking a block succeeds exactly when the free list is not empty, yields an unreferenced block and keeps the accounting with that block added |
| `Pools.ReleaseAccounted` | src/scheduler/block_engine.rs:112-123 | Returning a referenced block never panics and keeps the accounting with one reference less |
| `Pools.LastFreedFirst` | src/scheduler/block_engine.rs:106-123 | A block that became free is the next one taken, and taking it undoes its return |
| `Pools.NothingReferencedAllFree` | src/scheduler/block_engine.rs:126-167 | With no references left the free list is a permutation of the pool |
| `EngineLaws.AllocateLaw` | src/scheduler/block_engine.rs:213-221 | For one sequence: success exactly when enough blocks are free, a table of distinct unreferenced GPU blocks, accounting kept |
| `EngineLaws.AllocateKeepsAccountingIff` | src/scheduler/block_engine.rs:213-221 | For a group: accounting is kept exactly when it has one sequence or the table is empty |
| `EngineLaws.FreeSequenceLaw` | src/scheduler/block_engine.rs:229-245 | Freeing a sequence with a table never panics and removes exactly its references, each block returned to the pool of its device |
| `EngineLaws.FreeGroupLaw` | src/scheduler/mod.rs:321-325 | The same for a group |
| `EngineLaws.MoveGroupLaw` | src/scheduler/block_engine.rs:259-292 | A swap under its guard never panics; the map is injective, its domain is exactly the ids of the group, every entry is renamed by it and no other table changes |
| `EngineLaws.SwapOutLaw` | src/scheduler/block_engine.rs:247-292 | `can_swap_out_seq_group` is sufficient, and the above from GPU to CPU |
| `EngineLaws.SwapInLaw` | src/scheduler/block_engine.rs:328-373 | `can_swap_in_seq_group` is sufficient for the intended swap-in, and the above from CPU to GPU |
| `EngineLaws.MoveKeepsSharing` | src/scheduler/block_engine.rs:266-284 | Two entries of the group are one block after a swap exactly when they were one block before |
| `EngineLaws.SwapRoundTrip` | src/scheduler/block_engine.rs:247-373 | Swapping out and in again gives tables of the same length and sharing on the GPU, each entry given by the composed map |
| `SwapSpan.SpanReadsSame` | src/scheduler/mod.rs:177-200 | While a group stays swapped out, through any steps, tokens, finishes and clean-ups of other groups, every position of its tables reads the same |
| `SwapSpan.SwapOutAndInAgain` | src/scheduler/mod.rs:129-202 | Swapped out in one step and in by any later one: all its tables are on the GPU again and every position reads what it read before |
| `AppendLaws.AppendSlotLaw` | src/scheduler/block_engine.rs:296-326 | Exact condition of success, and the effect: a new block, nothing, or a private copy; afterwards the last block has count one |
| `AppendLaws.AppendGroupLaw` | src/scheduler/mod.rs:257-274 | After the appends of a group every last block is a GPU block with one reference, and no other entry of any table changes |
| `AppendLaws.AppendGroupIff` | src/scheduler/block_engine.rs:223-227 | For any group and any sharing: it gets its slots exactly when every sequence has a table, the open ones end on the GPU, and the pool has one block per sequence less one per last block that only open ends of the group refer to; the guard counts only full sequences |
| `AppendLaws.CopiesOfSharedLast` | src/scheduler/block_engine.rs:312-320 | `n` sequences sharing an open last block with nothing else cause exactly `n - 1` copies of it, and one of them keeps it alone |
| `AppendLaws.AppendGroupCounts` | src/scheduler/mod.rs:257-274 | What the appends of a group do to any block in use: how many sequences leave it, and that this is the number of copies made of it and of references it loses |
| `SwapInDefect.SwapInAsWrittenIff` | src/scheduler/block_engine.rs:340-373 | `swap_in` as written neither panics nor corrupts the pools exactly when the group holds no block |
| `FlagDefect.FreeAsWrittenIff` | src/scheduler/block_engine.rs:229-245 | `free_sequence` as written, every block to the GPU pool, never panics; it keeps the accounting, and equals the intended one, exactly when no CPU block becomes free by it |
| `FlagDefect.FreesOnGpu` | src/scheduler/mod.rs:321-325 | For every group that is not swapped out, in every state inside and between steps, freeing as written is the intended freeing |
| `FlagDefect.VictimOnGpu` | src/scheduler/mod.rs:294-308 | In particular for every victim of a preemption |
| `FlagDefect.AppendAsWrittenIff` | src/scheduler/block_engine.rs:307-310 | `append_token_slot_to_seq` as written, whose assertion never fails, differs from the intended one exactly on an open table that ends in a CPU block, unless that block is shared and no GPU block is free |
| `Defects.VerdictTooEager` | src/scheduler/block_engine.rs:204-210 | For every two prompts that fit one by one but not together, the second needing no fewer blocks: the verdict is `Ok` where `Later` is meant, and the first iteration panics |
| `Defects.SharedTableMiscounted` | src/scheduler/block_engine.rs:213-221 | An input on which `allocate` breaks the accounting |
| `Defects.SwapInTakesFromCpu` | src/scheduler/block_engine.rs:351-364 | A swapped-out group of two sequences on which `swap_in` as written panics and the intended one succeeds |
| `Defects.SwapInGuardForgetsSlots` | src/scheduler/mod.rs:177-191 | A valid state with a swapped-out group of two sequences in which the guard holds and the schedule step panics |
| `Defects.SharedBlockOverwritten` | src/openai/pipelines/llm_engine.rs:336-349 | A valid state with a running group of two sequences in which a decode step succeeds, makes no copy, and both tokens are written to one slot |
| `Defects.CpuBlockMisfiled` | src/scheduler/block_engine.rs:236-242 | A state in which freeing as written puts a CPU block into the GPU pool |
| `Defects.LookupPastTable` | src/openai/pipelines/llm_engine.rs:336-347 | For every block size above one and every prompt that fills its blocks, alone in an engine with room for it: the first iteration succeeds and the second panics |
| `Defects.GuardForgetsCopies` | src/scheduler/block_engine.rs:223-227 | A valid state in which the append guard holds and the decode step panics |
| `Defects.FirstTokenPanics` | src/scheduler/sequence.rs:168-174 | An input on which the first token of a prompt panics |
| `EngineMachine.BlockEngine.constructor` | src/scheduler/block_engine.rs:189-198 | The object starts with both pools full and no table |
| `EngineMachine.BlockEngine.AllocateBlock` | src/scheduler/block_engine.rs:106-110 | The object follows the value-level operation, panics included |
| `EngineMachine.BlockEngine.FreeBlock` | src/scheduler/block_engine.rs:112-123 | Likewise |
| `EngineMachine.BlockEngine.Allocate` | src/scheduler/block_engine.rs:213-221 | Likewise, with the two loops of the source |
| `EngineMachine.BlockEngine.FreeSequence` | src/scheduler/block_engine.rs:229-245 | Likewise |
| `EngineMachine.BlockEngine.FreeGroup` | src/scheduler/mod.rs:321-325 | Likewise |
| `EngineMachine.BlockEngine.MoveTable` | src/scheduler/block_engine.rs:266-284 | Likewise |
| `EngineMachine.BlockEngine.MoveGroup` | src/scheduler/block_engine.rs:262-286 | Likewise |
| `EngineMachine.BlockEngine.AppendSlot` | src/scheduler/block_engine.rs:296-326 | Likewise |
| `EngineMachine.BlockEngine.AppendGroup` | src/scheduler/mod.rs:257-274 | Likewise |
| `SchedulerMachine.Scheduler.constructor` | src/scheduler/mod.rs:54-67 | The object starts with empty queues over a fresh engine |
| `SchedulerMachine.Scheduler.AddSequence` | src/scheduler/mod.rs:69-71 | Appends the group to `waiting` and changes nothing else |
| `SchedulerMachine.Scheduler.AdmitWaiting` | src/scheduler/mod.rs:79-115 | The admission loop follows the value-level one, panics included |
| `SchedulerMachine.Scheduler.Preempt` | src/scheduler/mod.rs:283-315 | Likewise for preemption |
| `SchedulerMachine.Scheduler.MakeRoom` | src/scheduler/mod.rs:147-161 | Likewise for the inner loop |
| `SchedulerMachine.Scheduler.ProcessRunning` | src/scheduler/mod.rs:142-169 | Likewise for the outer loop |
| `SchedulerMachine.Scheduler.SwapInGroups` | src/scheduler/mod.rs:177-194 | Likewise for the swap-in loop |
| `SchedulerMachine.Scheduler.Schedule` | src/scheduler/mod.rs:73-203 | Likewise for the whole step, which terminates; the theorems above are about that function |
| `SchedulerMachine.Scheduler.FreeFinished` | src/scheduler/mod.rs:209-227 | Likewise for clean-up |
| `MemoryOps.ExecutionFollowsOrigin` | src/openai/pipelines/llm_engine.rs:206-220 | Executing the three maps of a plan in order gives every block the old contents of its origin |
| `MemoryOps.CopyAllParallel` | kernels/copy_blocks_kernel.cu:10-30 | Independent pairs executed one after the other are the same as all at once |
| `MemoryOps.CopyOrderIrrelevant` | kernels/copy_blocks_kernel.cu:10-30 | Any order of the pairs gives the same cache |
| `BlockView.CopyPair` | kernels/copy_blocks_kernel.cu:10-30 | One pair on the flattened cache, strided threads: the source block is copied and no other block changes |
| `BlockView.CopyKernel` | kernels/copy_blocks_kernel.cu:10-30 | The whole launch on the flattened cache is the sequence of whole-block copies of the cell model |
| `BlockView.CellInBlock` | kernels/reshape_and_cache_kernel.cu:23-46 | The cells of a slot lie in its block, at places that depend on its offset only |
| `BlockView.StoredFollowsBlock` | kernels/reshape_and_cache_kernel.cu:23-46 | So what a slot holds is determined by the contents of its block and its offset |
| `BlockView.StepKeepsStored` | src/openai/pipelines/llm_engine.rs:206-220 | What a sequence has in the flattened caches it still has through its new table after a step and its memory operations |
| `CacheMachine.SwapBlocks` | src/backend/cache.rs:288-296 | Every mapped block is copied and no other cell of the destination changes |
| `CacheMachine.FlattenPairs` | src/backend/cache.rs:213-219 | The pairs handed to the kernel are exactly those of the map, each once |
| `CacheMachine.Plane.SwapIn` | src/backend/cache.rs:298-316 | One cache of one layer after a swap-in |
| `CacheMachine.Plane.SwapOut` | src/backend/cache.rs:317-319 | One cache of one layer after a swap-out |
| `CacheMachine.Plane.Copy` | kernels/copy_blocks_kernel.cu:10-30 | One cache of one layer after the copies, every source read as it was before any of them |
| `CacheMachine.CacheEngine.SwapIn` | src/scheduler/cache_engine.rs:180-199 | Key and value caches of all layers after a swap-in |
| `CacheMachine.CacheEngine.SwapOut` | src/scheduler/cache_engine.rs:201-222 | Key and value caches of all layers after a swap-out |
| `CacheMachine.CacheEngine.Copy` | src/scheduler/cache_engine.rs:224-235 | Key and value caches of all layers after the copies |
| `CacheMachine.CacheEngine.Execute` | src/openai/pipelines/llm_engine.rs:206-220 | In every layer, keys and values, every block ends with the old contents of its origin in the plan |
| `Sequences.AppendPacked` | src/scheduler/sequence.rs:168-182 | Appending keeps all blocks but the last full and appends exactly the token to the flattened contents |
| `Sequences.BlocksFromLength` | src/scheduler/sequence.rs:77-89 | The number of blocks and whether the last is full are functions of the number of tokens |
| `Sequences.NewAsWrittenPanicsIff` | src/scheduler/sequence.rs:61-70 | `new` as written panics exactly on nonempty prompts |
| `Sequences.AppendAsWrittenAgreesIff` | src/scheduler/sequence.rs:168-182 | The append as written agrees with the intended one exactly when a block exists |
| `Sequences.Sequence.constructor` | src/scheduler/sequence.rs:61-70 | The flattened blocks are the prompt |
| `Sequences.Sequence.AppendToken` | src/scheduler/sequence.rs:168-182 | The object appends the token to its blocks |
| `Sequences.Sequence.AddToken` | src/scheduler/sequence.rs:72-75 | The flattened blocks stay prompt followed by outputs |
| `Sequences.Sequence.BlocksToAddNewTok` | src/scheduler/sequence.rs:77-85 | One exactly when the length is a positive multiple of the block size |
| `Sequences.Sequence.NumLogicalBlocks` | src/scheduler/sequence.rs:87-89 | The length divided by the block size, rounded up |
| `Sequences.Sequence.TokenIds` | src/scheduler/sequence.rs:107-117 | The token list is what the blocks hold |
| `Addressing.WritesDistinct` | kernels/reshape_and_cache_kernel.cu:23-46 | Distinct (slot, element) pairs are written to distinct cells of both caches, when `x` divides the head size for keys |
| `Addressing.WritesInRange` | kernels/reshape_and_cache_kernel.cu:23-46 | Writes to slots of existing blocks stay inside the caches |
| `Addressing.KeyReadMeetsWrite` | kernels/attention_kernel.cu:199-214 | The attention kernel reads a key element where the write kernel put it |
| `Addressing.ValueReadMeetsWriteIff` | kernels/attention_kernel.cu:315-334 | The value address read is the one written exactly when `x` divides the head size, or at the first head of the first block |
| `CacheWrite.WriteToken` | kernels/reshape_and_cache_kernel.cu:16-48 | One thread block with strided threads writes each element of the token at its address and changes no other cell |
| `CacheWrite.ReshapeAndCache` | kernels/reshape_and_cache_kernel.cu:16-48 | The launch: padding is skipped, the cells of every slot written hold a token written there, the cells of all other slots are unchanged |
| `CachedAttention.WriteBatch` | kernels/reshape_and_cache_kernel.cu:16-48 | Writing a decode batch through the slots of its tables extends what each sequence holds by its token; every other sequence keeps what it holds and no cell of another slot changes, given slots that are apart |
| `CachedAttention.UnseenApart` | src/openai/pipelines/llm_engine.rs:326-351 | They are apart when every write of the batch is unseen |
| `Attention.SoftmaxAt` | kernels/attention_kernel.cu:257-271 | The softmax is the same relative to any subtracted maximum |
| `Attention.MergeExact` | kernels/attention_kernel.cu:489-568 | For any split into partitions the merged result is the exact softmax-weighted sum when nothing is added to the sums |
| `Attention.MergeBounds` | kernels/attention_kernel.cu:264-267 | With `eps` added to all sums and nonnegative values the result is at most the exact one and at least it divided by `(1 + eps)` squared |
| `Attention.GatherOut` | kernels/attention_kernel.cu:561-567 | The rescaled outputs added up |
| `MergeKernel.StrideMax` | kernels/attention_kernel.cu:515-520 | A thread keeps the maximum over its stride |
| `MergeKernel.MergeMax` | kernels/attention_kernel.cu:515-540 | The strides, butterflies and cross-warp step give the maximum of the partition maxima |
| `MergeKernel.MergeSums` | kernels/attention_kernel.cu:546-554 | The rescaled sums in shared memory and their total |
| `MergeKernel.MergePartitions` | kernels/attention_kernel.cu:489-568 | The merging kernel computes the function the results above are about |
| `Tiling.PartitionTokens` | kernels/attention_kernel.cu:98-114 | A partition is a stretch of its size cut at the end of the context, and not empty |
| `Tiling.PartitionsTile` | kernels/attention_kernel.cu:98-114 | When the block size divides the partition size each token is in exactly one partition, and that one is launched |
| `Tiling.UndividedPartitionLosesToken` | src/paged_attention/mod.rs:103 | Without the asserted divisibility a token can be in no partition |
| `Tiling.UnpartitionedCovers` | kernels/attention_kernel.cu:103-114 | Without partitioning the span is the whole context |
| `Tiling.OffsetTakenOnce` | kernels/attention_kernel.cu:116-119 | In every warp each offset of a block is taken by exactly one thread group in exactly one turn, whichever of warp and block is larger |
| `KeyPass.KeyThread` | kernels/attention_kernel.cu:181-232 | A group leader writes exactly the cells of its blocks and turns, and keeps the maximum of their scores |
| `KeyPass.KeyWarp` | kernels/attention_kernel.cu:181-241 | All groups of a warp and the butterfly over the leaders |
| `KeyPass.KeySpan` | kernels/attention_kernel.cu:181-255 | All warps: every cell of the span holds its score or zero beyond the context, and the maximum bounds all scores and is one of them or the floor |
| `KeyPass.KeptMaxIsMax` | kernels/attention_kernel.cu:235-255 | With a floor below all scores it is their maximum |
| `KeyPass.StridedMax` | kernels/attention_kernel.cu:239-253 | A maximum reduction bounds its elements and is one of them |
| `ValuePass.PassThread` | kernels/attention_kernel.cu:259-263 | A thread maps exactly the cells of its stride in place |
| `ValuePass.Pass` | kernels/attention_kernel.cu:259-271 | All threads together map every cell once, and their sums add up to the sum over the cells |
| `ValuePass.BlockSum` | kernels/attention_kernel.cu:264 | The block sum over one value per thread is their sum |
| `ValuePass.MaskedTerm` | kernels/attention_kernel.cu:336-345 | Masking only the last block of the context is enough |
| `ValuePass.LaneSum` | kernels/attention_kernel.cu:307-348 | One lane accumulates the terms of its blocks and offsets |
| `AttentionKernel.LanesAddUp` | kernels/attention_kernel.cu:351-360 | The lanes of a row add up to whole blocks |
| `AttentionKernel.WarpsAddUp` | kernels/attention_kernel.cu:366-396 | The warps add up to the span: each (row, token) pair counts exactly once |
| `AttentionKernel.WarpRow` | kernels/attention_kernel.cu:307-360 | A row in one warp, butterfly included |
| `AttentionKernel.RowOutput` | kernels/attention_kernel.cu:298-396 | The row is the weighted sum over the tokens of the span |
| `AttentionKernel.ExpPass` | kernels/attention_kernel.cu:257-264 | The exponentials in place, and their sum over the span |
| `AttentionKernel.ScalePass` | kernels/attention_kernel.cu:267-271 | The normalisation in place |
| `AttentionKernel.PagedAttention` | kernels/attention_kernel.cu:98-396 | The kernel with its work split refines the one-pass maximum, sum and normalised row of its span |
| `PartitionedAttention.PartitionContinues` | kernels/attention_kernel.cu:98-114 | The spans of the partitions follow one another in the context |
| `PartitionedAttention.AttendContext` | kernels/attention_kernel.cu:478-568 | Both kernels together: exact softmax over the context for `eps` zero, within the square of `1 + eps` for nonnegative values |
| `CachedAttention.ReadsWhatIsStored` | kernels/attention_kernel.cu:199-214 | Reading a key or value through the table at the kernel's addresses gives what was written at the slot |
| `CachedAttention.ReadIsGiven` | kernels/attention_kernel.cu:216-221 | So scores and values read from the cache are those of the keys and values the sequence was given |
| `CachedAttention.AttendCached` | kernels/attention_kernel.cu:98-568 | Both kernels on the cache compute the softmax over the keys and values the sequence was given, with the same bounds; the rows below say what scores and softmax are |
| `AttentionMeaning.ScoreLinear` | kernels/attention_kernel.cu:216-221 | The score of each position is linear in the query |
| `AttentionMeaning.ScoreUnit` | kernels/attention_kernel.cu:216-221 | For the unit vector of element `d` it is `scale` times element `d` of the head of the position's key |
| `AttentionMeaning.ReadLinear` | kernels/attention_kernel.cu:216-221 | The score as read from the cache is linear in the query |
| `AttentionMeaning.ReadUnit` | kernels/attention_kernel.cu:199-221 | For a unit vector the score as read is that element of the key stored at the position, scaled |
| `AttentionMeaning.GivenValue` | kernels/attention_kernel.cu:315-334 | The values are the elements of one row of the head |
| `AttentionMeaning.SoftmaxIs` | kernels/attention_kernel.cu:257-271 | The softmax times the sum of `exp(x)` is the sum of `exp(x) * v` |
| `AttentionMeaning.AttendIs` | kernels/attention_kernel.cu:235-271 | One partition, any `eps`: the maximum of its scores, the sum of exponentials relative to it, and a row that times that sum plus `eps` is the weighted sum |
| `AttentionMeaning.MergeIs` | kernels/attention_kernel.cu:515-567 | Several partitions, any `eps`: the merged row times the rescaled total plus `eps` is the sum of the rows times their rescaled sums |
| `Reductions.PartnerIsXor` | kernels/attention_kernel.cu:40-42 | The partner in the butterfly is the lane XOR the mask, for every lane and every power of two |
| `Reductions.ButterflyTotal` | kernels/attention_kernel.cu:40-42 | The butterfly gives every lane the result over all lanes, for any associative and commutative operator and any power of two |
| `Reductions.ButterflyStride` | kernels/attention_kernel.cu:238-241 | Stopped at a larger mask, each lane has the result over the lanes congruent to it |
| `Reductions.ButterflyGroup` | kernels/attention_kernel.cu:353-359 | On aligned groups of lanes it works on each by itself |
| `Reductions.BlockReduce` | kernels/attention_kernel.cu:33-65 | `block_sum` gives every warp the result over all threads |
| `Reductions.CrossWarpReduce` | kernels/attention_kernel.cu:366-396 | The halving loop leaves the result over all warps in warp 0 |
| `Rotary.PairIff` | kernels/rotary_embedding_kernel.cu:17-31 | Every rotated element is in exactly one pair, in both layouts |
| `Rotary.Rotate` | kernels/rotary_embedding_kernel.cu:157-194 | The in-place loops of all threads turn each pair of each head once, as a plane vector by its own angle: the components along and across the old vector and the length; everything else in the array stays |
| `Rotary.TurnsUnique` | kernels/rotary_embedding_kernel.cu:33-36 | These three numbers determine the pair |
| `Rotary.DotKept` | kernels/rotary_embedding_kernel.cu:33-36 | Rotating two heads alike keeps their inner product, and so each norm |
| `Rotary.Compose` | kernels/rotary_embedding_kernel.cu:33-36 | Moving a head on by some positions is one more rotation |
| `Rotary.PositionTurns` | kernels/rotary_embedding_kernel.cu:17-36 | A head at a position: each pair is turned by the angle of the position and the pair, the rest is as it was |
| `Rotary.RelativePosition` | kernels/rotary_embedding_kernel.cu:431-468 | Query-key products, as sums of products of elements, depend on the positions only through their difference |
| `Rotary.UnzipPermutes` | kernels/rotary_embedding_kernel.cu:18-31 | The map between the layouts is a permutation |
| `Rotary.LayoutsAgree` | kernels/rotary_embedding_kernel.cu:18-31 | Rotation in the two layouts agrees up to that permutation |

## Left out

- HTTP server, streaming, request and response types, command line, model download, weights, tokenizer, sampler and Llama
  layers: sampling is an arbitrary choice of a token or a finish reason.
- Locks, `Arc` and data races: accesses are sequential.
- Tensors, storage, data types, launch configuration and device pointers; `swap_blocks` copies one whole block, whatever byte
  size it computes, and the branch from GPU to CPU that is not written in the source is taken to copy as well.
- Floating-point rounding and overflow, fp8, the integer instantiations of the rotary kernel, ALiBi, attention masks and
  sliding windows.
- The split of the query-key dot product over the threads of a group: its helper functions are in header files that are not part
  of the repository; in `CachedAttention` the product is a plain sum over the elements read.
- Threads between barriers run in a fixed order; that no two of them touch one cell follows from `Tiling.OffsetTakenOnce`,
  `ValuePass.Pass` and `Rotary.PairIff`, but other orders are not modelled.
- `has_unfinished_sequences` looks at the running queue only, so `generate` stops, or never starts, with groups waiting;
  `Runs` and `Generation` take any sequence of iterations instead.
- CacheRuns.AllWrittenIff: counts what was written since the last admission; that stale cells of an earlier admission may
  happen to hold the right elements is not ruled out.
- Waiting groups of several sequences: the step invariant admits one-sequence groups only, because `allocate` does not keep
  the accounting for others; running and swapped-out groups may have any size.
- Runs.RunOk: speaks of runs in which no admission panics; `Admission.AdmissionPanicsIff` says exactly which those are.
- ScheduleTheorem.ScheduleSafe: speaks of steps that do not panic; when a turn of admission, of the pass or of the swap-in loop
  does is stated exactly by `Admission.AdmissionPanicsIff`, `DecodeWrites.AppendTurnIff` and `SwapInRoom.SwapInTurnIff`.
- ScheduleSafety.SwapInLoopSafe: speaks of loops that do not panic; `SwapInRoom.SwapInTurnIff` says when a turn does.
- Slots.BatchWritesApart: for the one-sequence groups that requests build; for other groups the property fails, and
  `Slots.DecodeWriteIff` has the exact condition.
- EngineMachine.BlockEngine.Allocate and the other methods of that class and of the scheduler class leave the state
  unspecified after a panic.
- EngineLaws.FreeSequenceLaw: the block's device chooses the pool; `FlagDefect.FreeAsWrittenIff` has the form as written.
- EngineLaws.FreeGroupLaw: likewise.
- EngineMachine.BlockEngine.FreeSequence: likewise.
- AppendLaws.AppendSlotLaw: a CPU last block is a panic; `FlagDefect.AppendAsWrittenIff` has the form as written.
- EngineMachine.BlockEngine.AppendSlot: likewise.
- CacheMachine.SwapBlocks: copies whole blocks, whatever the byte size and pointers.
- CacheMachine.Plane.SwapOut: the branch is not written in the source and is taken to copy.
- CacheMachine.CacheEngine.SwapOut: rests on the same branch.
- CacheMachine.Plane.Copy: one cell per block; `BlockView.CopyKernel` has the elements.
- EngineLaws.SwapRoundTrip: a swap-in directly after the swap-out; `SwapSpan.SwapOutAndInAgain` has any steps between.
- CachedAttention.AttendCached: the dot product is a plain sum over the elements read.
