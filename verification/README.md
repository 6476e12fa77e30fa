# Paged KV cache, continuous batching and cache blending

This project models the parts of vLLM (in the fork used by CacheBlend) on which the correctness of serving rests, and proves
what they promise.  Classes follow the program's mutable objects, with the source's loops; the meaning of each operation is a
function or predicate on values, and the theorems are about those.

- **Block manager without prefix caching** (`UncachedAllocator`, `BlockManager`, on values `Paging`, `Swapping`).  Reference
  counts, copy on write, fork, swapping whole tables between devices, reset.  `KvRefinement` proves the point of it: over every
  run each sequence sees through its block table exactly its own list of KV entries, although blocks are shared, copied late
  and moved between devices.  `SlidingWindow` is the variant whose tables repeat, `LogicalBlocks` what the manager counts.
- **Block manager with prefix caching** (`Evictors`, `CachedAllocator`, `PrefixSharing`, `PrefixLaws`, `CachedBlockManager`,
  `CachedSwapping`, `CachedContents`; a concrete input in `SwappedPrefixes`).  Blocks are found again by the hash of what they
  hold.  `PrefixLaws` says what sharing means without naming the hash function: a block is in two tables only at one index of
  sequences that agree on every token up to its end, and full blocks are shared just by those that do.  The operations keep
  that through promotion, rehashing, eviction and copy on write.  `CachedContents` refines memory, in which every sequence keeps
  reading the entries of its own tokens.  As without caching, what `can_append_slots`, `can_swap_out` and `can_swap_in` ask for
  is enough for what follows them.
- **Scheduler** (`Policy`, `Budget`, `GroupStates`, `Rosters`, `Queues`, `Transfers`, `Forecasts`, `Preemptions`, `Steps`,
  `Scheduling`; concrete inputs in `SwappedPairs`, `DisplacedGroups`).  `Lifetimes` proves what the number of sequences that a group
  is charged for means over all its forks and finishes.
  `_schedule_default` and all that it calls, `add_seq_group`, `abort_seq_group`, `fork_seq`.  Queue, status and block tables
  agree after every call, no request is lost or duplicated, the budget assertions hold, requests for one sample are served first
  come, first served over whole runs, and the three dictionaries handed to the worker say exactly how the tables have changed.
  From the state before a step `Forecasts` and `Preemptions` compute who will be preempted, whether prompts start, and which of the
  two errors the step will raise.
- **Engine step** (`Outputs`, `Engine`): schedule, process outputs, any number of steps.  `Chunks` is the accounting of prefills
  that are spread over several steps.
- **What memory holds** (`Footprints`, `Contents`, `Serving`): the worker carries out the dictionaries of each step and the model
  writes its entries.  Over whole runs of `Engine.LLMEngine.RunSteps` every sequence sees through its block table exactly the
  entries computed for its tokens: the scheduler, block manager and worker together meet the abstract relation of `KvRefinement`.
- **CPU kernels over exact reals** (`KvLayout`, `KvCache`, `Softmax`, `Sums`, `Partitions`, `Attention`, `PagedAttention`, `KernelBatches`,
  `PlainAttention`).
  The blocked cache layout, order-independence of the parallel loops, paged attention v1 as exact attention over the plain keys and
  values of each head and v2 within 1e-8 of it.  The exponential is a parameter that is positive and turns sums into products.
- **Request streams** (`Tracking`, `AsyncEngine`): the engine loop cut at its awaits, with clients adding and aborting at
  any of them; every such run is a run of a machine on identifiers and received items.
- **Cache blending** (`Blending`): the trimming loop, and the alignment of concatenated KV rows with the blended prompt.

How it is put together: a group of sequences is a value that the scheduler replaces when it changes; physical blocks, allocators,
block managers, budgets, schedulers, engines, trackers and streams are objects.  `Scheduler.ManagerOk` says that the manager is
in order and that only members of one group share blocks; `Scheduler.InOrder` says of every known group that its members'
statuses and tables fit the queue it is in.  `hide` statements only keep proofs short.

Conventions: an identifier of a sequence or request is an integer; a hash is either the tokens and adapter it was made of or a
number from the counter, so the two kinds are apart and content hashes are injective; `Result` stands for a return value or the
exception raised; times are parameters.

## Findings

Where the code does not do what its comments or assertions say, the code is modelled and the exact condition proved.

- `allocate` counts each block of a prompt `num_seqs()` times, while only waiting members receive the table
  (block_manager_v1.py:290, 294).  With a finished member beside the waiting one, as after a recompute preemption, a block is
  never freed (`Paging.FinishedMemberLeaks`); counts stay exact if and only if the two numbers are equal or the prompt has no
  block (`Paging.GrantExactIff`).  The other operations but `fork`, for which see below, keep whatever slack there is
  (`Paging.Recounted`), so nothing is ever freed twice, and `reset` refills both free lists if and only if there was none (`BlockManager.BlockSpaceManager.Reset`).
- The assertion that a returning group has one new token (scheduler.py:548) fails exactly for groups with two or more live
  members (`Scheduling.Scheduler.ReturnGroup`).  A step raises it if and only if nobody is preempted and the loop over the swapped
  groups comes to such a group while it fits (`Scheduling.Scheduler.WillStumble`, in `Schedule`); `SwappedPairs.PairFails` builds
  an input with the modelled calls.
- The early exit of the evictor is right for all numbers of hashed tokens if and only if the blocks with the least timestamp come
  first (`Evictors.EvictsRightIff`); for one given table `Evictors.ChoiceRightIff` has the condition.  A table in order of access
  meets it (`Evictors.OrderedLeastFirst`); one in which a block used earlier is freed later need not (`Evictors.EvictAfterLateFree`).
- The inner loop of `_schedule_running` takes the current group's sequences off the count, once, and not the victims'
  (scheduler.py:401-405), and does not put them back when the group goes on.  What is left counts the groups that made no room
  for themselves and those preempted in the turn of another (`Queues.CountIs`).  Who makes room and who is preempted follows from
  tables, counts and free blocks before the call (`Preemptions.TurnsOf`, `Scheduling.Scheduler.Ahead`); on that state the count
  will be right if and only if the two sides count the same (`Preemptions.CountRightIff`).  It is right when everybody finds room,
  and always for requests of one sample (`Scheduling.Scheduler.SinglesCountRight`); `DisplacedGroups.CountsOne` builds an input
  with the modelled calls after which two sequences go on and one is counted.  In the default mode the count is read after a
  preemption by an assertion on its upper bound only, and that one holds.
- `add_request` looks for the identifier among the streams in the table and not among the waiting ones
  (async_llm_engine.py:138).  If one waits twice, the first stream is lost and the request goes to the engine twice
  (`Tracking.RequestTracker.AddTwice`); no stream is lost if and only if no identifier waits twice, not counting aborted ones
  (`Tracking.RequestTracker.GetNewAndFinishedRequests`).
- `fork` onto an identifier that has a table leaves the blocks of that table counted (block_manager_v1.py:423-424): counts stay exact
  if and only if there were none (`Paging.ForkExactIff`).
- `is_prefill` asks the first member only (sequence.py:542-544).  It recognises the prefill of a waiting group if and only if that
  one has not finished (`Chunks.IsPrefillIff`).  Otherwise the recomputation of a later member passes for a decoding step:
  `_schedule_running` with chunking runs one token and charges all (`Chunks.FirstFinished`), and `schedule` hands the worker
  the wrong `is_prompt` (scheduler.py:918) exactly then (`Chunks.IsPromptIff`).
- The comment on the trimming loop says that the last examples are dropped; the code drops the middle one each time
  (blend_samsum.py:32-35, `Blending.TrimChunks`).  For different examples the comment is right if and only if all fit, there is
  only one, or the first and the last together do not fit (`Blending.LastDroppedIff`); of three the second goes first
  (`Blending.SecondOfThree`).
- The hash of a block that is not full covers the tokens there are (sequence.py:244-255; its own comment expects trouble when a
  prompt is shorter than a block).  The block keeps that hash while it is filled up in place, and a swap looks blocks up on the
  other device by hash (block_manager_v1.py:470-480, 500-510).  So sequences with different tokens can come to share a block there:
  `SwappedPrefixes.MixedUp` builds the input with the modelled calls, and `CachedContents.RightAgrees` says that one of them then
  reads entries of other tokens.  After a swap, blocks are shared only by sequences that agree on them if and only if no block that
  moves has the hash of one in use there that holds other tokens (`PrefixLaws.NoClash`, in `CachedSwapping.SwapManager.SwapOut` and
  `SwapIn`).  Full blocks never clash (`PrefixLaws.FullNeverClash`).  What the swap does to the entries themselves is right if and
  only if the block that moves also holds as many of those tokens (`CachedContents.SwapServesIff`).
- `append_slots` is called once for each new token.  For tokens that come several at a time, sharing stays right if and only if they
  all belong to the last block (`PrefixLaws.LawfulIff`); otherwise a full block keeps the hash of a part of its tokens.
- A group can be charged for more sequences than it can ever run: without beam search, a sample that ends before all have been
  forked leaves its place empty.  The number is the least bound exactly if there is none such (`Lifetimes.LimitMetIff`).

## Model

| member | source | states |
|---|---|---|
| `UncachedAllocator.UncachedBlockAllocator.constructor` | vllm_blend/vllm/core/block_manager_v1.py:153-171 | a full free list of blocks numbered 0 to n-1, each once |
| `UncachedAllocator.UncachedBlockAllocator.Allocate` | vllm_blend/vllm/core/block_manager_v1.py:173-180 | takes the last free block and counts it once; fails exactly on an empty free list, changing nothing |
| `UncachedAllocator.UncachedBlockAllocator.Free` | vllm_blend/vllm/core/block_manager_v1.py:182-187 | the double-free error is raised exactly for a block counted zero; otherwise one reference less, and the block is free again when none is left |
| `UncachedAllocator.UncachedBlockAllocator.AddReference` | vllm_blend/vllm/core/block_manager_v1.py:473-503 | one reference more for a block in use |
| `UncachedAllocator.UncachedBlockAllocator.FullFreeListIff` | vllm_blend/vllm/core/block_manager_v1.py:189-190 | the free list is as long as the device exactly when no block is referenced |
| `BlockManager.BlockSpaceManager.CanAllocate` | vllm_blend/vllm/core/block_manager_v1.py:248-266 | `NEVER` and `OK` mean that the prompt can never, or does now, leave the watermark free |
| `BlockManager.BlockSpaceManager.TakeBlocks` | vllm_blend/vllm/core/block_manager_v1.py:277-291 | the blocks are the last free ones in order, distinct, each counted as often as asked; runs out exactly when there are too few |
| `BlockManager.BlockSpaceManager.Allocate` | vllm_blend/vllm/core/block_manager_v1.py:268-295 | all waiting members share one table of fresh blocks, counted once per member of the whole group; it runs out exactly when the prompt needs more than the free blocks, so `OK` from `can_allocate` suffices |
| `BlockManager.BlockSpaceManager.TakeLastBlock` | vllm_blend/vllm/core/block_manager_v1.py:383-418 | a new block follows the table, or replaces its shared last block, which loses one reference |
| `BlockManager.BlockSpaceManager.AppendSlots` | vllm_blend/vllm/core/block_manager_v1.py:374-418 | result, error and new state for every input: a block is appended, or a shared last block is replaced and reported for copying, or nothing changes; one free block is enough |
| `BlockManager.BlockSpaceManager.AddReferences` | vllm_blend/vllm/core/block_manager_v1.py:428-431 | every block of a table gets one reference more, whatever the order of the set |
| `BlockManager.BlockSpaceManager.DropReferences` | vllm_blend/vllm/core/block_manager_v1.py:528-532 | every block of a table loses one reference, in any order, and no double free is raised |
| `BlockManager.BlockSpaceManager.Fork` | vllm_blend/vllm/core/block_manager_v1.py:420-431 | for every child identifier: it starts with its parent's table, each block of which gets one reference more; a table it had is overwritten, and the blocks of that one stay counted |
| `BlockManager.BlockSpaceManager.FreeBlockTable` | vllm_blend/vllm/core/block_manager_v1.py:519-532 | a table is dropped; every count moves by as much as the number of tables holding the block |
| `BlockManager.BlockSpaceManager.Free` | vllm_blend/vllm/core/block_manager_v1.py:534-540 | nothing for an unknown sequence; otherwise its table is gone and the counts follow |
| `BlockManager.BlockSpaceManager.FreeAllTables` | vllm_blend/vllm/core/block_manager_v1.py:542-545 | after the loop only references that no table accounted for are left |
| `BlockManager.BlockSpaceManager.Reset` | vllm_blend/vllm/core/block_manager_v1.py:542-545 | both free lists are full again exactly when every count was the number of tables holding the block |
| `BlockManager.BlockSpaceManager.FullAgainIff` | vllm_blend/vllm/core/block_manager_v1.py:542-545 | the same, for any ledger whose tables have all been dropped |
| `BlockManager.BlockSpaceManager.GetPhysicalBlocks` | vllm_blend/vllm/core/block_manager_v1.py:433-442 | the set of all blocks of the unfinished members; KeyError exactly if one has no table |
| `BlockManager.BlockSpaceManager.CanSwapOut` | vllm_blend/vllm/core/block_manager_v1.py:489-491 | whether the CPU has as many free blocks as the group holds |
| `BlockManager.BlockSpaceManager.CanSwapIn` | vllm_blend/vllm/core/block_manager_v1.py:444-456 | whether the GPU has room for the group, one more block for each of its sequences, and the watermark |
| `BlockManager.BlockSpaceManager.MoveBlock` | vllm_blend/vllm/core/block_manager_v1.py:500-510 | one entry of a table moves to the other device; a block that was moved before is found again and not allocated twice |
| `BlockManager.BlockSpaceManager.MoveTable` | vllm_blend/vllm/core/block_manager_v1.py:496-511 | one table moves, reusing what earlier tables of the group moved; runs out only if it needs more new blocks than are free |
| `BlockManager.BlockSpaceManager.SwapTables` | vllm_blend/vllm/core/block_manager_v1.py:493-517 | all tables of a group move, each distinct block once; it runs out exactly when the group holds more blocks than the other device has free |
| `BlockManager.BlockSpaceManager.SwapOut` | vllm_blend/vllm/core/block_manager_v1.py:493-517 | `can_swap_out` suffices; the reported numbers are those of the blocks moved and of their targets |
| `BlockManager.BlockSpaceManager.SwapIn` | vllm_blend/vllm/core/block_manager_v1.py:458-487 | the same in the other direction |
| `BlockManager.BlockSpaceManager.BlockNumbers` | vllm_blend/vllm/core/block_manager_v1.py:513-517 | block numbers in place of block objects lose nothing |
| `Paging.GrantExactIff` | vllm_blend/vllm/core/block_manager_v1.py:268-295 | `allocate` counts each block once per member of the group although only waiting members get the table: counts stay exact if and only if these are equally many, or there is no block |
| `Paging.FinishedMemberLeaks` | vllm_blend/vllm/core/block_manager_v1.py:285-295 | a concrete case: with a finished member beside the waiting one, a block of the prompt never becomes free again |
| `Paging.GrantKeepsSound` | vllm_blend/vllm/core/block_manager_v1.py:268-295 | even then no table holds a free block |
| `Paging.AppendRecounts` | vllm_blend/vllm/core/block_manager_v1.py:383-418 | after an append or a copy on write every count is its old value moved by the change in holders; a last block is replaced only if it is counted more than once |
| `Paging.HoldersAfterAppend` | vllm_blend/vllm/core/block_manager_v1.py:383-418 | who holds each block after an append or a copy on write |
| `Paging.ForkRecounts` | vllm_blend/vllm/core/block_manager_v1.py:420-431 | for a new child, fork adds one holder and one count to exactly the blocks of the parent, none of which was free |
| `Paging.ForkExactIff` | vllm_blend/vllm/core/block_manager_v1.py:420-431 | counts stay exact if and only if the child had no blocks before |
| `Paging.ForkKeepsSound` | vllm_blend/vllm/core/block_manager_v1.py:420-431 | even then no table holds a free block |
| `Paging.FreeRecounts` | vllm_blend/vllm/core/block_manager_v1.py:519-540 | dropping a table takes one holder and one count from exactly its blocks, none of which was free |
| `Paging.MoveRecounts` | vllm_blend/vllm/core/block_manager_v1.py:470-480 | moving one entry moves one reference from its block to the target |
| `Paging.FreeBlockHasNoHolder` | vllm_blend/vllm/core/block_manager_v1.py:163-187 | a block on a free list is in no table |
| `Swapping.SharingKept` | vllm_blend/vllm/core/block_manager_v1.py:458-517 | two entries of a group are one block after a swap if and only if they were before |
| `Swapping.SwapStep` | vllm_blend/vllm/core/block_manager_v1.py:496-511 | one more table moved keeps the record of what was moved |
| `Swapping.SwapKeepsWellFormed` | vllm_blend/vllm/core/block_manager_v1.py:496-511 | a moved table repeats no block and lies on one device |
| `Swapping.SwapShort` | vllm_blend/vllm/core/block_manager_v1.py:489-517 | running out half-way means the group needs more blocks than there were |
| `Swapping.MovedSize` | vllm_blend/vllm/core/block_manager_v1.py:458-517 | a swap takes as many blocks as the group held |
| `KvRefinement.RunsRefine` | vllm_blend/vllm/core/block_manager_v1.py:374-517 | over every run of prefills, forks, frees and steps (appends, preemptions and swaps decided, then swaps, copies and writes performed by the worker), each sequence sees through its table exactly its private list of entries |
| `KvRefinement.NextKeeps` | vllm_blend/vllm/core/scheduler.py:683-770 | one transition of such a run keeps that |
| `KvRefinement.DecodeExists` | vllm_blend/vllm/core/scheduler.py:345-463 | such a transition exists from every state with a running sequence and a free block: the sequence is appended to and sees its new entry, also when its last block is shared |
| `KvRefinement.AppendKeeps` | vllm_blend/vllm/core/block_manager_v1.py:374-418 | copy on write: nobody else sees the block that a sequence is about to write |
| `KvRefinement.ExchangeKeeps` | vllm_blend/vllm/core/block_manager_v1.py:458-517 | moving a group to the other device keeps the pending transfers consistent |
| `KvRefinement.ReleaseKeeps` | vllm_blend/vllm/core/scheduler.py:1019-1028 | so does giving up a table |
| `KvRefinement.NotInvolved` | vllm_blend/vllm/core/scheduler.py:400-427 | no block of a group that has not had its turn takes part in an earlier transfer of the step |
| `KvRefinement.WriteShows` | vllm_blend/vllm/core/block_manager_v1.py:401-418 | a write shows as the next entry of its own sequence and in no other one |
| `KvRefinement.PrefillKeeps` | vllm_blend/vllm/core/block_manager_v1.py:268-295 | a prompt's entries show in its fresh table |
| `LogicalBlocks.LogicalTokenBlock.AppendTokens` | vllm_blend/vllm/block.py:38-42 | the tokens follow those of the block; the assertion fails exactly when they do not fit, changing nothing |
| `LogicalBlocks.TokenBlocks.AppendTokensToBlocks` | vllm_blend/vllm/sequence.py:268-282 | block `i` always holds the tokens from `i` times the block size on, no block is empty, and there are as many blocks as the length requires; the tokens are the old ones and the new ones |
| `LogicalBlocks.TokenBlocks.AppendSome` | vllm_blend/vllm/sequence.py:270-282 | one turn fills the last block up |
| `LogicalBlocks.TokenBlocks.OpenLast` | vllm_blend/vllm/sequence.py:271-277 | the last block has room, a new one is begun only when it is full |
| `LogicalBlocks.TokenBlocks.AppendLogicalBlock` | vllm_blend/vllm/sequence.py:261-266 | an empty block with the next number |
| `LogicalBlocks.NumBlocksIs` | vllm_blend/vllm/sequence.py:268-282 | which lengths need a given number of blocks |
| `SlidingWindow.SlidingBlockManager.Allocate` | vllm_blend/vllm/core/block_manager_v1.py:268-295 | under a window of W blocks a prompt takes min(n, W) blocks, and runs out exactly when there are fewer |
| `SlidingWindow.SlidingBlockManager.TakeNext` | vllm_blend/vllm/core/block_manager_v1.py:278-291 | a table longer than the window uses its blocks again in turn |
| `SlidingWindow.SlidingBlockManager.AppendSlots` | vllm_blend/vllm/core/block_manager_v1.py:374-418 | when it succeeds for every input; the table grows by the next block of the window, and nothing is ever copied |
| `SlidingWindow.SlidingBlockManager.Free` | vllm_blend/vllm/core/block_manager_v1.py:519-540 | as many blocks become free as the table held, and no double free is raised |
| `SlidingWindow.SlidingBlockManager.FreeBlocks` | vllm_blend/vllm/core/block_manager_v1.py:519-532 | each block of the last W entries is freed once |
| `SlidingWindow.SlidingBlockManager.HeldAtMost` | vllm_blend/vllm/core/block_manager_v1.py:519-532 | no sequence holds more than W blocks; the last W entries are distinct and are all of them |
| `SlidingWindow.SlidingBlockManager.AllBack` | vllm_blend/vllm/core/block_manager_v1.py:534-545 | with all tables freed every block is free |
| `SlidingWindow.TailIsAll` | vllm_blend/vllm/core/block_manager_v1.py:525-532 | the last W entries of a table that repeats its window are distinct and are all its blocks |
| `SlidingWindow.WindowGrows` | vllm_blend/vllm/core/block_manager_v1.py:386-396 | appending the block at position length modulo W keeps the repetition |
| `Evictors.EvictsRightIff` | vllm_blend/vllm/core/evictor.py:66-83 | the early exit finds the least recently used block with the most hashed tokens for all numbers of hashed tokens if and only if the blocks with the least timestamp come first in the table |
| `Evictors.ChoiceRightIff` | vllm_blend/vllm/core/evictor.py:70-83 | for one given table: it does if and only if some right block comes before every block that was used more recently than the candidate of the moment, and after none with as many hashed tokens |
| `Evictors.EvictsRecentlyUsed` | vllm_blend/vllm/core/evictor.py:70-78 | a concrete table where it does not |
| `Evictors.EvictAfterLateFree` | vllm_blend/vllm/core/evictor.py:66-86 | a run of calls that leads to such a table: two unused blocks are added, the one used last first; that one is then evicted |
| `Evictors.OrderedLeastFirst` | vllm_blend/vllm/core/evictor.py:70-78 | a table in order of access meets the condition |
| `Evictors.LruEvictor.Evict` | vllm_blend/vllm/core/evictor.py:66-83 | the chosen block leaves, the others stay in their order; the error is raised exactly for an empty table |
| `Evictors.LruEvictor.ChooseVictim` | vllm_blend/vllm/core/evictor.py:70-78 | the loop chooses what the specification says |
| `Evictors.LruEvictor.Add` | vllm_blend/vllm/core/evictor.py:85-86 | the block becomes the last of the table |
| `Evictors.LruEvictor.Remove` | vllm_blend/vllm/core/evictor.py:88-94 | the block with that hash leaves, the others stay in their order |
| `CachedAllocator.CachedBlockAllocator.Allocate` | vllm_blend/vllm/core/block_manager_v1.py:97-116 | for any hash, a default one included: the block that bears it, or one that now bears it, with one more reference; a block that did not bear it gets the number of hashed tokens that was asked for; it fails exactly when no block bears the hash and none is free, and takes a free block exactly when none in use bears it; the assertions hold |
| `CachedAllocator.CachedBlockAllocator.FindUnused` | vllm_blend/vllm/core/block_manager_v1.py:102-109 | an unused block with the hash is used again; the three assertions hold |
| `CachedAllocator.CachedBlockAllocator.FindUsed` | vllm_blend/vllm/core/block_manager_v1.py:113-116 | a used block with the hash gets one reference more |
| `CachedAllocator.CachedBlockAllocator.DrawHash` | vllm_blend/vllm/core/block_manager_v1.py:99-100 | without a hash the next one of the counter, which nobody has |
| `CachedAllocator.CachedBlockAllocator.AllocateFor` | vllm_blend/vllm/core/block_manager_v1.py:101-116 | success, error and the new state of both tables for every hash |
| `CachedAllocator.CachedBlockAllocator.TakeUnused` | vllm_blend/vllm/core/block_manager_v1.py:84-88 | on a full device an unused block is evicted and bears the new hash |
| `CachedAllocator.CachedBlockAllocator.MakeBlock` | vllm_blend/vllm/core/block_manager_v1.py:89-95 | on a device with room the next number is used |
| `CachedAllocator.CachedBlockAllocator.Free` | vllm_blend/vllm/core/block_manager_v1.py:118-127 | one reference less; an unused block moves to the evictor; the error is raised exactly for a block that nobody uses |
| `CachedAllocator.CachedBlockAllocator.UpdateHash` | vllm_blend/vllm/core/block_manager_v1.py:136-142 | the block is found under its new hash and no longer under the old one |
| `CachedAllocator.CachedBlockAllocator.AddReference` | vllm_blend/vllm/core/block_manager_v1.py:430-431 | one reference more for a used block |
| `CachedAllocator.OneBlockPerHash` | vllm_blend/vllm/core/block_manager_v1.py:58-142 | used and unused blocks are filed under their own hashes, and a hash belongs to one block only |
| `CachedAllocator.EachBlockOnce` | vllm_blend/vllm/core/block_manager_v1.py:82-95 | every block is either in the evictor's table, at one place, or in use under exactly one hash; the sizes of the two add up to the number of blocks made |
| `PrefixSharing.SharedBlocksAgree` | vllm_blend/vllm/core/block_manager_v1.py:309-418 | a content-hashed block in two tables sits at the same place in both, and both sequences start with its tokens under the same adapter |
| `PrefixSharing.HashOfBlockFits` | vllm_blend/vllm/sequence.py:244-255 | the hash of a block is one of a prefix of the sequence that ends in that block; which prefix, is what `PrefixLaws` says |
| `PrefixSharing.AllotAppends` | vllm_blend/vllm/core/block_manager_v1.py:268-295 | the block an allocation returns may follow the table it was hashed for |
| `PrefixSharing.AllotFits` | vllm_blend/vllm/core/block_manager_v1.py:82-116 | evicting and rehashing an unused block disturbs no table |
| `PrefixSharing.RehashFits` | vllm_blend/vllm/core/block_manager_v1.py:309-327 | rehashing a block that only one sequence holds disturbs no other table |
| `PrefixSharing.OwedReleased` | vllm_blend/vllm/core/block_manager_v1.py:118-127 | a reference that no table accounts for can be dropped without a double free |
| `PrefixSharing.ForkFits` | vllm_blend/vllm/core/block_manager_v1.py:420-431 | a fork shares blocks whose hashes fit both sequences |
| `PrefixLaws.SharedIff` | vllm_blend/vllm/core/block_manager_v1.py:309-372 | two sequences share a block that is full in both just when they have the same adapter and all tokens up to its end in common |
| `PrefixLaws.LawfulAppended` | vllm_blend/vllm/core/block_manager_v1.py:374-418 | when the new tokens belong to one block, appending keeps the laws: a shared block is at one index of sequences that agree on all tokens up to its end, and a full block bears the hash of all tokens up to its end |
| `PrefixLaws.UnsteadyFails` | vllm_blend/vllm/core/block_manager_v1.py:374-418 | tokens that fill up the last block and begin another in one call leave a full block with the hash of a part |
| `PrefixLaws.LawfulIff` | vllm_blend/vllm/core/block_manager_v1.py:374-418 | so appending keeps the laws if and only if the new tokens all belong to the last block, as when they come one at a time |
| `PrefixLaws.GrownAgrees` | vllm_blend/vllm/core/block_manager_v1.py:374-418 | the sequence that has grown agrees with every other that holds one of its blocks |
| `PrefixLaws.LawfulAdmitted` | vllm_blend/vllm/core/block_manager_v1.py:268-295 | a prompt keeps the laws |
| `PrefixLaws.LawfulForked` | vllm_blend/vllm/core/block_manager_v1.py:420-431 | so does a fork |
| `PrefixLaws.LawfulFewer` | vllm_blend/vllm/core/block_manager_v1.py:519-540 | so does freeing |
| `PrefixLaws.FillsUpIs` | vllm_blend/vllm/core/block_manager_v1.py:329-334 | the last block is full just when the length is that of all its blocks |
| `PrefixLaws.MeetIff` | vllm_blend/vllm/core/block_manager_v1.py:493-517 | after a swap, blocks of the two devices come together just when they bore one hash |
| `PrefixLaws.FullNeverClash` | vllm_blend/vllm/core/block_manager_v1.py:493-517 | the hash of a full block never brings together sequences of different tokens |
| `PrefixLaws.AgreeBroughtIff` | vllm_blend/vllm/core/block_manager_v1.py:493-517 | after a swap, blocks are shared only by sequences that agree on what is in them, if and only if no hash of a block that moved was borne on the other device by a block of other tokens |
| `PrefixLaws.BearsBrought` | vllm_blend/vllm/core/block_manager_v1.py:493-517 | in any case full blocks keep the hashes of their tokens |
| `CachedBlockManager.PrefixCachingManager.CanAllocate` | vllm_blend/vllm/core/block_manager_v1.py:248-266 | the three verdicts exactly; `OK` suffices for `allocate`, however many blocks are shared |
| `CachedBlockManager.PrefixCachingManager.Allocate` | vllm_blend/vllm/core/block_manager_v1.py:268-295 | each block of the table bears the hash of all tokens up to its end, or of all there are; full blocks are shared just with the sequences that begin with the same tokens, and nothing is shared with others; it runs out exactly when fewer blocks are free than the prompt has whose hash no used block bears, and takes just those |
| `CachedBlockManager.PrefixCachingManager.NextPromptBlock` | vllm_blend/vllm/core/block_manager_v1.py:281-291 | one turn of the loop: the block of the hash, filed with the number of tokens up to the end of the block if it did not bear the hash before |
| `CachedBlockManager.PrefixCachingManager.LastHashIs` | vllm_blend/vllm/core/block_manager_v1.py:309-345 | the hash looked up for a full last block is that of the whole text |
| `CachedBlockManager.NotYetHashed` | vllm_blend/vllm/sequence.py:244-255 | the blocks of one prompt have different hashes, so each needs a block of its own |
| `CachedBlockManager.PrefixCachingManager.AppendSlots` | vllm_blend/vllm/core/block_manager_v1.py:374-418 | success and each error exactly, for every input; the table has as many blocks as the sequence needs, the result is the pair of the old last block and the new one just when that one was shared and replaced, at most one free block is used up, and blocks stay shared only by sequences that agree on what is in them if and only if the new tokens belong to one block |
| `CachedBlockManager.PrefixCachingManager.AppendGroup` | vllm_blend/vllm/core/scheduler.py:964-987 | what `can_append_slots` asks for is enough for all running members of a group (block_manager_v1.py:297-307): no append fails and other tables stay; each member's dictionary has its old last block and its new one just when the new token belongs there and another table held that block at its turn, and is empty otherwise; shared blocks hold the same tokens still |
| `CachedBlockManager.PrefixCachingManager.NextBlock` | vllm_blend/vllm/core/block_manager_v1.py:346-372 | a block for the end of a table, used again or new; its assertion on the count holds |
| `CachedBlockManager.PrefixCachingManager.AppendNew` | vllm_blend/vllm/core/block_manager_v1.py:383-399 | a new block for a new logical block |
| `CachedBlockManager.PrefixCachingManager.ReplaceShared` | vllm_blend/vllm/core/block_manager_v1.py:412-418 | copy on write under prefix caching |
| `CachedBlockManager.PrefixCachingManager.PromoteLastBlock` | vllm_blend/vllm/core/block_manager_v1.py:309-327 | a full last block becomes the known block of the same contents, even if that is itself, or is rehashed |
| `CachedBlockManager.PrefixCachingManager.PromoteToKnown` | vllm_blend/vllm/core/block_manager_v1.py:322-324 | the known block takes its place |
| `CachedBlockManager.PrefixCachingManager.Fork` | vllm_blend/vllm/core/block_manager_v1.py:420-431 | a new child has its parent's text and blocks; shared blocks hold the same tokens still |
| `CachedBlockManager.PrefixCachingManager.Free` | vllm_blend/vllm/core/block_manager_v1.py:534-540 | every other table and every hash in one stays; shared blocks hold the same tokens still |
| `CachedBlockManager.PrefixCachingManager.AccessAllBlocksInSeq` | vllm_blend/vllm/core/block_manager_v1.py:557-567 | only blocks of this sequence are stamped, so what the evictor compares is unchanged |
| `CachedBlockManager.PrefixCachingManager.UsedNotEvictable` | vllm_blend/vllm/core/block_manager_v1.py:557-567 | no block of a table is in the evictor |
| `CachedSwapping.SwapManager.constructor` | vllm_blend/vllm/core/block_manager_v1.py:204-248 | two empty devices |
| `CachedSwapping.SwapManager.GetPhysicalBlocks` | vllm_blend/vllm/core/block_manager_v1.py:433-442 | the set of all blocks of the members; KeyError exactly if one has no table |
| `CachedSwapping.SwapManager.CanSwapOut` | vllm_blend/vllm/core/block_manager_v1.py:489-491 | whether the CPU has as many free blocks as the group holds |
| `CachedSwapping.SwapManager.CanSwapIn` | vllm_blend/vllm/core/block_manager_v1.py:444-456 | whether the GPU has room for the group, one more block for each of its sequences, and the watermark |
| `CachedSwapping.SwapManager.SwapOut` | vllm_blend/vllm/core/block_manager_v1.py:493-517 | under prefix caching: runs out exactly when the group holds more blocks, not counting those whose hash a used CPU block bears, than the CPU has free; otherwise the tables are there, text by text, sharing kept and reflected, the reported numbers are those of the blocks moved and of their targets, full blocks bear the hashes of their tokens, and blocks are shared only by sequences that agree on them if and only if no hash clashed |
| `CachedSwapping.SwapManager.SwapIn` | vllm_blend/vllm/core/block_manager_v1.py:458-487 | the same in the other direction |
| `CachedSwapping.SwapManager.TrySwapOut` | vllm_blend/vllm/core/scheduler.py:1047-1061 | the error of the scheduler is raised exactly when `can_swap_out` says no, and otherwise the swap does not run out, and the dictionary has the numbers of just the blocks moved |
| `CachedSwapping.SwapManager.BringBack` | vllm_blend/vllm/core/scheduler.py:508-541 | what `can_swap_in` asks for is enough for the swap and for the append of every member after it; the dictionary of the swap has the numbers of just the blocks moved, and that of each member its copy, as in `AppendGroup` |
| `CachedSwapping.Exchange` | vllm_blend/vllm/core/block_manager_v1.py:458-517 | both directions: success exactly, and the exact change in free blocks |
| `CachedSwapping.MoveTables` | vllm_blend/vllm/core/block_manager_v1.py:466-511 | the outer loop runs out exactly when more blocks are missing than free |
| `CachedSwapping.MoveTable` | vllm_blend/vllm/core/block_manager_v1.py:467-511 | one table moves; hashes, sharing and counts on both devices fit |
| `CachedSwapping.MoveBlock` | vllm_blend/vllm/core/block_manager_v1.py:470-510 | one block is found or made again by its hash, and its old reference dropped without a double free |
| `CachedSwapping.PlaceBlock` | vllm_blend/vllm/core/block_manager_v1.py:471-508 | a block moved before is found again, any other is looked up by its hash; success exactly |
| `CachedSwapping.MappedApart` | vllm_blend/vllm/core/block_manager_v1.py:458-517 | because hashes are brought along, two blocks never land in one |
| `CachedSwapping.TooMany` | vllm_blend/vllm/core/block_manager_v1.py:500-508 | running out half-way means that more blocks were missing than free |
| `CachedSwapping.NeededWithin` | vllm_blend/vllm/core/block_manager_v1.py:489-491 | the blocks that are missing are at most those `can_swap_out` counts |
| `SwappedPrefixes.MixedUp` | vllm_blend/vllm/core/block_manager_v1.py:458-517 | a concrete input: two requests with one prompt get different tokens and are swapped out one after the other by the calls modelled here; then their tables hold the same CPU block |
| `SwappedPrefixes.SampleAndSwap` | vllm_blend/vllm/core/block_manager_v1.py:268-517 | one of the two |
| `CachedContents.MemberKeeps` | vllm_blend/vllm/core/block_manager_v1.py:374-418 | after the append of one member, and its copy if it asks for one, every sequence reads the entries of its tokens but the newest of those appended to, and every block with a hash holds the entries of its tokens, whether in use or not |
| `CachedContents.CopiesServe` | vllm_blend/vllm/core/scheduler.py:964-987 | so it is after the appends of a group and all its copies |
| `CachedContents.SourceSpared` | vllm_blend/vllm/core/scheduler.py:964-987 | no earlier copy went to the block that a member asks to have copied |
| `CachedContents.TargetNotPart` | vllm_blend/vllm/core/block_manager_v1.py:309-372 | a copy does not go to a last block with room that another sequence has |
| `CachedContents.InOrderCarries` | vllm_blend/vllm/worker/worker.py:215-219 | the copies may be made one after the other in the order of the members |
| `CachedContents.OrderMatters` | vllm_blend/vllm/worker/worker.py:215-219 | in another order an entry can be lost, when the source of one copy is the target of another |
| `CachedContents.CopyIsAtTurn` | vllm_blend/vllm/core/scheduler.py:981-987 | what `AppendGroup` and `BringBack` say of the copies is what these lemmas ask for |
| `CachedContents.GroupReads` | vllm_blend/vllm/worker/worker.py:215-219 | once the copies are made, every sequence reads through its new table what it read through its old one |
| `CachedContents.StoresServe` | vllm_blend/vllm/worker/worker.py:221-259 | when the model has written the newest tokens, in any order, every sequence reads all its entries |
| `CachedContents.GroupServes` | vllm_blend/vllm/worker/worker.py:204-259 | a decoding step of a group with prefix caching: slots, copies, new tokens; every sequence reads the entries of its tokens |
| `CachedContents.PromptServes` | vllm_blend/vllm/worker/worker.py:221-259 | so it is after a prompt has been computed, also for those it shares blocks with |
| `CachedContents.ForkServes` | vllm_blend/vllm/core/block_manager_v1.py:420-431 | and after a fork |
| `CachedContents.FreeServes` | vllm_blend/vllm/core/block_manager_v1.py:519-540 | and after sequences have left |
| `CachedContents.SwapServesIff` | vllm_blend/vllm/worker/worker.py:204-213 | after a swap every sequence reads the entries of its tokens, whatever lies in memory behind them, if and only if a block that moves bears the hash of one in use on the other device only where some sequence that has it has all the tokens that are in that one |
| `CachedContents.SwapServes` | vllm_blend/vllm/worker/worker.py:204-213 | one half of it |
| `CachedContents.SwapLoses` | vllm_blend/vllm/worker/worker.py:204-213 | the other half: the memory for which an entry is lost |
| `CachedContents.RightAgrees` | vllm_blend/vllm/core/block_manager_v1.py:309-372 | if different tokens have different entries, memory can be right only when blocks are shared by sequences that agree on them |
| `Policy.SortIsStable` | vllm_blend/vllm/core/policy.py:16-36 | a permutation, earliest arrival first, groups that arrived together in their old order, whatever the time |
| `Policy.SortKeepsOrder` | vllm_blend/vllm/core/policy.py:16-36 | a queue in order of arrival is left as it is |
| `GroupStates.RecomputeIsSingle` | vllm_blend/vllm/core/scheduler.py:1006-1028 | a group is preempted by recomputation only with exactly one running member, so the assertion of `_preempt_by_recompute` holds |
| `GroupStates.PreemptedIsWaiting` | vllm_blend/vllm/core/scheduler.py:1019-1028 | afterwards it is a waiting group like any other |
| `GroupStates.PromptStarts` | vllm_blend/vllm/core/scheduler.py:959-962 | a waiting group that received a table runs its whole prompt |
| `GroupStates.MovedGroup` | vllm_blend/vllm/core/scheduler.py:1037-1061 | after a swap the live members have their tables on the other device, as long as before |
| `GroupStates.RestatedMax` | vllm_blend/vllm/sequence.py:464-479 | a swap does not change how many sequences a group may run |
| `GroupStates.ForkedIs` | vllm_blend/vllm/sequence.py:464-479 | a fork stays within the number of sequences the group is accounted for; the child has its parent's tokens but for the newest |
| `Outputs.ChunksComplete` | vllm_blend/vllm/sequence.py:145-152 | in the default mode, where a chunk is all that is left: every member is complete and decoding when outputs are processed |
| `Chunks.GetNumNewTokens` | vllm_blend/vllm/core/scheduler.py:1092-1113 | the loop adds up the tokens of all members; with chunking the result for a lone member is that, or exactly what is left of the budget if that is less |
| `Chunks.PrefillRuns` | vllm_blend/vllm/engine/llm_engine.py:478-489 | for every list of positive chunks that the budgets of the steps allow: while their sum is less than the prompt only the counter has moved and no sampled token was processed; the chunk that reaches it makes of the group just what one step on all its tokens makes; no counter overflows |
| `Chunks.DecodesIff` | vllm_blend/vllm/sequence.py:145-152 | all members decode after exactly those prefixes of chunks whose sum is the length |
| `Chunks.RoundIs` | vllm_blend/vllm/engine/llm_engine.py:478-489 | one chunk of such a prefill |
| `Chunks.RestartIs` | vllm_blend/vllm/sequence.py:154-160 | preempted half-way or later, the count starts again, over the output tokens as well |
| `Chunks.RunsNeverOverflow` | vllm_blend/vllm/sequence.py:145-152 | over whole runs of chunks, decoding steps and recomputations the assertion never fails |
| `Chunks.EventKeeps` | vllm_blend/vllm/engine/llm_engine.py:478-489 | one event of such a run |
| `Chunks.IsPrefillIff` | vllm_blend/vllm/sequence.py:542-544 | `is_prefill` recognises the prefill of a waiting group if and only if its first member has not finished |
| `Chunks.FirstFinished` | vllm_blend/vllm/core/scheduler.py:428-441 | a concrete case: the recomputed second member is scheduled as decoding, on one token, while the budget is charged for all |
| `Chunks.IsPromptIff` | vllm_blend/vllm/core/scheduler.py:916-921 | the flag `is_prompt` handed to the worker is right for every decoding group, and for a group that starts its prompt if and only if its first member has not finished |
| `Outputs.ProducedIs` | vllm_blend/vllm/engine/llm_engine.py:478-489 | a group that goes on is in order for the running queue |
| `Outputs.TokensTaken` | vllm_blend/vllm/engine/llm_engine.py:478-489 | every live member has its old tokens, the sampled one after them, the chunk counted as computed, and ends if and as the sample says; the finished ones are as they were |
| `Outputs.ProducedContinues` | vllm_blend/vllm/engine/llm_engine.py:478-489 | it keeps its request and arrival, and may run no more sequences than before |
| `Outputs.AllProduced` | vllm_blend/vllm/engine/llm_engine.py:478-492 | after all outputs exactly the unfinished groups remain |
| `Rosters.MoveKeeps` | vllm_blend/vllm/core/scheduler.py:238-288 | moving one group to another queue, its own tables changing with it, leaves every other group in order and no request lost or duplicated |
| `Rosters.LeaveKeeps` | vllm_blend/vllm/core/scheduler.py:955-957 | so does a group that leaves |
| `Rosters.JoinKeeps` | vllm_blend/vllm/core/scheduler.py:298-300 | and one that joins |
| `Rosters.GrowKeeps` | vllm_blend/vllm/sequence.py:529-532 | and one that gains a member |
| `Rosters.NotYetScheduled` | vllm_blend/vllm/core/scheduler.py:390-450 | a group still queued has not been scheduled in this step |
| `Rosters.FinishedUntabled` | vllm_blend/vllm/core/scheduler.py:332-336 | a finished member has no table in any queue |
| `Rosters.TabledOwned` | vllm_blend/vllm/core/scheduler.py:951-953 | every table belongs to a member of a known group: what has left keeps no memory |
| `Budget.SchedulingBudget.AddNumBatchedTokens` | vllm_blend/vllm/core/scheduler.py:59-64 | a request is counted once |
| `Budget.SchedulingBudget.SubtractNumBatchedTokens` | vllm_blend/vllm/core/scheduler.py:66-70 | only a counted request is taken off |
| `Budget.SchedulingBudget.AddNumSeqs` | vllm_blend/vllm/core/scheduler.py:72-77 | a request is counted once |
| `Budget.SchedulingBudget.SubtractNumSeqs` | vllm_blend/vllm/core/scheduler.py:79-82 | only a counted request is taken off |
| `Scheduling.Scheduler.AppendSlots` | vllm_blend/vllm/core/scheduler.py:964-987 | every live member has a slot for its newest token, a free block for each is enough, no other table changes, and the dictionary of copies grows by exactly the shared last blocks replaced, in order |
| `Scheduling.Scheduler.AppendSlot` | vllm_blend/vllm/core/block_manager_v1.py:374-418 | the same for one member |
| `Scheduling.Scheduler.SwapOut` | vllm_blend/vllm/core/scheduler.py:1047-1061 | fails exactly when the group holds more blocks than the CPU has free; otherwise the CPU loses just these, and statuses, tables and reported numbers follow |
| `Scheduling.Scheduler.SwapIn` | vllm_blend/vllm/core/scheduler.py:1037-1045 | statuses, tables and reported numbers; what `can_swap_in` asks for also covers the following appends |
| `Scheduling.Scheduler.Preempt` | vllm_blend/vllm/core/scheduler.py:989-1035 | recomputation exactly for groups that may run one sequence; it fails exactly when a group to be swapped holds more blocks than the CPU has free; the new state of the group and the free CPU blocks either way |
| `Scheduling.Scheduler.PreemptByRecompute` | vllm_blend/vllm/core/scheduler.py:1019-1028 | the one running member gives up its blocks and waits again; swap space is as before |
| `Scheduling.Scheduler.PreemptBySwap` | vllm_blend/vllm/core/scheduler.py:1030-1035 | the group leaves with all its blocks, or the error says that the CPU has too few |
| `Scheduling.Scheduler.PreemptVictim` | vllm_blend/vllm/core/scheduler.py:409-427 | fails exactly for lack of swap space; otherwise the victim leaves the running queue for the right list, nothing else changes, and exactly its blocks that no stray reference keeps become free |
| `Scheduling.Scheduler.PreemptNext` | vllm_blend/vllm/core/scheduler.py:409-427 | one more victim of the group whose turn it is, with the swap space it takes |
| `Scheduling.Scheduler.MakeRoom` | vllm_blend/vllm/core/scheduler.py:400-427 | victims are taken from the end of the queue, the group itself last, as many as the state before the step says will make room, none exactly if there was room; fails exactly when they hold more swap space than there is; the group that makes room is taken off the count of sequences, once, and nothing else is |
| `Scheduling.Scheduler.DecodeGroup` | vllm_blend/vllm/core/scheduler.py:428-441 | the group gets its slots and joins the decoding ones |
| `Scheduling.Scheduler.ScheduleRunning` | vllm_blend/vllm/core/scheduler.py:345-463 | of the groups in order of arrival a first part decodes and a last part is preempted, which ones the state before the call says, as it says who makes room; none is preempted exactly when every group in turn finds room; the error is raised exactly when the victims need more swap space than is free; the count of sequences loses exactly the groups that had to make room; requests are conserved; the transfers told are exactly those that turn the old tables into the new ones |
| `Queues.CountIs` | vllm_blend/vllm/core/scheduler.py:400-427 | so what is left of the count is the groups that ran without making room plus those displaced by others |
| `Preemptions.CountRightIff` | vllm_blend/vllm/core/scheduler.py:390-427 | it is the count of the groups that go on if and only if the groups that make room, as computed from the state before the call, count as much as those that will be preempted |
| `Preemptions.AloneCountRight` | vllm_blend/vllm/core/scheduler.py:400-427 | with one sample a request it is always right, as long as each running group would give up some block |
| `Scheduling.Scheduler.SinglesCountRight` | vllm_blend/vllm/core/scheduler.py:345-463 | so it is at every call when all running requests have one sample and reference counts are exact, which `Engine.LLMEngine.RunSteps` keeps over whole runs |
| `Preemptions.CountOfTwo` | vllm_blend/vllm/core/scheduler.py:400-427 | when the first of two groups takes the room of the second, the count left is that of the second |
| `DisplacedGroups.CountsOne` | vllm_blend/vllm/core/scheduler.py:345-463 | a concrete input: two prompts are granted, the first sequence forked, and a group of two with one of one scheduled by the calls modelled here; two sequences go on and the count is one |
| `DisplacedGroups.ReadyBoth` | vllm_blend/vllm/core/scheduler.py:345-399 | that these groups are in order for the running queue |
| `Preemptions.TurnsPlay` | vllm_blend/vllm/core/scheduler.py:390-427 | the turns computed from the state before split the queue into those that go on and, at its end, those that are preempted |
| `Preemptions.SpaceSuffices` | vllm_blend/vllm/core/scheduler.py:1047-1061 | if the CPU has room for all blocks of all running groups, swap space is not lacking |
| `Preemptions.SlotsTake` | vllm_blend/vllm/core/block_manager_v1.py:374-418 | how many free blocks the appends of a group take, from its tables and counts alone |
| `Preemptions.VictimGivesUp` | vllm_blend/vllm/core/scheduler.py:1019-1035 | a preemption frees exactly the blocks of the group that are counted as often as they are held |
| `Preemptions.StillAsBefore` | vllm_blend/vllm/core/scheduler.py:390-427 | a group that has not had its turn takes and gives up what it would have at the start |
| `Preemptions.ProgressNext` | vllm_blend/vllm/core/scheduler.py:390-427 | one more turn: free blocks, swap space and count follow the turns computed before |
| `Queues.AccountGrows` | vllm_blend/vllm/core/scheduler.py:390-427 | one more turn of the loop, on the record of who made room and who was displaced |
| `Forecasts.ForeseenNext` | vllm_blend/vllm/core/scheduler.py:390-427 | each turn keeps what was foreseen: who finds room and what swap space is left follows from the state before the step |
| `Scheduling.Scheduler.TurnStarts` | vllm_blend/vllm/core/scheduler.py:391-397 | the assertion that there is a token to run holds |
| `Scheduling.Scheduler.FetchGroup` | vllm_blend/vllm/core/scheduler.py:540-541 | the tables of a returning group; one with a single live member shares no block and needs no copy |
| `Scheduling.Scheduler.ReturnGroup` | vllm_blend/vllm/core/scheduler.py:539-552 | the assertion that its new tokens are one holds if and only if the group has exactly one live member |
| `Queues.TwoReturn` | vllm_blend/vllm/core/scheduler.py:528-548 | two decode sequences count as two new tokens |
| `SwappedPairs.PairFails` | vllm_blend/vllm/core/scheduler.py:465-552 | a concrete input: a prompt is granted, its sequence forked and the pair swapped out by the calls modelled here; then the loop over the swapped groups raises the assertion |
| `SwappedPairs.ReadyPair` | vllm_blend/vllm/core/scheduler.py:465-535 | that the pair is in order for the swapped queue, with memory and budget to return |
| `SwappedPairs.PairSwapped` | vllm_blend/vllm/core/scheduler.py:1047-1061 | the two members share their one block on the CPU |
| `Scheduling.Scheduler.CheckReturn` | vllm_blend/vllm/core/scheduler.py:508-535 | the two tests as one condition |
| `Scheduling.Scheduler.ReturnNext` | vllm_blend/vllm/core/scheduler.py:505-552 | one turn of the loop: the group returns exactly if it fits, and is charged one token for its live member |
| `Scheduling.Scheduler.ScheduleSwapped` | vllm_blend/vllm/core/scheduler.py:465-562 | the earliest groups return as long as they fit, and the first that stays does not; the assertion on new tokens fails if and only if, after some groups with one live member have returned, the next one that fits has several; each returned member is charged as one token; the transfers told are exact |
| `Forecasts.StumblesThen` | vllm_blend/vllm/core/scheduler.py:721-734 | whether that happens after the running groups have had their turns can be told from the state before the step |
| `Forecasts.StumblesOver` | vllm_blend/vllm/core/scheduler.py:539-552 | a group with several live members is among the swapped ones then |
| `Forecasts.HeldStill` | vllm_blend/vllm/core/scheduler.py:345-463 | groups of other requests hold the blocks they held |
| `Forecasts.HeldAlone` | vllm_blend/vllm/core/block_manager_v1.py:433-442 | a group with one live member holds the blocks of its table |
| `Forecasts.LandedSize` | vllm_blend/vllm/core/block_manager_v1.py:458-487 | and has as many of them when it is back |
| `Forecasts.SlotAlone` | vllm_blend/vllm/core/block_manager_v1.py:374-418 | an append for an unshared table takes a block exactly when the table is too short |
| `Scheduling.Scheduler.Consider` | vllm_blend/vllm/core/scheduler.py:607-660 | the verdict on a prompt: ignored if and only if it can never run, started if and only if it fits memory and budget; the assertions on it hold |
| `Scheduling.Scheduler.CheckAllocate` | vllm_blend/vllm/core/block_manager_v1.py:248-266 | what `can_allocate` says about the group |
| `Scheduling.Scheduler.StartGroup` | vllm_blend/vllm/core/scheduler.py:662-671 | the group runs its whole prompt and is charged to the budget once |
| `Scheduling.Scheduler.AllocateAndSetRunning` | vllm_blend/vllm/core/scheduler.py:959-962 | its member has a table for the whole prompt |
| `Scheduling.Scheduler.StartNext` | vllm_blend/vllm/core/scheduler.py:604-671 | one turn of the loop: what it decides, and what it charges |
| `Scheduling.Scheduler.SchedulePrefills` | vllm_blend/vllm/core/scheduler.py:564-681 | the first waiting groups start in their order and those too long are refused; the loop ends with the queue, with the delay, or at a prompt that does not fit in what is left, and some group starts if and only if the state before says so; the budget is charged the lengths of the prompts and the sequences they may run; other tables stay |
| `Queues.FirstStarts` | vllm_blend/vllm/core/scheduler.py:604-671 | the first group that is not refused for good starts the prompts if it fits |
| `Queues.NoneStarts` | vllm_blend/vllm/core/scheduler.py:604-671 | and if it does not, or the delay has not passed, none starts |
| `Queues.RefusedEnd` | vllm_blend/vllm/core/scheduler.py:611-640 | refused requests have ended as ignored |
| `Queues.PromptTokens` | vllm_blend/vllm/core/scheduler.py:663-670 | a prompt that starts is charged all tokens of its one live member |
| `Scheduling.Scheduler.ScheduleDecodes` | vllm_blend/vllm/core/scheduler.py:721-734 | swapped groups return only if nothing was preempted; one token for each live member that decodes; who is preempted, and each of the two errors, is told exactly by the state before |
| `Scheduling.Scheduler.StepDecodes` | vllm_blend/vllm/core/scheduler.py:721-770 | queues, budget assertions and transfers of a step that decodes; no prompt groups, one batched token for each live member of the scheduled groups; the first group that stays swapped does not fit in what is left; each of the two errors is told exactly by the state before |
| `Scheduling.Scheduler.FirstPrefills` | vllm_blend/vllm/core/scheduler.py:712-715 | the step begins with the prompts only if nothing is swapped, with the whole budget |
| `Scheduling.Scheduler.StartBudget` | vllm_blend/vllm/core/scheduler.py:691-700 | the budget starts with the running groups, each once |
| `Scheduling.Scheduler.Schedule` | vllm_blend/vllm/core/scheduler.py:683-770 | one step: invariant kept, requests conserved, both budget assertions hold and their bound is there for the next step, swap-in and swap-out never both occur, the queues change as specified, and the three dictionaries are exact; if prompts start, all scheduled groups are prompts and the batched tokens are the lengths of their live members, and if the step decodes there is one token for each live member of the scheduled groups and no prompt; refused requests are just those too long among the prompts considered, and what is left waiting or swapped could not go on with what is left; whether prompts start, who is preempted, whether swap space is lacking and whether the assertion on returning groups fails are told, each exactly, by the state before the step, and no other error is raised |
| `Scheduling.Scheduler.AddSeqGroup` | vllm_blend/vllm/core/scheduler.py:298-300 | a new request joins the end of the waiting queue |
| `Scheduling.Scheduler.AbortSeqGroup` | vllm_blend/vllm/core/scheduler.py:302-336 | exactly the named requests leave all queues, each looked for once, and give up their memory; other tables stay, and exact counts stay exact |
| `Scheduling.Scheduler.AbortFrom` | vllm_blend/vllm/core/scheduler.py:318-336 | the named requests leave one queue |
| `Scheduling.Scheduler.FindAborted` | vllm_blend/vllm/core/scheduler.py:319-328 | the early exit loses none |
| `Scheduling.Scheduler.FreeGroup` | vllm_blend/vllm/core/scheduler.py:332-336 | an aborted group leaves no table |
| `Scheduling.Scheduler.FreeMember` | vllm_blend/vllm/core/scheduler.py:951-953 | one table is gone |
| `Scheduling.Scheduler.ForkSeq` | vllm_blend/vllm/core/scheduler.py:948-949 | the child joins its parent's group as the last member, with its parent's tokens but for the newest, and shares its table; invariant and exact counts kept |
| `Transfers.ShipVictim` | vllm_blend/vllm/core/scheduler.py:409-427 | a preemption extends the swap-out dictionary without overwriting an entry of it |
| `Transfers.NotOverwritten` | vllm_blend/vllm/core/scheduler.py:1047-1061 | no block of a later victim has the number of an earlier one's |
| `Transfers.ShipDecode` | vllm_blend/vllm/core/scheduler.py:428-441 | a group that decodes extends the dictionary of copies only |
| `Transfers.TransitInjective` | vllm_blend/vllm/core/scheduler.py:1058-1059 | no two blocks are sent to the same place |
| `Transfers.ShippedAll` | vllm_blend/vllm/core/scheduler.py:455-463 | at the end of the running queue the swap-out dictionary sends every block a victim had to the block now in its place, and says nothing else |
| `Transfers.FetchMore` | vllm_blend/vllm/core/scheduler.py:539-541 | a returning group extends the swap-in dictionary without overwriting an entry of it |
| `Transfers.ThenFetched` | vllm_blend/vllm/core/scheduler.py:729-734 | the same for swap-in, and the copies of the running groups are still right afterwards |
| `Transfers.UnsharedStep` | vllm_blend/vllm/core/block_manager_v1.py:374-517 | only members of one group ever share blocks |
| `Transfers.RelocatedBy` | vllm_blend/vllm/core/block_manager_v1.py:458-517 | a swap in block numbers is the swap in blocks |
| `Transfers.NoCopy` | vllm_blend/vllm/core/block_manager_v1.py:401-418 | a sequence that shares nothing is never copied |
| `Transfers.MergedInOrder` | vllm_blend/vllm/utils.py:509-523 | for each source the targets of the first dictionary come first and those of the second last, and no others are there |
| `Footprints.SlotsShape` | vllm_blend/vllm/core/block_manager_v1.py:374-418 | after the appends of a group the last block of each running member is its own, and no block in use became free |
| `Footprints.OthersMove` | vllm_blend/vllm/core/scheduler.py:390-450 | what other requests do leaves the last blocks of a group its own and its old blocks in use |
| `Footprints.OnwardVictim` | vllm_blend/vllm/core/scheduler.py:409-427 | a preemption keeps that for all groups still to come and all that have had their turn |
| `Footprints.OnwardDecode` | vllm_blend/vllm/core/scheduler.py:428-441 | so does a group that decodes |
| `Footprints.InwardMore` | vllm_blend/vllm/core/scheduler.py:539-552 | so does a group that returns |
| `Footprints.StepThenFetched` | vllm_blend/vllm/core/scheduler.py:721-734 | so does the whole step |
| `Footprints.GrantingNext` | vllm_blend/vllm/core/scheduler.py:662-671 | starting prompts leaves other tables alone |
| `Contents.KeptReads` | vllm_blend/vllm/worker/worker.py:204-219 | after the worker has carried out the three dictionaries, a sequence that goes on reads through its new table what it read through its old one, also where its last block was replaced |
| `Contents.VictimReads` | vllm_blend/vllm/worker/worker.py:204-219 | so does one that was swapped out |
| `Contents.ReturnedReads` | vllm_blend/vllm/worker/worker.py:204-219 | so does one that came back |
| `Contents.OtherReads` | vllm_blend/vllm/worker/worker.py:204-219 | so does any other |
| `Contents.CopiesFrom` | vllm_blend/vllm/core/scheduler.py:964-987 | the dictionary of copies has a pair exactly for each replaced last block |
| `Contents.CopiesApart` | vllm_blend/vllm/core/scheduler.py:964-987 | copies go to different blocks, and none is copied from |
| `Contents.CopiesMeetKernel` | vllm_blend/csrc/cpu/cache.cpp:84-108 | so its pairs meet what `KvCache.CopyBlocks` asks for |
| `Contents.DecodeServes` | vllm_blend/vllm/worker/worker.py:204-219 | a decoding step of the scheduler, carried out by the worker, with one entry written for each running sequence: every sequence's view through its table stays its own list of entries, one longer for those that ran |
| `Serving.WentPlaced` | vllm_blend/vllm/core/scheduler.py:736-752 | where the tables of the groups of a step lie before and after it, from the queues alone |
| `Serving.DecodeBacked` | vllm_blend/vllm/core/scheduler.py:717-770 | a decoding step keeps every view just the entries computed for the sequence |
| `Serving.AdmitBacked` | vllm_blend/vllm/core/scheduler.py:564-681 | so does a step that starts prompts, written through their fresh tables |
| `Serving.PromptShows` | vllm_blend/csrc/cpu/cache.cpp:34-78 | a prompt written block by block shows through its table |
| `Serving.NewAlone` | vllm_blend/vllm/core/block_manager_v1.py:268-295 | the table of a prompt that starts shares no block with any other |
| `Serving.FreedBacked` | vllm_blend/vllm/engine/llm_engine.py:478-489 | freeing sequences keeps the views of the others |
| `Serving.ForkBacked` | vllm_blend/vllm/core/scheduler.py:948-949 | a fork keeps all views, and the child sees what its parent sees |
| `Queues.RunsAreFirstComeFirstServed` | vllm_blend/vllm/core/scheduler.py:683-770 | over whole runs of arrivals in order, aborts, steps and finishes, with requests for one sample: both queues stay in order of arrival and no running group arrived after a waiting one |
| `Queues.PreemptionThins` | vllm_blend/vllm/core/scheduler.py:736-752 | the preempted ones are a suffix of the running queue in order, and go back in front of the waiting ones in order |
| `Queues.AdmitKeepsOrder` | vllm_blend/vllm/core/scheduler.py:564-681 | starting prompts keeps that order |
| `Queues.DecodeKeepsOrder` | vllm_blend/vllm/core/scheduler.py:717-752 | so does decoding with preemption |
| `Queues.ThinKeepsFirstCome` | vllm_blend/vllm/core/scheduler.py:302-336 | so do aborts and finished groups |
| `Queues.ArriveKeepsOrder` | vllm_blend/vllm/core/scheduler.py:298-300 | so do arrivals in order |
| `Queues.SinglesNeverSwap` | vllm_blend/vllm/core/scheduler.py:1006-1017 | requests for one sample are never swapped |
| `Queues.LiveWithinMax` | vllm_blend/vllm/sequence.py:464-479 | no group runs more sequences than it is accounted for |
| `Lifetimes.NeverMore` | vllm_blend/vllm/sequence.py:464-479 | whatever forks there is room for and whatever members end, no more members are ever live than that number says, less the samples that ended before all had been forked |
| `Lifetimes.ForkAll` | vllm_blend/vllm/sequence.py:464-479 | and so many are, if all that are wanted get forked |
| `Lifetimes.LimitMetIff` | vllm_blend/vllm/sequence.py:464-479 | so the number is the least bound if and only if the group searches beams, all samples have been forked, or none has ended |
| `Lifetimes.ChangeCounts` | vllm_blend/vllm/sequence.py:464-479 | one fork or one end: the bound does not grow |
| `Steps.StepSums` | vllm_blend/vllm/core/scheduler.py:736-738 | the decoding groups stay within the bound on running sequences, which is within the token budget |
| `Steps.StepTokens` | vllm_blend/vllm/core/scheduler.py:736-765 | the tokens of a decoding step are the live members of the groups that went on and of those that came back |
| `Steps.PutBack` | vllm_blend/vllm/core/scheduler.py:740-742 | `extendleft` puts the preempted groups back, the one preempted last in front |
| `Engine.LLMEngine.ProcessGroup` | vllm_blend/vllm/engine/llm_engine.py:478-489 | never fails; every live member gets its token; afterwards the group runs on or has left with its memory |
| `Engine.LLMEngine.ProcessModelOutputs` | vllm_blend/vllm/engine/llm_engine.py:461-504 | never fails; exactly the unfinished groups remain and the scheduler is in order for the next step |
| `Engine.LLMEngine.FreeFinished` | vllm_blend/vllm/engine/llm_engine.py:478-489 | exactly the sequences that ended give up their tables |
| `Engine.LLMEngine.Step` | vllm_blend/vllm/engine/llm_engine.py:506-578 | one step of the engine: the queues change as specified, every live member that ran gets its token and ended groups are gone, and what is returned are the groups that ran and those refused; whether prompts start, and whether and how it fails, the state before says exactly; the invariant is kept; for requests of one sample nothing fails, the order is kept and exact counts stay exact; and if every sequence saw through its table just the entries computed for it, it does so after the step, with the entries of this step added |
| `Engine.LLMEngine.RunSteps` | vllm_blend/vllm/engine/llm_engine.py:506-578 | over any number of steps: each is such a step of the one before, and the same holds, so the view of every sequence through its block table is the list of the model's entries for its tokens so far, whatever was shared, copied, preempted, recomputed, swapped out and swapped in |
| `Engine.StepMade` | vllm_blend/vllm/engine/llm_engine.py:506-578 | what a step is made of: the schedule, then the outputs of those that ran |
| `Engine.StepKeepsOrder` | vllm_blend/vllm/engine/llm_engine.py:506-578 | requests of one sample stay first come, first served |
| `Engine.IgnoredAre` | vllm_blend/vllm/core/scheduler.py:705-734 | the prompts refused are those too long among the ones considered, and none is considered while a group is swapped |
| `Engine.LLMEngine.SeesComputed` | vllm_blend/vllm/sequence.py:145-152 | for a running sequence these are all its tokens but the newest |
| `Engine.LLMEngine.EmptyServes` | vllm_blend/vllm/engine/llm_engine.py:506-578 | so it is before the first request, whatever memory holds |
| `Engine.LLMEngine.ModelRuns` | vllm_blend/vllm/worker/worker.py:204-259 | what one call of `schedule` tells the worker, carried out, and the model's writes |
| `Engine.LLMEngine.AddRequest` | vllm_blend/vllm/engine/llm_engine.py:428 | a new request joins; views stay |
| `Engine.LLMEngine.AbortRequest` | vllm_blend/vllm/engine/llm_engine.py:430-447 | aborted requests leave; the views of the others stay |
| `Engine.LLMEngine.Fork` | vllm_blend/vllm/core/scheduler.py:948-949 | the child sees what its parent sees; the other views stay |
| `KvLayout.KeysInjective` | vllm_blend/csrc/cpu/cache.cpp:51-66 | different (block, head, slot, element) have different key offsets |
| `KvLayout.ValuesInjective` | vllm_blend/csrc/cpu/cache.cpp:51-73 | the same for values |
| `KvLayout.PlacesInBounds` | vllm_blend/csrc/cpu/cache.cpp:51-66 | all offsets lie inside the cache |
| `KvCache.StoreHead` | vllm_blend/csrc/cpu/cache.cpp:58-73 | one head of one token: its elements are in its cells and no other cell changes |
| `KvCache.ReshapeAndCache` | vllm_blend/csrc/cpu/cache.cpp:34-78 | for every order of the iterations, every token with a slot is stored, padded ones are not, and no other cell changes |
| `KvCache.StoredNext` | vllm_blend/csrc/cpu/cache.cpp:41-76 | iterations do not disturb each other |
| `KvCache.CopyBlocks` | vllm_blend/csrc/cpu/cache.cpp:8-32 | for every order of the iterations over layers and pairs, with targets distinct and no source among them, keys and values of every layer are as if all pairs were copied at once |
| `KvCache.CopyPair` | vllm_blend/csrc/cpu/cache.cpp:18-30 | one pair after any of the others |
| `KvCache.CopyInLayer` | vllm_blend/csrc/cpu/cache.cpp:17-30 | one iteration copies one pair in both caches of one layer and nothing else |
| `KvCache.CopyBlock` | vllm_blend/csrc/cpu/cache.cpp:18-30 | one `memcpy` replaces one block and nothing else |
| `Softmax.ReduceSoftmax` | vllm_blend/csrc/cpu/attention.cpp:43-67 | the row becomes its softmax and zeros up to the capacity; returned are its maximum and the sum of exponentials, at least 1 |
| `Softmax.ReduceSoftmaxAlibi` | vllm_blend/csrc/cpu/attention.cpp:69-98 | the same after the bias by distance from the newest token |
| `Softmax.BiasIs` | vllm_blend/csrc/cpu/attention.cpp:69-98 | the newest token has no bias, each other one slope less than the token after it |
| `Softmax.ReducePartitionSoftmax` | vllm_blend/csrc/cpu/attention.cpp:100-117 | the sums become the factors exp(m_i - m) s_i / (S + 1e-8) |
| `Softmax.MaxOf` | vllm_blend/csrc/cpu/attention.cpp:46-49 | a maximum of the row |
| `Softmax.AttendShifted` | vllm_blend/csrc/cpu/attention.cpp:43-67 | softmax does not depend on the number subtracted |
| `Partitions.PartitionsAttend` | vllm_blend/csrc/cpu/attention.cpp:582-644 | partitioned attention is exact attention times S / (S + 1e-8), where S >= 1, for every row and every partitioning |
| `Partitions.ShrunkBound` | vllm_blend/csrc/cpu/attention.cpp:114-116 | so its relative error is at most 0.00000001, the constant of the code |
| `Attention.QkBlock` | vllm_blend/csrc/cpu/attention.cpp:135-194 | the blocked kernel writes exactly scale times the dot product for each token of the block |
| `Attention.AccumulateNext` | vllm_blend/csrc/cpu/attention.cpp:142-180 | its index walk meets the layout of the keys |
| `Attention.ReduceLanes` | vllm_blend/csrc/cpu/attention.cpp:182-193 | adding up the lanes of a token |
| `Attention.ComputeLogits` | vllm_blend/csrc/cpu/attention.cpp:265-277 | the logits of all tokens, block by block through the block table |
| `Attention.ReduceValue` | vllm_blend/csrc/cpu/attention.cpp:293-332 | one element of the output: lane by lane over the blocks, then across the lanes |
| `Attention.ComputeValues` | vllm_blend/csrc/cpu/attention.cpp:289-333 | all elements of the output are the values weighted by the probabilities |
| `Attention.AttendStretch` | vllm_blend/csrc/cpu/attention.cpp:468-577 | one stretch of the context gives its exact attention, maximum and sum |
| `Sums.LanesTotal` | vllm_blend/csrc/cpu/attention.cpp:328-332 | adding within lanes and then across them adds up all terms |
| `PagedAttention.PagedAttentionV1` | vllm_blend/csrc/cpu/attention.cpp:253-333 | the output is exact softmax attention over the paged context, with or without ALiBi; nothing else is written |
| `KernelBatches.PagedAttentionV1Batch` | vllm_blend/csrc/cpu/attention.cpp:250-338 | over all sequences and query heads, in any order of the collapsed loops: each slice of the output is the exact attention of its head over the context of its sequence; which key-value head that is, `PlainAttention.BatchIsPlain` says |
| `KernelBatches.AttendOne` | vllm_blend/csrc/cpu/attention.cpp:252-333 | one iteration writes its slice and nothing else |
| `KernelBatches.SlicesApart` | vllm_blend/csrc/cpu/attention.cpp:296-298 | the slices of `out`, and those of `exp_sums`, `max_logits` and `tmp_out`, for different sequences or heads are disjoint |
| `KernelBatches.SliceFits` | vllm_blend/csrc/cpu/attention.cpp:250-298 | all slices lie inside the array |
| `PlainAttention.BatchIsPlain` | vllm_blend/csrc/cpu/attention.cpp:250-338 | query heads `g * queriesPerKv` up to `(g + 1) * queriesPerKv` attend to the plain keys and values of key-value head `g` that are stored in the slots of the sequence's block table |
| `PlainAttention.RowIsPlain` | vllm_blend/csrc/cpu/attention.cpp:265-277 | position by position the logits are scaled products with the plain keys, with the ALiBi bias by distance |
| `PlainAttention.SlotHoldsToken` | vllm_blend/csrc/cpu/cache.cpp:34-78 | what `reshape_and_cache` leaves in the slot of a token is that token, all heads in order |
| `PlainAttention.FirstTokenOut` | vllm_blend/csrc/cpu/attention.cpp:250-338 | after one token, each query head gives the value stored for its key-value head |
| `PagedAttention.OnePartition` | vllm_blend/csrc/cpu/attention.cpp:468-577 | what one partition leaves behind |
| `PagedAttention.ReduceParts` | vllm_blend/csrc/cpu/attention.cpp:602-644 | the partitions' outputs weighted by their factors |
| `PagedAttention.PagedAttentionV2` | vllm_blend/csrc/cpu/attention.cpp:463-645 | the output is exact attention times S / (S + 1e-8), and exact with one partition |
| `PagedAttention.PartOfRow` | vllm_blend/csrc/cpu/attention.cpp:468-515 | a partition sees the part of the row it covers, bias included |
| `PagedAttention.KernelsAgree` | vllm_blend/csrc/cpu/attention.cpp:433-646 | the second kernel gives the first one's value times S / (S + 0.00000001), so they differ by at most 0.00000001 of it; they are equal if and only if there is one partition or that value is zero |
| `PagedAttention.StoredIsRead` | vllm_blend/csrc/cpu/cache.cpp:41-76 | what `reshape_and_cache` stored is what both kernels read: a stored token contributes its plain scaled dot product and its own value |
| `Tracking.AsyncStream.Put` | vllm_blend/vllm/engine/async_llm_engine.py:58-61 | an item is added unless the stream is finished |
| `Tracking.AsyncStream.Finish` | vllm_blend/vllm/engine/async_llm_engine.py:63-65 | one stop marker, and nothing after it |
| `Tracking.AsyncStream.Next` | vllm_blend/vllm/engine/async_llm_engine.py:74-78 | items come in order |
| `Tracking.RequestTracker.AddRequest` | vllm_blend/vllm/engine/async_llm_engine.py:134-149 | KeyError exactly for a request that has a stream, whether or not the identifier waits; otherwise a fresh stream waits; waiting identifiers stay distinct unless this one waited already |
| `Tracking.RequestTracker.AbortRequest` | vllm_blend/vllm/engine/async_llm_engine.py:151-163 | the request is queued as finished and its stream, if it is open, gets its stop marker |
| `Tracking.RequestTracker.ProcessRequestOutput` | vllm_blend/vllm/engine/async_llm_engine.py:110-121 | KeyError exactly for an unknown request; otherwise the output, and the stop marker with the last one |
| `Tracking.RequestTracker.ProcessException` | vllm_blend/vllm/engine/async_llm_engine.py:123-132 | KeyError exactly for an unknown request; otherwise the error and the stop marker |
| `Tracking.RequestTracker.DrainFinished` | vllm_blend/vllm/engine/async_llm_engine.py:171-174 | finished requests leave the table |
| `Tracking.RequestTracker.DrainNew` | vllm_blend/vllm/engine/async_llm_engine.py:176-183 | waiting requests are admitted in order, except those aborted meanwhile, whose streams are only stopped; of several streams for one identifier the last is in the table |
| `Tracking.RequestTracker.GetNewAndFinishedRequests` | vllm_blend/vllm/engine/async_llm_engine.py:165-185 | both; if all streams were well looked after, they all still are if and only if no identifier waited twice among those not aborted |
| `Tracking.RequestTracker.AllHealthyIff` | vllm_blend/vllm/engine/async_llm_engine.py:165-185 | the same on the table that results |
| `Tracking.RequestTracker.AddTwice` | vllm_blend/vllm/engine/async_llm_engine.py:134-185 | a concrete case: the same request added twice before the next step goes to the engine twice, and its first stream is neither stopped, nor waiting, nor in the table |
| `Tracking.FiledLast` | vllm_blend/vllm/engine/async_llm_engine.py:176-183 | an identifier keeps the last of its streams |
| `Tracking.FiledLost` | vllm_blend/vllm/engine/async_llm_engine.py:176-183 | and loses every earlier one |
| `AsyncEngine.AsyncLLMEngine.BeginStep` | vllm_blend/vllm/engine/async_llm_engine.py:444-445 | what is to be admitted and aborted is apart, and every stopped request that the engine holds is to be aborted; the streams of admitted requests have received nothing, those of aborted ones are out of the table |
| `AsyncEngine.AsyncLLMEngine.TakeOver` | vllm_blend/vllm/engine/async_llm_engine.py:165-185 | what the tracker hands over, and what the streams in its table have received then |
| `AsyncEngine.AsyncLLMEngine.AdmitNext` | vllm_blend/vllm/engine/async_llm_engine.py:447-462 | the engine never gets a request it holds; a refused one gets its error, and its stream is closed; one aborted since the step began enters all the same |
| `AsyncEngine.AsyncLLMEngine.AbortFinished` | vllm_blend/vllm/engine/async_llm_engine.py:464-465 | afterwards the engine holds only requests that have a stream, and stopped ones among them are exactly those aborted since the step began |
| `AsyncEngine.AsyncLLMEngine.PutOutput` | vllm_blend/vllm/engine/async_llm_engine.py:473-475 | an output never meets an unknown request; its stream receives it unless it is closed, and is closed after the last one |
| `AsyncEngine.AsyncLLMEngine.PutOutputs` | vllm_blend/vllm/engine/async_llm_engine.py:473-477 | what each stream receives: its own outputs in order up to the last, then the stop marker; requests whose last output came are queued as finished |
| `AsyncEngine.AsyncLLMEngine.Resume` | vllm_blend/vllm/engine/async_llm_engine.py:439-477 | the loop goes on to its next await, as a machine on identifiers and received items says |
| `AsyncEngine.AsyncLLMEngine.Abort` | vllm_blend/vllm/engine/async_llm_engine.py:663-679 | a client may abort at any await: an open stream is closed, and the request is queued as finished |
| `AsyncEngine.AsyncLLMEngine.AddRequest` | vllm_blend/vllm/engine/async_llm_engine.py:505-567 | a client may add at any await; the streams stay in order if and only if the identifier does not wait |
| `AsyncEngine.Run` | vllm_blend/vllm/engine/async_llm_engine.py:439-477 | every interleaving of clients and loop up to the first addition of an identifier that waits, which never comes if identifiers are not used twice, is a run of a machine on identifiers and received items, event by event: what the engine holds, what is queued and what every stream in the table has received is a function of the events; nothing raises, and every stream is well-formed and stopped, waiting, or belongs to a request the engine holds or will get |
| `AsyncEngine.StoppedLeave` | vllm_blend/vllm/engine/async_llm_engine.py:439-477 | over every such continuation, a stopped request that the engine holds when a step begins is gone when the model runs |
| `Blending.TrimChunks` | example/blend_samsum.py:32-35 | ends at or below the limit with the longest outer part of the chunks that fits; it is the middle chunk that is dropped each time, not the last |
| `Blending.LastDroppedIff` | example/blend_samsum.py:32-35 | for different chunks, the ones dropped are the last ones, as the comment says, if and only if all fit, there is one chunk, or the first and the last one together do not fit |
| `Blending.OuterIsFirstIff` | example/blend_samsum.py:34-35 | for different chunks, the outer n are the first n only if n is at most one, or all |
| `Blending.SecondOfThree` | example/blend_samsum.py:34-35 | a concrete case: of three chunks the second goes first |
| `Blending.OuterShrinks` | example/blend_samsum.py:34-35 | deleting the middle of the outer n leaves the outer n - 1 |
| `Blending.JoinCaches` | example/blend_samsum.py:67-91 | each layer has the rows of the first chunk, then of each other chunk without its first ones |
| `Blending.JoinTokens` | example/blend_samsum.py:94-101 | the tokens are joined alike |
| `Blending.RowsOfTokens` | example/blend_samsum.py:71-101 | row r of every layer is the row of token r of the blended prompt behind its first token, with equal lengths, for any filler |
| `Blending.InputIs` | example/blend_samsum.py:59-101 | the blended prompt is the prefix, the kept chunks and the question; the filler drops out |
| `Blending.Blend` | example/blend_samsum.py:50-101 | all of that together, for keys and values of all layers |
| `Blending.TrimAndBlend` | example/blend_samsum.py:32-101 | trimming and blending together: the kept examples are an outer part of the given ones within the limit, and the prompt built of them is aligned with the rows of every layer |

## Left out

- Scheduling.Scheduler.Schedule: only the default mode without LoRA; of chunked prefill the sizes of the chunks and the
  processing of their outputs are modelled (`Chunks`), not the order in which `_schedule_chunked_prefill` calls the three loops;
  the fairness between adapters that its own comments disclaim is not modelled.
- Scheduling.Scheduler.SchedulePrefills: `_passed_delay` is a parameter that answers at each turn, because it reads the clock.
- Queues.RunsAreFirstComeFirstServed: for requests of one sample; groups of several are reordered knowingly (scheduler.py:1000-1003).
- Scheduling.Scheduler.ForkSeq: a child differs from its parent in the token sampled last only, which is when the output
  processor forks; the output processor itself is not part of this model, a finished sequence is one whose status is set and
  whose table is freed.
- Outputs.ChunksComplete: the default mode, where a chunk is all that is left; parts of it are the subject of
  `Chunks.PrefillRuns`.  Prompts are not empty, as the tokenizer's beginning-of-sequence token ensures.
- BlockManager.BlockSpaceManager.Allocate: after an error the blocks taken so far are lost, and nothing is said of the rest.
- KvRefinement.RunsRefine: runs are those of a transition system whose steps are `Legal`, and that blocks are shared only within a
  group is an assumption there.  For the scheduler's own steps the same relation is proved directly, without that assumption
  (`Engine.LLMEngine.RunSteps`), so they are not shown to be event lists of that system.
- Engine.LLMEngine.ModelRuns: what the model computes is a function of sequence and position.  The worker is modelled by what its
  cache operations do to blocks of one layer; swaps and copies of all layers are alike (`KvCache.CopyBlocks` for the latter).
- SlidingWindow.SlidingBlockManager.Allocate: groups of one sequence, without fork or swap, where repeated entries would be
  counted per occurrence.
- CachedBlockManager.PrefixCachingManager.AppendSlots: the computed-block flags are not modelled.  A copy on write may end in a
  block that is shared already, because its hash is known; that is meant.
- CachedBlockManager.PrefixCachingManager.AppendGroup: members are a token longer, as in every step of the default mode.  Copies
  are right when made in the order of the members, or as if all at once (`CachedContents.Carried`); `KvCache.CopyBlocks` asks that no
  block is both source and target, and that these copies meet this is not shown, because a block given up by one member may be
  taken by a later one (`CachedContents.OrderMatters`).
- CachedBlockManager.PrefixCachingManager.Fork: child identifiers are new; for an identifier that has a table, see
  `Paging.ForkExactIff`.
- CachedSwapping.SwapManager.SwapOut: the source keeps the tables of both devices in one dictionary, here those on the CPU are in a
  second one with other identifiers.  Of the state after a swap that runs out half-way nothing is said.  The scheduler is modelled
  over the manager without prefix caching.
- PrefixSharing.SharedBlocksAgree: content hashes are injective.
- KvCache.CopyBlocks: targets are distinct and no block is both source and target, which the scheduler's dictionaries meet
  (`Contents.CopiesMeetKernel`).
- PagedAttention.PagedAttentionV2: one head of one sequence; its loops over both write to disjoint slices
  (`KernelBatches.SlicesApart`).  For the first kernel all heads and sequences are modelled (`KernelBatches.PagedAttentionV1Batch`).
- PagedAttention.KernelsAgree: real numbers, no rounding; vector registers are sequences of their lanes.
- AsyncEngine.Run: nothing is said of what follows the addition of an identifier that still waits, beyond what
  `Tracking.RequestTracker.GetNewAndFinishedRequests` says of the streams.  The loop's timeout, its error callback with
  `propagate_exception`, and Ray are not modelled; the engine's outputs are any that name requests it holds.
- Blending.Blend: each chunk's prefill is taken to leave a row for the first token and one for each token of the chunk, and
  decoding and encoding a chunk again to give the chunk; what the rows hold, and the selective recomputation, are not modelled.
- The two allocators are separate classes and so are the two managers, not one class with a switch.
- Groups and sequences are values: that two queues could hold the same object is not expressible.
- Evictors.EvictAfterLateFree: calls on the evictor; that the block manager's own calls can leave its table so is not shown.
- `BlockSpaceManagerV2`, speculative decoding, LoRA, metrics, tokenizers, configuration beyond the bounds that
  `_verify_args` ensures, servers, CUDA kernels and the other example scripts.
- Nothing was executed: everything here is proved about the model.
