/** The default mode of the scheduler (vllm/core/scheduler.py), without LoRA and without chunked prefill. */
module Scheduling {
  import opened Wrappers
  import opened Blocks
  import opened Paging
  import opened Swapping
  import opened Sequences
  import opened GroupStates
  import opened Rosters
  import opened UncachedAllocator
  import opened BlockManager
  import opened Budget
  import opened Queues
  import opened Transfers
  import opened Forecasts
  import opened Preemptions
  import opened Footprints
  import opened Serving
  import opened Steps
  import Policy

  class Scheduler {
    const maxNumBatchedTokens: nat
    const maxNumSeqs: nat
    const promptLimit: nat
    const blockManager: BlockSpaceManager
    var waiting: seq<SequenceGroup>
    var running: seq<SequenceGroup>
    var swapped: seq<SequenceGroup>
    ghost var owner: map<int, int>  // sequence id -> request id

    /** The configuration has passed `_verify_args` (vllm/config.py:599-614). */
    constructor (blockManager: BlockSpaceManager, maxNumBatchedTokens: nat, maxNumSeqs: nat, maxModelLen: nat)
      requires blockManager.Valid() && blockManager.gpu.Numbered() && blockManager.cpu.Numbered()
      requires blockManager.blockTables == map[]
      requires maxModelLen <= maxNumBatchedTokens && maxNumSeqs <= maxNumBatchedTokens
      ensures this.blockManager == blockManager && this.maxNumSeqs == maxNumSeqs
      ensures this.maxNumBatchedTokens == maxNumBatchedTokens && promptLimit == maxModelLen
      ensures Valid() && waiting == running == swapped == [] && owner == map[]
    {
      this.blockManager := blockManager;
      this.maxNumBatchedTokens, this.maxNumSeqs := maxNumBatchedTokens, maxNumSeqs;
      this.promptLimit := if maxModelLen < maxNumBatchedTokens then maxModelLen else maxNumBatchedTokens;
      hide Scheduler.Valid, BlockSpaceManager.Valid, UncachedBlockAllocator.Numbered;
      waiting, running, swapped, owner := [], [], [], map[];
      new;
      EmptyValid();
    }

    lemma EmptyValid()
      requires blockManager.Valid() && blockManager.gpu.Numbered() && blockManager.cpu.Numbered() && blockManager.blockTables == map[]
      requires waiting == running == swapped == [] && owner == map[]
      requires promptLimit <= maxNumBatchedTokens && maxNumSeqs <= maxNumBatchedTokens
      ensures Valid()
    {
      hide EntriesOk, BlockSpaceManager.Valid, UncachedBlockAllocator.Numbered, Roster, SumMax, Unshared;
      NothingYet(blockManager.gpu.blocks, blockManager.cpu.blocks, blockManager.blockSize);
      PositiveSize(blockManager);
    }

    /** The manager is in order, and only members of one group share blocks. */
    ghost predicate ManagerOk()
      reads this`owner, blockManager, blockManager.gpu, blockManager.cpu, blockManager.gpu.blocks, blockManager.cpu.blocks
    {
      && blockManager.blockSize > 0 && blockManager.Valid()
      && blockManager.gpu.Numbered() && blockManager.cpu.Numbered()
      && Unshared(blockManager.blockTables, owner)
    }

    /** Since the ledger was `l`, every count has moved by as much as the number of tables that hold the block. */
    ghost predicate Since(l: Ledger<PhysicalTokenBlock>)
      reads blockManager`ledger
    {
      Covered(l) && blockManager.ledger == Recounted(l, blockManager.ledger.tables)
    }

    lemma SinceIs(l: Ledger<PhysicalTokenBlock>)
      requires Since(l)
      ensures Covered(l) && blockManager.ledger == Recounted(l, blockManager.ledger.tables)
    {
    }

    lemma SinceExact(l: Ledger<PhysicalTokenBlock>)
      requires Since(l)
      ensures Exact(l) ==> Exact(blockManager.ledger)
    {
      if Exact(l) {
        RecountExact(l, blockManager.ledger);
      }
    }

    lemma SinceNow()
      requires ManagerOk()
      ensures Since(blockManager.ledger)
    {
      FreeSince(0);
    }

    lemma SinceTwice(l0: Ledger<PhysicalTokenBlock>, l: Ledger<PhysicalTokenBlock>)
      requires Covered(l0) && l == Recounted(l0, l.tables) && Since(l)
      ensures Since(l0)
    {
      RecountTwice(l0, l.tables, blockManager.ledger.tables);
    }

    /** The ledger and the free GPU blocks, as a value. */
    ghost function TheMemory(): Memory
      reads blockManager`ledger, blockManager.gpu`freeBlocks
    {
      Memory(blockManager.ledger, blockManager.gpu.freeBlocks)
    }

    /** Every entry is in order with respect to the current block tables. */
    ghost predicate InOrder(entries: multiset<Entry>)
      reads this`owner, blockManager
    {
      EntriesOk(entries, blockManager.blockTables, blockManager.gpu.blocks, blockManager.cpu.blocks, blockManager.blockSize, owner)
    }

    /** Between two calls of the scheduler. */
    ghost predicate Valid()
      reads this, blockManager, blockManager.gpu, blockManager.cpu, blockManager.gpu.blocks, blockManager.cpu.blocks
    {
      && ManagerOk() && InOrder(Roster(waiting, running, swapped))
      && SumMax(running) <= maxNumSeqs <= maxNumBatchedTokens
    }

    /** While the model runs `scheduled`: the last groups of the running queue, after the ones that stand by. */
    ghost predicate Launched(idle: seq<SequenceGroup>, scheduled: seq<ScheduledGroup>)
      reads this, blockManager, blockManager.gpu, blockManager.cpu, blockManager.gpu.blocks, blockManager.cpu.blocks
    {
      && ManagerOk() && InOrder(Executing(waiting, idle, scheduled, swapped))
      && running == idle + Groups(scheduled)
      && SumMax(running) <= maxNumSeqs <= maxNumBatchedTokens
    }

    ghost function State(): Queues
      reads this
    {
      Queues(waiting, running, swapped)
    }

    /** `left` is still queued in `place`, `scheduled` already runs in this step, `requests` are all requests. */
    ghost predicate Underway(rest: multiset<Entry>, left: seq<SequenceGroup>, place: Place, scheduled: seq<ScheduledGroup>,
                             requests: set<int>)
      reads this`owner, blockManager, blockManager.gpu, blockManager.cpu, blockManager.gpu.blocks, blockManager.cpu.blocks
    {
      && ManagerOk() && InOrder(rest + Tagged(left, place) + InThisStep(scheduled))
      && Requests(rest + Tagged(left, place) + InThisStep(scheduled)) == requests
    }

    /** `append_slots` for one member that has all slots but that of its newest token. */
    method AppendSlot(s: Sequence) returns (cows: map<int, seq<int>>)
      requires ManagerOk() && s.tokens != [] && s.id in owner
      requires Housed(s, blockManager.blockTables, blockManager.gpu.blocks, blockManager.blockSize)
      requires blockManager.gpu.freeBlocks != []
      modifies blockManager`blockTables, blockManager`ledger, blockManager.gpu, blockManager.gpu.blocks
      ensures ManagerOk() && s.id in blockManager.blockTables
      ensures blockManager.blockTables == old(blockManager.blockTables)[s.id := blockManager.blockTables[s.id]]
      ensures LiesIn(blockManager.blockTables[s.id], blockManager.gpu.blocks)
      ensures |blockManager.blockTables[s.id]| == NumBlocks(|s.tokens|, blockManager.blockSize)
      ensures |blockManager.gpu.freeBlocks| >= |old(blockManager.gpu.freeBlocks)| - 1
      ensures TheMemory() == Slot(old(TheMemory()), s, blockManager.blockSize)
      ensures cows == CopyOf(old(blockManager.blockTables)[s.id], blockManager.blockTables[s.id])
      ensures OnceHeld(old(blockManager.blockTables)[s.id], old(blockManager.ledger)) ==>
        old(blockManager.blockTables)[s.id] <= blockManager.blockTables[s.id]
    {
      hide Covered, Slack, Holders, WellFormed, TableOk, Recounted, UncachedBlockAllocator.Numbered, Unshared, Renewed;
      ghost var l, n := blockManager.ledger, NumBlocks(|s.tokens|, blockManager.blockSize);
      ghost var free := blockManager.gpu.freeBlocks;
      var r := blockManager.AppendSlots(s);
      assert n >= 1;
      assert r.Ok?;
      cows := r.value;
      if NeedsBlock(l, s.id, n) {
        assert blockManager.ledger.tables == l.tables[s.id := AppendedTable(l, s.id, n, Last(free))];
        assert Last(free) in free;
        FreeBlockHasNoHolder(l, Last(free));
        AppendRenews(l, s.id, n, Last(free));
        UnsharedStep({s.id}, owner[s.id], l.tables, blockManager.ledger.tables, owner);
        if OnceHeld(l.tables[s.id], l) {
          AppendExtends(l, s.id, n, Last(free));
        }
      }
    }

    /** `_append_slots` (964-987): each live member has a slot for its newest token, and the dictionary of copies
        has grown by the shared last blocks that were replaced. */
    method AppendSlots(g: SequenceGroup, blocksToCopy: map<int, seq<int>>) returns (r: map<int, seq<int>>)
      requires ManagerOk() && blockManager.blockSize > 0
      requires RunningOk(g, blockManager.blockTables, blockManager.gpu.blocks, blockManager.blockSize) && Owned(g, owner)
      requires |g.WithStatus(Running)| <= |blockManager.gpu.freeBlocks|
      modifies blockManager`blockTables, blockManager`ledger, blockManager.gpu, blockManager.gpu.blocks
      ensures ManagerOk()
      ensures ScheduledOk(g, 1, blockManager.blockTables, blockManager.gpu.blocks, blockManager.blockSize)
      ensures AgreeOff(g, old(blockManager.blockTables), blockManager.blockTables)
      ensures r == CopiesMade(blocksToCopy, Unfinished(g.seqs), old(blockManager.blockTables), blockManager.blockTables)
      ensures TheMemory() == Slots(old(TheMemory()), Unfinished(g.seqs), blockManager.blockSize)
      ensures |Unfinished(g.seqs)| == 1 && AllOnceHeld(Unfinished(g.seqs), old(blockManager.ledger)) ==>
        Extends(Unfinished(g.seqs), old(blockManager.blockTables), blockManager.blockTables)
      ensures |Unfinished(g.seqs)| == 1 && AllOnceHeld(Unfinished(g.seqs), old(blockManager.ledger)) ==>
        && var s := Unfinished(g.seqs)[0];
        && s.id in old(blockManager.blockTables)
        && |blockManager.gpu.freeBlocks| + NumBlocks(|s.tokens|, blockManager.blockSize)
           == |old(blockManager.gpu.freeBlocks)| + |old(blockManager.blockTables)[s.id]|
    {
      hide ManagerOk, Housed, DistinctIds, CopyOf, OnceHeld, Appending, Merge, CopiesMade, AgreeOff, Owned, Unfinished, NumBlocks;
      hide GrewAlone, AllOnceHeld, Extends, RunningOk, ScheduledOk, SequenceGroup.WithStatus, Slot, Scheduler.TheMemory;
      var live := g.WithStatus(Running);
      ghost var l0 := blockManager.ledger;
      r := blocksToCopy;
      StillRunning(g);
      LedgerTables();
      ghost var before, size := blockManager.blockTables, blockManager.blockSize;
      AloneTakes(g);
      AppendStart(g, before, blockManager.gpu.blocks, size);
      GrewStart(live, l0);
      for i := 0 to |live|
        invariant ManagerOk() && |live| - i <= |blockManager.gpu.freeBlocks|
        invariant Appending(g, i, before, blockManager.blockTables, blockManager.gpu.blocks, size)
        invariant r == CopiesMade(blocksToCopy, live[..i], before, blockManager.blockTables)
        invariant GrewAlone(i, live, l0, blockManager.blockTables, blockManager.ledger)
        invariant TheMemory() == Slots(old(TheMemory()), live[..i], size)
      {
        SlotsNext(old(TheMemory()), live, i, size);
        ghost var now, l := blockManager.blockTables, blockManager.ledger;
        AppendNext(g, i, before, now, blockManager.gpu.blocks, size);
        NextMember(g, i, owner, before, blockManager.gpu.blocks, size);
        var cows := AppendSlot(live[i]);
        AppendStep(g, i, before, now, blockManager.blockTables, blockManager.gpu.blocks, size);
        GrewNext(i, live, l0, now, l, blockManager.blockTables, blockManager.ledger);
        CopiesFrame(blocksToCopy, live[..i], before, now, blockManager.blockTables, live[i].id);
        CopiesNext(blocksToCopy, live, i, before, blockManager.blockTables);
        r := Merge(r, cows);
      }
      assert live[..|live|] == live;
      AppendEnd(g, before, blockManager.blockTables, blockManager.gpu.blocks, size);
      GrewEnd(live, l0, blockManager.blockTables, blockManager.ledger);
      MemoryIs();
    }

    lemma MemoryIs()
      ensures TheMemory() == Memory(blockManager.ledger, blockManager.gpu.freeBlocks)
    {
    }

    /** The slot of a lone member. */
    lemma AloneTakes(g: SequenceGroup)
      requires ManagerOk() && blockManager.blockSize > 0
      requires RunningOk(g, blockManager.blockTables, blockManager.gpu.blocks, blockManager.blockSize)
      requires |g.WithStatus(Running)| <= |blockManager.gpu.freeBlocks|
      ensures |Unfinished(g.seqs)| == 1 && AllOnceHeld(Unfinished(g.seqs), blockManager.ledger) ==>
        && var s := Unfinished(g.seqs)[0];
        && s.id in blockManager.blockTables
        && |Slots(TheMemory(), Unfinished(g.seqs), blockManager.blockSize).free| + NumBlocks(|s.tokens|, blockManager.blockSize)
           == |blockManager.gpu.freeBlocks| + |blockManager.blockTables[s.id]|
    {
      hide ManagerOk, Slots, OnceHeld, NumBlocks, RunningOk, SequenceGroup.WithStatus;
      LedgerTables();
      StillRunning(g);
      if |Unfinished(g.seqs)| == 1 && AllOnceHeld(Unfinished(g.seqs), blockManager.ledger) {
        var s := Unfinished(g.seqs)[0];
        AppendStart(g, blockManager.blockTables, blockManager.gpu.blocks, blockManager.blockSize);
        AppendNext(g, 0, blockManager.blockTables, blockManager.blockTables, blockManager.gpu.blocks, blockManager.blockSize);
        assert s in Unfinished(g.seqs) && Unfinished(g.seqs) == [s];
        SlotAlone(TheMemory(), s, blockManager.blockSize);
      }
    }

    /** `_swap_out` (1047-1061); the error is the RuntimeError for lack of CPU swap space. */
    method SwapOut(g: SequenceGroup, blocksToSwapOut: map<int, int>)
      returns (r: Result<SequenceGroup>, swaps: map<int, int>, ghost moved: map<PhysicalTokenBlock, PhysicalTokenBlock>)
      requires ManagerOk() && Owned(g, owner)
      requires RunningOk(g, blockManager.blockTables, blockManager.gpu.blocks, blockManager.blockSize)
      modifies blockManager`blockTables, blockManager`ledger, blockManager.gpu, blockManager.gpu.blocks
      modifies blockManager.cpu, blockManager.cpu.blocks
      ensures ManagerOk()
      ensures r.Ok? <==> Held(old(blockManager.blockTables), g) <= |old(blockManager.cpu.freeBlocks)|
      ensures r.Err? ==> r.error == NoSwapSpace
      ensures r.Ok? ==>
        && r.value == Restated(g, Running, Status.Swapped)
        && SwappedOk(r.value, blockManager.blockTables, blockManager.cpu.blocks, blockManager.blockSize)
        && AgreeOff(g, old(blockManager.blockTables), blockManager.blockTables)
        && MovedTables(old(blockManager.ledger), blockManager.ledger, Ids(Unfinished(g.seqs)), moved,
                       blockManager.gpu.blocks, blockManager.cpu.blocks)
        && Moves(moved, blockManager.gpu.blocks, blockManager.cpu.blocks)
        && swaps == blocksToSwapOut + blockManager.BlockNumbers(blockManager.gpu, blockManager.cpu, moved)
        && |blockManager.cpu.freeBlocks| == |old(blockManager.cpu.freeBlocks)| - Held(old(blockManager.blockTables), g)
    {
      hide Housed, LiesIn, UncachedBlockAllocator.Valid, UncachedBlockAllocator.Numbered, DistinctIds, BlocksOf, MovedTables, AllOn;
      hide Covered, WellFormed, Decoding, AllLive, AgreeOff, Unshared, Owned;
      ghost var before, size := blockManager.ledger, blockManager.blockSize;
      ResidentAllOn(g, Running, blockManager.blockTables, blockManager.gpu.blocks, size);
      var can := blockManager.CanSwapOut(g);
      assert can.Ok?;
      moved, swaps := map[], blocksToSwapOut;
      if !can.value {
        r := Err(NoSwapSpace);
        return;
      }
      var mapping;
      mapping, moved := blockManager.SwapOut(g);
      assert mapping.Ok?;
      MovedSize(before, blockManager.ledger, Ids(g.WithStatus(Running)), moved, blockManager.gpu.blocks, blockManager.cpu.blocks);
      SwapTargets(before, blockManager.ledger, Ids(g.WithStatus(Running)), moved, blockManager.gpu.blocks, blockManager.cpu.blocks);
      MovedGroup(g, Running, Status.Swapped, before, blockManager.ledger, moved, blockManager.gpu.blocks, blockManager.cpu.blocks, size);
      MovedUnshared(g, Running, before, blockManager.ledger, moved, blockManager.gpu.blocks, blockManager.cpu.blocks, owner);
      swaps := swaps + mapping.value;
      r := Ok(Restated(g, Running, Status.Swapped));
    }

    /** `_swap_in` (1037-1045). */
    method SwapIn(g: SequenceGroup, blocksToSwapIn: map<int, int>)
      returns (g': SequenceGroup, swaps: map<int, int>, ghost moved: map<PhysicalTokenBlock, PhysicalTokenBlock>)
      requires ManagerOk() && Owned(g, owner)
      requires SwappedOk(g, blockManager.blockTables, blockManager.cpu.blocks, blockManager.blockSize)
      requires Held(blockManager.blockTables, g) + |Unfinished(g.seqs)| <= |blockManager.gpu.freeBlocks|
      modifies blockManager`blockTables, blockManager`ledger, blockManager.gpu, blockManager.gpu.blocks
      modifies blockManager.cpu, blockManager.cpu.blocks
      ensures ManagerOk()
      ensures g' == Restated(g, Status.Swapped, Running)
      ensures |blockManager.gpu.freeBlocks| == |old(blockManager.gpu.freeBlocks)| - Held(old(blockManager.blockTables), g)
      ensures RunningOk(g', blockManager.blockTables, blockManager.gpu.blocks, blockManager.blockSize)
      ensures AgreeOff(g, old(blockManager.blockTables), blockManager.blockTables)
      ensures MovedTables(old(blockManager.ledger), blockManager.ledger, Ids(Unfinished(g.seqs)), moved,
                          blockManager.cpu.blocks, blockManager.gpu.blocks)
      ensures Moves(moved, blockManager.cpu.blocks, blockManager.gpu.blocks)
      ensures swaps == blocksToSwapIn + blockManager.BlockNumbers(blockManager.cpu, blockManager.gpu, moved)
    {
      hide Housed, LiesIn, UncachedBlockAllocator.Valid, UncachedBlockAllocator.Numbered, DistinctIds, BlocksOf, MovedTables, AllOn;
      hide Covered, WellFormed, Decoding, AllLive, AgreeOff, Unshared, Owned;
      ghost var before, size := blockManager.ledger, blockManager.blockSize;
      ghost var ids := Ids(g.WithStatus(Status.Swapped));
      ResidentAllOn(g, Status.Swapped, blockManager.blockTables, blockManager.cpu.blocks, size);
      var mapping;
      mapping, moved := blockManager.SwapIn(g);
      assert mapping.Ok?;
      MovedSize(before, blockManager.ledger, ids, moved, blockManager.cpu.blocks, blockManager.gpu.blocks);
      SwapTargets(before, blockManager.ledger, ids, moved, blockManager.cpu.blocks, blockManager.gpu.blocks);
      MovedGroup(g, Status.Swapped, Running, before, blockManager.ledger, moved, blockManager.cpu.blocks, blockManager.gpu.blocks, size);
      MovedUnshared(g, Status.Swapped, before, blockManager.ledger, moved, blockManager.cpu.blocks, blockManager.gpu.blocks, owner);
      g', swaps := Restated(g, Status.Swapped, Running), blocksToSwapIn + mapping.value;
    }

    /** `_preempt` (989-1017). */
    method Preempt(g: SequenceGroup, blocksToSwapOut: map<int, int>)
      returns (r: Result<PreemptionMode>, g': SequenceGroup, swaps: map<int, int>, ghost moves: map<int, int>)
      requires ManagerOk() && Owned(g, owner)
      requires RunningOk(g, blockManager.blockTables, blockManager.gpu.blocks, blockManager.blockSize)
      modifies blockManager`blockTables, blockManager`ledger, blockManager.gpu, blockManager.gpu.blocks
      modifies blockManager.cpu, blockManager.cpu.blocks
      ensures ManagerOk()
      ensures r.Ok? <==> SwapCost(old(blockManager.blockTables), g) <= |old(blockManager.cpu.freeBlocks)|
      ensures r.Err? ==> r.error == NoSwapSpace
      ensures r.Ok? ==>
        && |blockManager.cpu.freeBlocks| == |old(blockManager.cpu.freeBlocks)| - SwapCost(old(blockManager.blockTables), g)
        && Since(old(blockManager.ledger)) && TakesFree(old(blockManager.ledger), blockManager.ledger)
        && AgreeOff(g, old(blockManager.blockTables), blockManager.blockTables)
        && (if g.MaxNumRunningSeqs() == 1 then
              && r.value == RecomputeMode && g' == Preempted(g) && WaitingOk(g', blockManager.blockTables)
              && moves == map[] && swaps == blocksToSwapOut
            else
              && r.value == SwapMode && g' == Restated(g, Running, Status.Swapped) && swaps == blocksToSwapOut + moves
              && Relocated(moves, Unfinished(g.seqs), old(blockManager.blockTables), blockManager.blockTables, blockManager.cpu.blocks)
              && SwappedOk(g', blockManager.blockTables, blockManager.cpu.blocks, blockManager.blockSize))
    {
      hide Housed, LiesIn, BlockSpaceManager.Valid, DistinctIds, BlocksOf, Decoding, Recounted, Covered, Unshared, Owned;
      hide Relocated, MovedTables, Held, TakesFree, Since, WaitingOk, SwappedOk, RunningOk;
      hide AgreeOff, Preempted, Restated, Scheduler.ManagerOk;
      if g.MaxNumRunningSeqs() == 1 {
        g' := PreemptByRecompute(g);
        r, swaps, moves := Ok(RecomputeMode), blocksToSwapOut, map[];
      } else {
        var swap;
        swap, swaps, moves := PreemptBySwap(g, blocksToSwapOut);
        r, g' := if swap.Ok? then Ok(SwapMode) else Err(swap.error), if swap.Ok? then swap.value else g;
      }
    }

    /** `_preempt_by_recompute` (1019-1029). */
    method PreemptByRecompute(g: SequenceGroup) returns (g': SequenceGroup)
      requires ManagerOk() && Owned(g, owner) && g.MaxNumRunningSeqs() == 1
      requires RunningOk(g, blockManager.blockTables, blockManager.gpu.blocks, blockManager.blockSize)
      modifies blockManager`blockTables, blockManager`ledger, blockManager.gpu, blockManager.gpu.blocks
      modifies blockManager.cpu, blockManager.cpu.blocks
      ensures ManagerOk() && g' == Preempted(g) && WaitingOk(g', blockManager.blockTables)
      ensures blockManager.cpu.freeBlocks == old(blockManager.cpu.freeBlocks)
      ensures Since(old(blockManager.ledger)) && TakesFree(old(blockManager.ledger), blockManager.ledger)
      ensures AgreeOff(g, old(blockManager.blockTables), blockManager.blockTables)
    {
      hide Housed, LiesIn, BlockSpaceManager.Valid, DistinctIds, BlocksOf, Decoding, Recounted, Covered, Unshared, Owned;
      hide TakesFree, Since, WaitingOk;
      LedgerTables();
      ghost var before := blockManager.blockTables;
      RecomputeIsSingle(g);
      var seqs := g.WithStatus(Running);
      assert |seqs| == 1;
      OnGpu(g);
      FreeMember(seqs[0]);
      TablesTold(old(blockManager.ledger), before, seqs[0].id);
      PreemptedIsWaiting(g, before, blockManager.blockTables, blockManager.gpu.blocks, blockManager.blockSize);
      assert AgreeOff(g, before, blockManager.blockTables) by {
        UnfinishedIsSubsequence(g.seqs);
        assert seqs[0] in seqs;
      }
      g' := Preempted(g);
    }

    /** `_preempt_by_swap` (1031-1036). */
    method PreemptBySwap(g: SequenceGroup, blocksToSwapOut: map<int, int>)
      returns (r: Result<SequenceGroup>, swaps: map<int, int>, ghost moves: map<int, int>)
      requires ManagerOk() && Owned(g, owner)
      requires RunningOk(g, blockManager.blockTables, blockManager.gpu.blocks, blockManager.blockSize)
      modifies blockManager`blockTables, blockManager`ledger, blockManager.gpu, blockManager.gpu.blocks
      modifies blockManager.cpu, blockManager.cpu.blocks
      ensures ManagerOk()
      ensures r.Ok? <==> Held(old(blockManager.blockTables), g) <= |old(blockManager.cpu.freeBlocks)|
      ensures r.Err? ==> r.error == NoSwapSpace
      ensures r.Ok? ==>
        && |blockManager.cpu.freeBlocks| == |old(blockManager.cpu.freeBlocks)| - Held(old(blockManager.blockTables), g)
        && Since(old(blockManager.ledger)) && TakesFree(old(blockManager.ledger), blockManager.ledger)
        && AgreeOff(g, old(blockManager.blockTables), blockManager.blockTables)
        && r.value == Restated(g, Running, Status.Swapped) && swaps == blocksToSwapOut + moves
        && Relocated(moves, Unfinished(g.seqs), old(blockManager.blockTables), blockManager.blockTables, blockManager.cpu.blocks)
        && SwappedOk(r.value, blockManager.blockTables, blockManager.cpu.blocks, blockManager.blockSize)
    {
      hide Housed, LiesIn, BlockSpaceManager.Valid, DistinctIds, BlocksOf, Decoding, Recounted, Covered, Unshared, Owned;
      hide Relocated, MovedTables, Held, TakesFree, Since, SwappedOk, AgreeOff;
      LedgerTables();
      AllResident(g);
      ghost var moved;
      r, swaps, moved := SwapOut(g, blocksToSwapOut);
      moves := map[];
      if r.Err? {
        return;
      }
      MovedSince(old(blockManager.ledger), Ids(Unfinished(g.seqs)), moved, blockManager.gpu.blocks, blockManager.cpu.blocks);
      SwapTakesFree(old(blockManager.ledger), blockManager.ledger, Ids(Unfinished(g.seqs)), moved,
                    blockManager.gpu.blocks, blockManager.cpu.blocks);
      moves := blockManager.BlockNumbers(blockManager.gpu, blockManager.cpu, moved);
      RelocatedBy(moves, Unfinished(g.seqs), old(blockManager.ledger), blockManager.ledger, moved,
                  blockManager.gpu.blocks, blockManager.cpu.blocks);
      LedgerTables();
    }

    lemma TablesTold(l: Ledger<PhysicalTokenBlock>, before: map<int, BlockTable>, id: int)
      requires ManagerOk() && l.tables == before && blockManager.blockTables == before - {id}
      ensures TakesFree(l, blockManager.ledger)
    {
    }

    lemma MovedSince(l: Ledger<PhysicalTokenBlock>, ids: seq<int>, moved: map<PhysicalTokenBlock, PhysicalTokenBlock>,
                     src: set<PhysicalTokenBlock>, dst: set<PhysicalTokenBlock>)
      requires Covered(l) && MovedTables(l, blockManager.ledger, ids, moved, src, dst)
      ensures Since(l)
    {
    }

    lemma OnGpu(g: SequenceGroup)
      requires ManagerOk() && RunningOk(g, blockManager.blockTables, blockManager.gpu.blocks, blockManager.blockSize)
      requires |g.WithStatus(Running)| == 1
      ensures var id := g.WithStatus(Running)[0].id;
        id in blockManager.blockTables && LiesIn(blockManager.blockTables[id], blockManager.gpu.blocks)
    {
      var s := g.WithStatus(Running)[0];
      SelectIsSubsequence(g.seqs, Running);
      assert s in g.WithStatus(Running);
      assert Housed(s, blockManager.blockTables, blockManager.gpu.blocks, blockManager.blockSize);
    }

    lemma LedgerTables()
      requires ManagerOk()
      ensures Covered(blockManager.ledger) && blockManager.ledger.tables == blockManager.blockTables
      ensures blockManager.gpu.Numbered() && blockManager.cpu.Numbered()
    {
    }

    lemma AllResident(g: SequenceGroup)
      requires ManagerOk() && RunningOk(g, blockManager.blockTables, blockManager.gpu.blocks, blockManager.blockSize)
      ensures AllOn(blockManager.blockTables, Ids(Unfinished(g.seqs)), blockManager.gpu.blocks)
      ensures Covered(blockManager.ledger) && blockManager.ledger.tables == blockManager.blockTables
    {
      ResidentAllOn(g, Running, blockManager.blockTables, blockManager.gpu.blocks, blockManager.blockSize);
    }

    lemma FreeSince(id: int)
      requires ManagerOk()
      ensures Covered(blockManager.ledger) && blockManager.ledger == Recounted(blockManager.ledger, blockManager.ledger.tables)
      ensures id !in blockManager.blockTables ==> blockManager.blockTables - {id} == blockManager.blockTables
    {
      RecountNothing(blockManager.ledger);
    }

    /** `free_seq` (951-953). */
    method FreeMember(s: Sequence)
      requires ManagerOk()
      modifies blockManager`blockTables, blockManager`ledger, blockManager.gpu, blockManager.gpu.blocks
      modifies blockManager.cpu, blockManager.cpu.blocks
      ensures ManagerOk()
      ensures Since(old(blockManager.ledger)) && blockManager.blockTables == old(blockManager.blockTables) - {s.id}
      ensures s.id in old(blockManager.blockTables) && LiesIn(old(blockManager.blockTables)[s.id], blockManager.gpu.blocks) ==>
        blockManager.cpu.freeBlocks == old(blockManager.cpu.freeBlocks)
    {
      hide Covered, Slack, Recounted, UncachedBlockAllocator.Valid, UncachedBlockAllocator.Numbered, Unshared;
      FreeSince(s.id);
      blockManager.Free(s.id);
      UnsharedLess(old(blockManager.blockTables), blockManager.blockTables, owner);
    }

    // ---- the running queue -------------------------------------------------------------------------------------

    /** `can_append_slots` (block_manager_v1.py:297-307): a free block for each running member. */
    predicate CanAppendSlots(g: SequenceGroup)
      reads blockManager.gpu
    {
      |g.WithStatus(Running)| <= |blockManager.gpu.freeBlocks|
    }

    /** One preemption of `_schedule_running` (409-427). */
    method PreemptVictim(v: SequenceGroup, out: RunningOutputs, ghost entries: multiset<Entry>)
      returns (r: Result<RunningOutputs>, ghost moves: map<int, int>)
      requires ManagerOk() && InOrder(entries) && Entry(v, InRunning) in entries
      modifies blockManager`blockTables, blockManager`ledger, blockManager.gpu, blockManager.gpu.blocks
      modifies blockManager.cpu, blockManager.cpu.blocks
      ensures r.Ok? <==> SwapCost(old(blockManager.blockTables), v) <= |old(blockManager.cpu.freeBlocks)|
      ensures r.Err? ==> r.error == NoSwapSpace
      ensures r.Ok? ==>
        && |blockManager.cpu.freeBlocks| == |old(blockManager.cpu.freeBlocks)| - SwapCost(old(blockManager.blockTables), v)
        && Since(old(blockManager.ledger)) && TakesFree(old(blockManager.ledger), blockManager.ledger)
        && |blockManager.gpu.freeBlocks| == |old(blockManager.gpu.freeBlocks)| + |Given(old(blockManager.ledger), v)|
        && ManagerOk() && InOrder(entries - multiset{Entry(v, InRunning)} + multiset{Evicted(v)})
        && Requests(entries - multiset{Entry(v, InRunning)} + multiset{Evicted(v)}) == Requests(entries)
        && r.value == WithVictim(out, v, moves) && Departed(v, moves, old(blockManager.blockTables))
    {
      hide ManagerOk, RunningOk, SwappedOk, WaitingOk, Owned, AgreeOff, Relocated, SwapCost, Since, Given, Unshared, NumberedOn;
      hide FreeOn, TakesFree;
      ghost var before, l := blockManager.blockTables, blockManager.ledger;
      FreeCounted();
      TablesApart();
      assert EntryOk(Entry(v, InRunning), before, blockManager.gpu.blocks, blockManager.cpu.blocks, blockManager.blockSize, owner);
      var mode, v', swaps;
      mode, v', swaps, moves := Preempt(v, out.blocksToSwapOut);
      if mode.Err? {
        return Err(mode.error), moves;
      }
      OwnedStill(v, v', owner);
      GivesUpBlocks(l, v, Evicted(v), entries);
      MoveKeeps(entries, Entry(v, InRunning), Evicted(v), before, blockManager.blockTables,
                blockManager.gpu.blocks, blockManager.cpu.blocks, blockManager.blockSize, owner);
      if mode.value == RecomputeMode {
        return Ok(out.(preempted := out.preempted + [v'])), moves;
      }
      return Ok(out.(swappedOut := out.swappedOut + [v'], blocksToSwapOut := swaps)), moves;
    }

    lemma FreeCounted()
      requires ManagerOk()
      ensures |blockManager.gpu.freeBlocks| == |FreeOn(blockManager.ledger, blockManager.gpu.blocks)|
      ensures Covered(blockManager.ledger) && blockManager.ledger.tables == blockManager.blockTables
    {
      hide Covered, WellFormed, Unshared;
      DistinctSize(blockManager.gpu.freeBlocks);
      assert Elements(blockManager.gpu.freeBlocks) == FreeOn(blockManager.ledger, blockManager.gpu.blocks);
    }

    lemma GivesUpBlocks(l: Ledger<PhysicalTokenBlock>, v: SequenceGroup, e: Entry, entries: multiset<Entry>)
      requires ManagerOk() && Since(l) && Unshared(l.tables, owner)
      requires EntriesOk(entries, l.tables, blockManager.gpu.blocks, blockManager.cpu.blocks, blockManager.blockSize, owner)
      requires Entry(v, InRunning) in entries && SameRequest(v, e.group) && (e.place.InWaiting? || e.place.InSwapped?)
      requires EntryOk(e, blockManager.blockTables, blockManager.gpu.blocks, blockManager.cpu.blocks, blockManager.blockSize, owner)
      requires AgreeOff(v, l.tables, blockManager.blockTables)
      ensures |blockManager.gpu.freeBlocks| == |FreeOn(l, blockManager.gpu.blocks)| + |Given(l, v)|
    {
      hide EntriesOk, EntryOk, Unshared, AgreeOff, Given, FreeOn;
      FreeCounted();
      VictimGivesUp(l, blockManager.ledger, v, e, entries, owner, blockManager.gpu.blocks, blockManager.cpu.blocks, blockManager.blockSize);
    }

    /** What the preemption of `v` has done to the tables. */
    ghost predicate Departed(v: SequenceGroup, moves: map<int, int>, before: map<int, BlockTable>)
      reads blockManager`blockTables
    {
      && AgreeOff(v, before, blockManager.blockTables)
      && if v.MaxNumRunningSeqs() == 1 then moves == map[]
         else Relocated(moves, Unfinished(v.seqs), before, blockManager.blockTables, blockManager.cpu.blocks)
    }

    /** Half-way through the running queue, `start` being the ledger at the start of the step. */
    ghost predicate Ships(sorted: seq<SequenceGroup>, kept: seq<SequenceGroup>, left: seq<SequenceGroup>,
                          victims: seq<SequenceGroup>, out: RunningOutputs, start: Ledger<PhysicalTokenBlock>)
      reads this`owner, blockManager`ledger
    {
      Onward(sorted, kept, left, victims, out.blocksToSwapOut, out.blocksToCopy, start, blockManager.ledger, owner,
             blockManager.gpu.blocks, blockManager.cpu.blocks)
    }

    lemma ShipsIs(sorted: seq<SequenceGroup>, kept: seq<SequenceGroup>, left: seq<SequenceGroup>, victims: seq<SequenceGroup>,
                  out: RunningOutputs, start: Ledger<PhysicalTokenBlock>)
      requires Ships(sorted, kept, left, victims, out, start)
      ensures Shipped(sorted, kept, left, victims, out.blocksToSwapOut, out.blocksToCopy, start.tables, blockManager.ledger.tables, owner,
                      blockManager.gpu.blocks, blockManager.cpu.blocks)
      ensures Since(start) && start.tables.Keys <= owner.Keys
      ensures WellGrown(kept, start.tables, blockManager.ledger.tables) && InUse(kept + left, start.tables, blockManager.ledger)
    {
      hide Shipped, WellGrown, InUse, Recounted, Covered;
    }

    /** A group that has not had its turn holds, gives up and takes what it would have at the start of the step. */
    lemma StillToCome(g: SequenceGroup, left: seq<SequenceGroup>, out: RunningOutputs, sorted: seq<SequenceGroup>,
                      kept: seq<SequenceGroup>, victims: seq<SequenceGroup>, start: Ledger<PhysicalTokenBlock>, entries: multiset<Entry>)
      requires g in left && Ships(sorted, kept, left, victims, out, start) && ManagerOk() && InOrder(entries)
      ensures SwapCost(blockManager.blockTables, g) == SwapCost(start.tables, g)
      ensures Given(blockManager.ledger, g) == Given(start, g) && blockManager.blockSize > 0
      ensures Takes(blockManager.ledger.tables, blockManager.ledger.refs, Unfinished(g.seqs), blockManager.blockSize)
              == Takes(start.tables, start.refs, Unfinished(g.seqs), blockManager.blockSize)
    {
      hide SwapCost, Takes, Given, Unshared, EntriesOk, NumberedOn, Onward;
      LedgerTables();
      SizeOk();
      TablesApart();
      EntriesHouse(entries, blockManager.blockTables, blockManager.gpu.blocks, blockManager.cpu.blocks, blockManager.blockSize, owner);
      OnwardStill(sorted, kept, left, g, IndexIn(left, g), victims, out.blocksToSwapOut, out.blocksToCopy, start, blockManager.ledger,
                  owner, blockManager.gpu.blocks, blockManager.cpu.blocks, blockManager.blockSize);
    }

    ghost function IndexIn(groups: seq<SequenceGroup>, g: SequenceGroup): (i: nat)
      requires g in groups
      ensures i < |groups| && groups[i] == g
    {
      var i :| 0 <= i < |groups| && groups[i] == g;
      i
    }

    /** The preemption of `v`, the last of the groups of the running queue that have not had their turn. */
    method PreemptInStep(v: SequenceGroup, ghost others: seq<SequenceGroup>, out: RunningOutputs, ghost rest: multiset<Entry>,
                         ghost sorted: seq<SequenceGroup>, ghost kept: seq<SequenceGroup>, ghost victims: seq<SequenceGroup>,
                         ghost start: Ledger<PhysicalTokenBlock>)
      returns (r: Result<RunningOutputs>, ghost moves: map<int, int>)
      requires ManagerOk() && InOrder(Decoded(rest, out.decode, others + [v], out.preempted, out.swappedOut))
      requires Ships(sorted, kept, others + [v], victims, out, start)
      modifies blockManager`blockTables, blockManager`ledger, blockManager.gpu, blockManager.gpu.blocks
      modifies blockManager.cpu, blockManager.cpu.blocks
      ensures r.Ok? <==> SwapCost(start.tables, v) <= |old(blockManager.cpu.freeBlocks)|
      ensures r.Err? ==> r.error == NoSwapSpace
      ensures r.Ok? ==>
        && |blockManager.cpu.freeBlocks| == |old(blockManager.cpu.freeBlocks)| - SwapCost(start.tables, v)
        && |blockManager.gpu.freeBlocks| == |old(blockManager.gpu.freeBlocks)| + |Given(start, v)|
        && ManagerOk() && r.value == WithVictim(out, v, moves)
        && Ships(sorted, kept, others, [v] + victims, r.value, start)
        && InOrder(Decoded(rest, r.value.decode, others, r.value.preempted, r.value.swappedOut))
        && Requests(Decoded(rest, r.value.decode, others, r.value.preempted, r.value.swappedOut))
           == Requests(Decoded(rest, out.decode, others + [v], out.preempted, out.swappedOut))
    {
      hide ManagerOk, Scheduler.InOrder, Requests, Decoded, Ships, Onward, Scheduler.Departed, SwapCost, Given, Takes, TakesFree, Since;
      ghost var l := blockManager.ledger;
      LedgerTables();
      ShipsOnward(sorted, kept, others + [v], victims, out, start);
      StillToCome(v, others + [v], out, sorted, kept, victims, start,
                  Decoded(rest, out.decode, others + [v], out.preempted, out.swappedOut));
      ghost var entries := Decoded(rest, out.decode, others + [v], out.preempted, out.swappedOut);
      DecodedLess(rest, out.decode, others, v, out.preempted, out.swappedOut, Evicted(v));
      r, moves := PreemptVictim(v, out, entries);
      if r.Ok? {
        VictimShips(v, others, out, moves, sorted, kept, victims, start, l);
      }
    }

    lemma ShipsOnward(sorted: seq<SequenceGroup>, kept: seq<SequenceGroup>, left: seq<SequenceGroup>, victims: seq<SequenceGroup>,
                      out: RunningOutputs, start: Ledger<PhysicalTokenBlock>)
      requires Ships(sorted, kept, left, victims, out, start)
      ensures Onward(sorted, kept, left, victims, out.blocksToSwapOut, out.blocksToCopy, start, blockManager.ledger, owner,
                     blockManager.gpu.blocks, blockManager.cpu.blocks)
    {
      hide Onward;
    }

    lemma VictimShips(v: SequenceGroup, others: seq<SequenceGroup>, out: RunningOutputs, moves: map<int, int>,
                      sorted: seq<SequenceGroup>, kept: seq<SequenceGroup>, victims: seq<SequenceGroup>,
                      start: Ledger<PhysicalTokenBlock>, l: Ledger<PhysicalTokenBlock>)
      requires ManagerOk() && Since(l) && TakesFree(l, blockManager.ledger) && Departed(v, moves, l.tables)
      requires Onward(sorted, kept, others + [v], victims, out.blocksToSwapOut, out.blocksToCopy, start, l, owner,
                      blockManager.gpu.blocks, blockManager.cpu.blocks)
      ensures Ships(sorted, kept, others, [v] + victims, WithVictim(out, v, moves), start)
    {
      hide ManagerOk, Onward, AgreeOff, Relocated, TakesFree, Recounted, Covered, WithVictim, SequenceGroup.MaxNumRunningSeqs, Unfinished;
      LedgerTables();
      WithVictimIs(out, v, moves);
      OnwardVictim(sorted, kept, others, v, victims, out.blocksToSwapOut, out.blocksToCopy, moves, start, l, blockManager.ledger,
                   owner, blockManager.gpu.blocks, blockManager.cpu.blocks);
    }

    lemma NoCosts(start: Ledger<PhysicalTokenBlock>)
      ensures SwapCosts(start.tables, []) == 0
    {
    }

    /** One more victim of the group whose turn it is. */
    method PreemptNext(v: SequenceGroup, ghost others: seq<SequenceGroup>, ghost out0: RunningOutputs, out: RunningOutputs,
                       ghost rest: multiset<Entry>, ghost sorted: seq<SequenceGroup>, ghost kept: seq<SequenceGroup>,
                       ghost victims: seq<SequenceGroup>, ghost gone: seq<SequenceGroup>, ghost start: Ledger<PhysicalTokenBlock>)
      returns (r: Result<bool>, out': RunningOutputs)
      requires ManagerOk() && InOrder(Decoded(rest, out.decode, others + [v], out.preempted, out.swappedOut))
      requires Ships(sorted, kept, others + [v], victims + gone, out, start) && HoldsVictims(out0, out, victims)
      modifies blockManager`blockTables, blockManager`ledger, blockManager.gpu, blockManager.gpu.blocks
      modifies blockManager.cpu, blockManager.cpu.blocks
      ensures r.Ok? <==> SwapCost(start.tables, v) <= |old(blockManager.cpu.freeBlocks)|
      ensures SwapCosts(start.tables, [v] + victims) == SwapCost(start.tables, v) + SwapCosts(start.tables, victims)
      ensures r.Err? ==> r.error == NoSwapSpace
      ensures r.Ok? ==>
        && !r.value && |blockManager.cpu.freeBlocks| == |old(blockManager.cpu.freeBlocks)| - SwapCost(start.tables, v)
        && |blockManager.gpu.freeBlocks| == |old(blockManager.gpu.freeBlocks)| + |Given(start, v)|
        && ManagerOk() && HoldsVictims(out0, out', [v] + victims)
        && Ships(sorted, kept, others, [v] + victims + gone, out', start)
        && InOrder(Decoded(rest, out'.decode, others, out'.preempted, out'.swappedOut))
        && Requests(Decoded(rest, out'.decode, others, out'.preempted, out'.swappedOut))
           == Requests(Decoded(rest, out.decode, others + [v], out.preempted, out.swappedOut))
    {
      hide ManagerOk, Scheduler.InOrder, Requests, Decoded, HoldsVictims, Ships, WithVictim, SwapCost, SwapCosts, Given;
      ghost var moves;
      var preempted;
      CostsOne(start.tables, v, victims);
      preempted, moves := PreemptInStep(v, others, out, rest, sorted, kept, victims + gone, start);
      if preempted.Err? {
        return Err(preempted.error), out;
      }
      VictimHeld(out0, out, victims, v, moves);
      assert [v] + (victims + gone) == [v] + victims + gone;
      return Ok(false), preempted.value;
    }

    /** The inner loop of `_schedule_running` (400-427) for the group `g`: while there is no room, the last group of
        the queue is preempted, in the end `g` itself. */
    method MakeRoom(g: SequenceGroup, queue: seq<SequenceGroup>, numRunningTokens: int, budget: SchedulingBudget,
                    out: RunningOutputs, ghost rest: multiset<Entry>, ghost sorted: seq<SequenceGroup>,
                    ghost kept: seq<SequenceGroup>, ghost gone: seq<SequenceGroup>, ghost start: Ledger<PhysicalTokenBlock>)
      returns (r: Result<bool>, left: seq<SequenceGroup>, out': RunningOutputs, ghost victims: seq<SequenceGroup>)
      requires ManagerOk() && InOrder(Decoded(rest, out.decode, [g] + queue, out.preempted, out.swappedOut))
      requires Ships(sorted, kept, [g] + queue, gone, out, start)
      requires g.requestId !in budget.requestIdsNumBatchedTokens
      modifies blockManager`blockTables, blockManager`ledger, blockManager.gpu, blockManager.gpu.blocks
      modifies blockManager.cpu, blockManager.cpu.blocks
      modifies budget`requestIdsNumBatchedTokens, budget`numBatchedTokens, budget`requestIdsNumCurrSeqs, budget`numCurrSeqs
      ensures victims == TurnOf(start, [g] + queue, |old(blockManager.gpu.freeBlocks)|).victims
      ensures r.Ok? <==> SwapCosts(start.tables, victims) <= |old(blockManager.cpu.freeBlocks)|
      ensures victims == [] <==> old(CanAppendSlots(g))
      ensures TakenOff(g, victims != [], old(budget.requestIdsNumCurrSeqs), old(budget.numCurrSeqs),
                       budget.requestIdsNumCurrSeqs, budget.numCurrSeqs)
      ensures r.Err? ==> r.error == NoSwapSpace && victims != []
      ensures r.Ok? ==>
        && r.value == TurnOf(start, [g] + queue, |old(blockManager.gpu.freeBlocks)|).stays
        && |blockManager.gpu.freeBlocks| == |old(blockManager.gpu.freeBlocks)| + GivenUp(start, victims)
        && |blockManager.cpu.freeBlocks| == |old(blockManager.cpu.freeBlocks)| - SwapCosts(start.tables, victims)
        && var room := r.value;
        && ManagerOk() && InOrder(Decoded(rest, out'.decode, (if room then [g] else []) + left, out'.preempted, out'.swappedOut))
        && Requests(Decoded(rest, out'.decode, (if room then [g] else []) + left, out'.preempted, out'.swappedOut))
           == Requests(Decoded(rest, out.decode, [g] + queue, out.preempted, out.swappedOut))
        && HoldsVictims(out, out', victims)
        && Ships(sorted, kept, (if room then [g] else []) + left, victims + gone, out', start)
        && (if room then CanAppendSlots(g) && queue == left + victims else left == [] && victims == [g] + queue)
        && budget.requestIdsNumBatchedTokens == old(budget.requestIdsNumBatchedTokens)
        && budget.numBatchedTokens == old(budget.numBatchedTokens)
        && (victims == [] ==> TheMemory() == old(TheMemory()))
    {
      hide ManagerOk, Scheduler.InOrder, Requests, Decoded, HoldsVictims, Ships, WithVictim, SequenceGroup.MaxNumRunningSeqs;
      hide SwapCosts, SwapCost, Scheduler.TheMemory, CanAppendSlots, Tagged, TakenOff, MakingRoom, TurnOf, Given, GivenUp;
      left, out', victims := queue, out, [];
      ghost var free := |blockManager.gpu.freeBlocks|;
      RoomStarts(start, g, queue, free);
      SpaceTells(start, g, queue);
      NoCosts(start);
      NotTaken(g, budget.requestIdsNumCurrSeqs, budget.numCurrSeqs);
      assert [] + gone == gone;
      NoVictims(out);
      while !CanAppendSlots(g)
        invariant ManagerOk() && InOrder(Decoded(rest, out'.decode, [g] + left, out'.preempted, out'.swappedOut))
        invariant Requests(Decoded(rest, out'.decode, [g] + left, out'.preempted, out'.swappedOut))
                  == Requests(Decoded(rest, out.decode, [g] + queue, out.preempted, out.swappedOut))
        invariant queue == left + victims && HoldsVictims(out, out', victims)
        invariant MakingRoom(start, g, queue, left, victims, free, |blockManager.gpu.freeBlocks|)
        invariant Ships(sorted, kept, [g] + left, victims + gone, out', start)
        invariant budget.requestIdsNumBatchedTokens == old(budget.requestIdsNumBatchedTokens)
        invariant budget.numBatchedTokens == old(budget.numBatchedTokens)
        invariant TakenOff(g, victims != [], old(budget.requestIdsNumCurrSeqs), old(budget.numCurrSeqs),
                           budget.requestIdsNumCurrSeqs, budget.numCurrSeqs)
        invariant victims == [] ==> TheMemory() == old(TheMemory()) && CanAppendSlots(g) == old(CanAppendSlots(g))
        invariant victims != [] ==> !old(CanAppendSlots(g))
        invariant |blockManager.cpu.freeBlocks| == |old(blockManager.cpu.freeBlocks)| - SwapCosts(start.tables, victims)
        decreases |left|
      {
        ghost var ids, seqs := budget.requestIdsNumCurrSeqs, budget.numCurrSeqs;
        budget.SubtractNumBatchedTokens(g.requestId, numRunningTokens);
        budget.SubtractNumSeqs(g.requestId, g.MaxNumRunningSeqs());
        OnceTaken(g, victims != [], old(budget.requestIdsNumCurrSeqs), old(budget.numCurrSeqs), ids, seqs,
                  budget.requestIdsNumCurrSeqs, budget.numCurrSeqs);
        LacksRoom(g);
        ghost var now := |blockManager.gpu.freeBlocks|;
        RoomSought(start, start.tables, g, queue, left, victims, free, now);
        if left != [] {
          var v := left[|left| - 1];
          RoomNext(start, g, queue, left, victims, free, now);
          ghost var others := [g] + left[..|left| - 1];
          assert [g] + left == others + [v];
          r, out' := PreemptNext(v, others, out, out', rest, sorted, kept, victims, gone, start);
          left, victims := left[..|left| - 1], [v] + victims;
          if r.Err? {
            victims := TurnOf(start, [g] + queue, free).victims;
            return;
          }
        } else {
          assert [g] + left == [] + [g];
          RoomLacking(start, g, queue, victims, free, now);
          r, out' := PreemptNext(g, [], out, out', rest, sorted, kept, victims, gone, start);
          victims := [g] + victims;
          assert [] + left == [];
          return;
        }
      }
      LacksRoom(g);
      RoomMade(start, g, queue, left, victims, free, |blockManager.gpu.freeBlocks|);
      r := Ok(true);
    }

    lemma LacksRoom(g: SequenceGroup)
      ensures CanAppendSlots(g) <==> |g.WithStatus(Running)| <= |blockManager.gpu.freeBlocks|
    {
    }

    lemma SpaceTells(start: Ledger<PhysicalTokenBlock>, g: SequenceGroup, queue: seq<SequenceGroup>)
      ensures TurnOf(start, [g] + queue, |blockManager.gpu.freeBlocks|).victims == [] <==> CanAppendSlots(g)
    {
      TurnIsOk(start, [g] + queue, |blockManager.gpu.freeBlocks|);
    }

    /** One group of the running queue that has room gets its slots and joins the decoding groups (428-441). */
    method DecodeGroup(g: SequenceGroup, numRunningTokens: int, budget: SchedulingBudget, out: RunningOutputs,
                       ghost left: seq<SequenceGroup>, ghost rest: multiset<Entry>, ghost sorted: seq<SequenceGroup>,
                       ghost kept: seq<SequenceGroup>, ghost victims: seq<SequenceGroup>, ghost start: Ledger<PhysicalTokenBlock>)
      returns (out': RunningOutputs)
      requires ManagerOk() && InOrder(Decoded(rest, out.decode, [g] + left, out.preempted, out.swappedOut))
      requires Ships(sorted, kept, [g] + left, victims, out, start)
      requires CanAppendSlots(g)
      modifies blockManager`blockTables, blockManager`ledger, blockManager.gpu, blockManager.gpu.blocks
      modifies budget`requestIdsNumBatchedTokens, budget`numBatchedTokens
      ensures ManagerOk() && InOrder(Decoded(rest, out'.decode, left, out'.preempted, out'.swappedOut))
      ensures blockManager.blockSize > 0 && TheMemory() == Slots(old(TheMemory()), Unfinished(g.seqs), blockManager.blockSize)
      ensures Requests(Decoded(rest, out'.decode, left, out'.preempted, out'.swappedOut))
              == Requests(Decoded(rest, out.decode, [g] + left, out.preempted, out.swappedOut))
      ensures out' == out.(decode := out.decode + [ScheduledGroup(g, 1)], blocksToCopy := out'.blocksToCopy)
      ensures Ships(sorted, kept + [g], left, victims, out', start)
      ensures |blockManager.gpu.freeBlocks| == |old(blockManager.gpu.freeBlocks)|
              - Takes(start.tables, start.refs, Unfinished(g.seqs), blockManager.blockSize)
      ensures budget.requestIdsNumBatchedTokens == old(budget.requestIdsNumBatchedTokens) + {g.requestId}
      ensures budget.numBatchedTokens == old(budget.numBatchedTokens)
              + if g.requestId in old(budget.requestIdsNumBatchedTokens) then 0 else numRunningTokens
    {
      hide ManagerOk, Decoded, ScheduledOk, RunningOk, Owned, AgreeOff, EntriesOk, Requests, CopiesMade, Onward, Shaped;
      hide Slots, Scheduler.TheMemory, Takes, Given, Recounted;
      SizeOk();
      ghost var memory, l := TheMemory(), blockManager.ledger;
      MemoryIs();
      LedgerTables();
      ghost var before, entries := blockManager.blockTables, Decoded(rest, out.decode, [g] + left, out.preempted, out.swappedOut);
      DecodedOne(rest, out.decode, g, left, out.preempted, out.swappedOut, 1);
      AboutToRun(entries, g);
      StillToCome(g, [g] + left, out, sorted, kept, victims, start, entries);
      GroupTakes(g);
      var copies := AppendSlots(g, out.blocksToCopy);
      LedgerTables();
      MemoryIs();
      SlotsRecount(memory, Unfinished(g.seqs), blockManager.blockSize);
      assert g.seqs[0].stage.Decode?;  // so the group is not a chunked prefill
      MoveKeeps(entries, Entry(g, InRunning), Entry(g, InStep(1)), before, blockManager.blockTables,
                blockManager.gpu.blocks, blockManager.cpu.blocks, blockManager.blockSize, owner);
      OnwardDecode(sorted, kept, g, left, victims, out.blocksToSwapOut, out.blocksToCopy, start, l, blockManager.ledger,
                   owner, blockManager.gpu.blocks, blockManager.cpu.blocks);
      out' := out.(decode := out.decode + [ScheduledGroup(g, 1)], blocksToCopy := copies);
      budget.AddNumBatchedTokens(g.requestId, numRunningTokens);
    }

    /** What slots for a group will do. */
    lemma GroupTakes(g: SequenceGroup)
      requires ManagerOk() && CanAppendSlots(g)
      requires RunningOk(g, blockManager.blockTables, blockManager.gpu.blocks, blockManager.blockSize)
      ensures var m := Slots(TheMemory(), Unfinished(g.seqs), blockManager.blockSize);
        && |m.free| == |blockManager.gpu.freeBlocks|
                       - Takes(blockManager.ledger.tables, blockManager.ledger.refs, Unfinished(g.seqs), blockManager.blockSize)
        && Shaped(blockManager.ledger, m.ledger, Unfinished(g.seqs))
    {
      hide Covered, WellFormed, Unshared, RunningOk, Takes, Slots, Shaped, SequenceGroup.WithStatus;
      GroupSpare(TheMemory(), g, blockManager.gpu.blocks, blockManager.cpu.blocks, blockManager.blockSize);
      GroupSized(TheMemory(), g, blockManager.gpu.blocks, blockManager.blockSize);
      SlotsTake(TheMemory(), Unfinished(g.seqs), blockManager.gpu.blocks, blockManager.cpu.blocks, blockManager.blockSize);
      SlotsShape(TheMemory(), Unfinished(g.seqs), blockManager.gpu.blocks, blockManager.cpu.blocks, blockManager.blockSize);
    }

    lemma DecodedUnique(rest: multiset<Entry>, out: RunningOutputs, left: seq<SequenceGroup>)
      requires InOrder(Decoded(rest, out.decode, left, out.preempted, out.swappedOut))
      ensures Unique(Decoded(rest, out.decode, left, out.preempted, out.swappedOut))
      ensures InThisStep(out.decode) <= Decoded(rest, out.decode, left, out.preempted, out.swappedOut)
    {
    }

    /** The next group of the running queue decodes, and has not been scheduled before. */
    lemma TurnStarts(out: RunningOutputs, left: seq<SequenceGroup>, rest: multiset<Entry>)
      requires left != [] && ManagerOk() && InOrder(Decoded(rest, out.decode, left, out.preempted, out.swappedOut))
      ensures left == [left[0]] + left[1..]
      ensures NewTokens(left[0].WithStatus(Running)) == |Unfinished(left[0].seqs)| > 0
      ensures left[0].requestId !in RequestIds(Groups(out.decode))
    {
      hide ManagerOk, EntriesOk, RunningOk, Decoded;
      var g, entries := left[0], Decoded(rest, out.decode, left, out.preempted, out.swappedOut);
      assert left == [g] + left[1..];
      DecodedOne(rest, out.decode, g, left[1..], out.preempted, out.swappedOut, 1);
      AboutToRun(entries, g);
      DecodedUnique(rest, out, left);
      forall h | h in Groups(out.decode) ensures h.requestId != g.requestId {
        var i :| 0 <= i < |out.decode| && out.decode[i].group == h;
        NotYetScheduled(entries, out.decode, out.decode[i], Entry(g, InRunning));
      }
    }

    lemma AboutToRun(entries: multiset<Entry>, g: SequenceGroup)
      requires ManagerOk() && InOrder(entries) && Entry(g, InRunning) in entries
      ensures RunningOk(g, blockManager.blockTables, blockManager.gpu.blocks, blockManager.blockSize) && Owned(g, owner)
      ensures g.seqs != [] && g.seqs[0].stage.Decode? && blockManager.blockSize > 0
      ensures NewTokens(g.WithStatus(Running)) == |Unfinished(g.seqs)| > 0
    {
      hide ManagerOk;
      assert EntryOk(Entry(g, InRunning), blockManager.blockTables, blockManager.gpu.blocks, blockManager.cpu.blocks,
                     blockManager.blockSize, owner);
      LiveTokens(g, Running);
    }

    /** Who makes room and who is preempted when these groups run next. */
    ghost function Ahead(queue: seq<SequenceGroup>, now: real): seq<Turn>
      requires blockManager.blockSize > 0
      reads blockManager`ledger, blockManager.gpu`freeBlocks
    {
      TurnsOf(blockManager.ledger, Policy.SortByPriority(now, queue), |blockManager.gpu.freeBlocks|, blockManager.blockSize)
    }

    /** `_schedule_running` (345-463), without chunking: of the running groups in order of arrival, `kept` decode and
        `victims`, the last ones, are preempted, as the state before tells.  The count of running sequences loses the groups
        that had to make room. */
    method ScheduleRunning(queue: seq<SequenceGroup>, budget: SchedulingBudget, now: real, ghost rest: multiset<Entry>)
      returns (r: Result<RunningOutputs>, ghost kept: seq<SequenceGroup>, ghost victims: seq<SequenceGroup>)
      requires ManagerOk() && InOrder(rest + Tagged(queue, InRunning)) && blockManager.blockSize > 0
      requires budget.requestIdsNumBatchedTokens == {} && budget.numBatchedTokens == 0
      modifies blockManager`blockTables, blockManager`ledger, blockManager.gpu, blockManager.gpu.blocks
      modifies blockManager.cpu, blockManager.cpu.blocks
      modifies budget`requestIdsNumBatchedTokens, budget`numBatchedTokens, budget`requestIdsNumCurrSeqs, budget`numCurrSeqs
      ensures kept == Stayed(old(Ahead(queue, now))) && victims == Gone(old(Ahead(queue, now)))
      ensures r.Ok? <==> SwapCosts(old(blockManager.blockTables), victims) <= |old(blockManager.cpu.freeBlocks)|
      ensures victims == [] <==> Roomy(old(TheMemory()), Policy.SortByPriority(now, queue), blockManager.blockSize)
      ensures r.Err? ==> r.error == NoSwapSpace && exists v | v in queue :: v.MaxNumRunningSeqs() != 1
      ensures r.Ok? ==>
        && var out := r.value;
        && ManagerOk() && InOrder(Decoded(rest, out.decode, [], out.preempted, out.swappedOut))
        && Requests(Decoded(rest, out.decode, [], out.preempted, out.swappedOut)) == Requests(rest + Tagged(queue, InRunning))
        && Policy.SortByPriority(now, queue) == kept + victims && Groups(out.decode) == kept
        && (forall s | s in out.decode :: s.chunk == 1)
        && HoldsVictims(EmptyOutputs(out.decode, out.blocksToCopy), out, victims)
        && Ships(kept + victims, kept, [], victims, out, old(blockManager.ledger))
        && (victims == [] ==> TheMemory() == AllSlots(old(TheMemory()), kept, blockManager.blockSize))
        && budget.requestIdsNumBatchedTokens == RequestIds(kept) && budget.numBatchedTokens == SumLive(kept)
        && budget.requestIdsNumCurrSeqs == old(budget.requestIdsNumCurrSeqs) - RequestIds(Pressed(old(Ahead(queue, now))))
        && (RequestIds(queue) <= old(budget.requestIdsNumCurrSeqs) ==>
              budget.numCurrSeqs == old(budget.numCurrSeqs) - SumMax(Pressed(old(Ahead(queue, now)))))
    {
      hide ManagerOk, Scheduler.InOrder, Requests, Decoded, HoldsVictims, Split, Groups, Policy.SortByPriority, Progress, Roomy;
      hide TakenOff, Pressed, SumMax, SwapCosts, AllSlots, Slots, Scheduler.TheMemory, Ships, TurnsOf, TurnOf, Takes, GivenUp;
      hide EmptyOutputs, RequestIds, SumLive, CanAppendSlots, SequenceGroup.MaxNumRunningSeqs, NewTokens, SequenceGroup.WithStatus;
      hide Stayed, Gone, TurnOk;
      var left, out := Policy.SortByPriority(now, queue), RunningOutputs([], [], [], map[], map[]);
      ghost var sorted, turns, size, start := left, [], blockManager.blockSize, blockManager.ledger;
      ghost var s0 := StandsAt(budget);
      kept, victims := [], [];
      MemoryIs();
      LedgerTables();
      DecodedStart(now, queue, rest);
      ShipsStart(now, queue, rest);
      ProgressStarts(s0, sorted, size);
      SortKeepsIds(now, queue);
      TwoDevices();
      while left != []
        invariant ManagerOk() && InOrder(Decoded(rest, out.decode, left, out.preempted, out.swappedOut))
        invariant Requests(Decoded(rest, out.decode, left, out.preempted, out.swappedOut)) == Requests(rest + Tagged(queue, InRunning))
        invariant Split(sorted, kept, left, victims, out) && RequestIds(Groups(out.decode)) == RequestIds(kept)
        invariant Ships(sorted, kept, left, victims, out, start)
        invariant budget.requestIdsNumBatchedTokens == RequestIds(kept) && budget.numBatchedTokens == SumLive(kept)
        invariant Progress(s0, StandsAt(budget), sorted, turns, left, kept, victims, size)
        decreases |left|
      {
        var g, numRunningTokens := left[0], NewTokens(left[0].WithStatus(Running));
        ghost var s, t := StandsAt(budget), TurnOf(start, left, |blockManager.gpu.freeBlocks|);
        MemoryIs();
        TurnIsOk(start, left, |blockManager.gpu.freeBlocks|);
        LeftRequests(now, queue, kept, left, victims, out);
        TurnStarts(out, left, rest);
        assert numRunningTokens != 0;
        ghost var more;
        var made, left', out';
        made, left', out', more := MakeRoom(g, left[1..], numRunningTokens, budget, out, rest, sorted, kept, victims, start);
        if made.Err? {
          r := Err(made.error);
          ProgressStops(s0, s, sorted, turns, left, kept, victims, size);
          CostsSome(start.tables, more);
          FromQueue(now, queue, kept, left, victims, out);
          kept, victims := Stayed(TurnsOf(start, sorted, |s0.memory.free|, size)), Gone(TurnsOf(start, sorted, |s0.memory.free|, size));
          return;
        }
        SplitMore(sorted, kept, left, victims, out, (if made.value then [g] else []) + left', more, out');
        ghost var before := left;
        left, out := left', out';
        if made.value {
          ghost var out0 := out;
          out := DecodeGroup(g, numRunningTokens, budget, out, left, rest, sorted, kept, more + victims, start);
          SplitDecode(sorted, kept, g, left, more + victims, out0, out.blocksToCopy);
        } else {
          assert [] + left == left && kept + [] == kept;
        }
        MemoryIs();
        ProgressNext(s0, s, StandsAt(budget), sorted, turns, before, kept, victims, left, size);
        turns, kept, victims := turns + [t], kept + (if made.value then [g] else []), more + victims;
        SplitGroups(sorted, kept, left, victims, out);
      }
      SplitEnds(sorted, kept, victims, out);
      ProgressEnds(s0, StandsAt(budget), sorted, turns, kept, victims, size);
      r := Ok(out);
    }

    /** Where the loop over the running queue stands. */
    ghost function StandsAt(budget: SchedulingBudget): Standing
      reads blockManager`ledger, blockManager.gpu`freeBlocks, blockManager.cpu`freeBlocks, budget
    {
      Standing(TheMemory(), |blockManager.cpu.freeBlocks|, budget.requestIdsNumCurrSeqs, budget.numCurrSeqs)
    }

    lemma TwoDevices()
      requires ManagerOk()
      ensures blockManager.gpu != blockManager.cpu
    {
    }

    lemma LeftRequests(now: real, queue: seq<SequenceGroup>, kept: seq<SequenceGroup>, left: seq<SequenceGroup>,
                       victims: seq<SequenceGroup>, out: RunningOutputs)
      requires Split(Policy.SortByPriority(now, queue), kept, left, victims, out) && left != []
      ensures left[0].requestId in RequestIds(queue)
      ensures Policy.SortByPriority(now, queue) == kept + left + victims
    {
      FromQueue(now, queue, kept, left, victims, out);
    }

    lemma NonePressed(turns: seq<Turn>)
      ensures Gone(turns) == [] ==> SumMax(Pressed(turns)) == 0 && RequestIds(Pressed(turns)) == {}
    {
      if Gone(turns) == [] {
        NobodyGone(turns);
      }
    }

    lemma ShipsStart(now: real, queue: seq<SequenceGroup>, rest: multiset<Entry>)
      requires ManagerOk() && InOrder(rest + Tagged(queue, InRunning))
      ensures var sorted := Policy.SortByPriority(now, queue);
        Ships(sorted, [], sorted, [], RunningOutputs([], [], [], map[], map[]), blockManager.ledger)
    {
      hide ManagerOk, Policy.SortByPriority, EntriesOk, Onward, Shipped, Unshared, NumberedOn;
      LedgerTables();
      SoundNow();
      EntriesHouse(rest + Tagged(queue, InRunning), blockManager.blockTables, blockManager.gpu.blocks, blockManager.cpu.blocks,
                   blockManager.blockSize, owner);
      ShippedNothing(now, queue, rest);
      OnwardStarts(Policy.SortByPriority(now, queue), blockManager.ledger, owner, blockManager.gpu.blocks, blockManager.cpu.blocks);
    }

    lemma ShippedNothing(now: real, queue: seq<SequenceGroup>, rest: multiset<Entry>)
      requires ManagerOk() && InOrder(rest + Tagged(queue, InRunning))
      ensures var sorted := Policy.SortByPriority(now, queue);
        Shipped(sorted, [], sorted, [], map[], map[], blockManager.blockTables, blockManager.blockTables, owner,
                blockManager.gpu.blocks, blockManager.cpu.blocks)
    {
      hide ManagerOk, RunningOk, Owned, Grounding, Unshared, NumberedOn, DistinctRequests, Policy.SortByPriority, EntriesOk;
      var sorted, tables := Policy.SortByPriority(now, queue), blockManager.blockTables;
      SortKeepsTagged(now, queue, InRunning);
      UniqueEntries(rest + Tagged(queue, InRunning));
      UniqueDistinct(rest, sorted, InRunning);
      TaggedMembers(sorted, InRunning);
      TablesApart();
      forall g | g in sorted ensures Owned(g, owner) && Grounding(g, tables, blockManager.gpu.blocks) {
        assert Entry(g, InRunning) in Tagged(sorted, InRunning);
        AboutToRun(rest + Tagged(queue, InRunning), g);
        RunningGrounds(g, tables, blockManager.gpu.blocks, blockManager.blockSize);
      }
      assert [] + sorted + [] == sorted;
    }

    lemma SoundNow()
      requires ManagerOk()
      ensures Sound(blockManager.ledger, blockManager.gpu.blocks, blockManager.cpu.blocks)
    {
    }

    lemma UniqueEntries(entries: multiset<Entry>)
      requires InOrder(entries)
      ensures Unique(entries)
    {
    }

    lemma TablesApart()
      requires ManagerOk()
      ensures Unshared(blockManager.blockTables, owner)
      ensures NumberedOn(blockManager.gpu.blocks) && NumberedOn(blockManager.cpu.blocks)
    {
    }

    // ---- the swapped queue -------------------------------------------------------------------------------------

    lemma NumbersNow(moved: map<PhysicalTokenBlock, PhysicalTokenBlock>)
      requires blockManager.cpu.Numbered() && Moves(moved, blockManager.cpu.blocks, blockManager.gpu.blocks)
      ensures Numbers(blockManager.BlockNumbers(blockManager.cpu, blockManager.gpu, moved), moved)
    {
    }

    /** `_swap_in` for a group, and what that says of its blocks. */
    method BringIn(g: SequenceGroup, blocksToSwapIn: map<int, int>)
      returns (g': SequenceGroup, swaps: map<int, int>, ghost moves: map<int, int>)
      requires ManagerOk() && Owned(g, owner)
      requires SwappedOk(g, blockManager.blockTables, blockManager.cpu.blocks, blockManager.blockSize)
      requires Held(blockManager.blockTables, g) + |Unfinished(g.seqs)| <= |blockManager.gpu.freeBlocks|
      modifies blockManager`blockTables, blockManager`ledger, blockManager.gpu, blockManager.gpu.blocks
      modifies blockManager.cpu, blockManager.cpu.blocks
      ensures ManagerOk() && blockManager.blockSize > 0 && g' == Restated(g, Status.Swapped, Running) && Owned(g', owner)
      ensures RunningOk(g', blockManager.blockTables, blockManager.gpu.blocks, blockManager.blockSize)
      ensures AgreeOff(g, old(blockManager.blockTables), blockManager.blockTables) && swaps == blocksToSwapIn + moves
      ensures Relocated(moves, Unfinished(g.seqs), old(blockManager.blockTables), blockManager.blockTables, blockManager.gpu.blocks)
      ensures Since(old(blockManager.ledger)) && TakesOn(old(blockManager.ledger), blockManager.ledger, blockManager.gpu.blocks)
      ensures |blockManager.gpu.freeBlocks| == |old(blockManager.gpu.freeBlocks)| - Held(old(blockManager.blockTables), g)
      ensures |Unfinished(g'.seqs)| == |Unfinished(g.seqs)| && g'.WithStatus(Running) == Unfinished(g'.seqs)
      ensures Ids(Unfinished(g'.seqs)) == Ids(Unfinished(g.seqs))
      ensures |Unfinished(g.seqs)| == 1 ==> AllOnceHeld(Unfinished(g'.seqs), blockManager.ledger)
      ensures |Unfinished(g.seqs)| == 1 ==>
        && Unfinished(g'.seqs)[0].id in blockManager.blockTables && Unfinished(g'.seqs)[0].tokens == Unfinished(g.seqs)[0].tokens
        && |blockManager.blockTables[Unfinished(g'.seqs)[0].id]| == Held(old(blockManager.blockTables), g)
    {
      hide *;
      SizeOk();
      ghost var before, l := blockManager.blockTables, blockManager.ledger;
      AllAway(g);
      ghost var moved;
      g', swaps, moved := SwapIn(g, blocksToSwapIn);
      LedgerTables();
      moves := blockManager.BlockNumbers(blockManager.cpu, blockManager.gpu, moved);
      NumbersNow(moved);
      RestatedSame(g, Status.Swapped, Running);
      RelocatedBy(moves, Unfinished(g.seqs), l, blockManager.ledger, moved, blockManager.cpu.blocks, blockManager.gpu.blocks);
      SwapInTakes(l, Ids(Unfinished(g.seqs)), moved);
      OwnedStill(g, g', owner);
      StillRunning(g');
      SameLive(g, l, blockManager.ledger, moved, blockManager.cpu.blocks, blockManager.gpu.blocks);
      if |Unfinished(g.seqs)| == 1 {
        LandedSize(g, moves, before, blockManager.blockTables, blockManager.gpu.blocks, blockManager.cpu.blocks);
      }
    }

    /** `_swap_in` and `_append_slots` for a group (540-541): its tables as they came back, and then with a slot more.  A
        group with one live member shares no block, so nothing is copied. */
    method FetchGroup(g: SequenceGroup, blocksToSwapIn: map<int, int>, blocksToCopy: map<int, seq<int>>)
      returns (g': SequenceGroup, swaps: map<int, int>, copies: map<int, seq<int>>,
               ghost moves: map<int, int>, ghost between: map<int, BlockTable>)
      requires ManagerOk() && Owned(g, owner)
      requires SwappedOk(g, blockManager.blockTables, blockManager.cpu.blocks, blockManager.blockSize)
      requires Held(blockManager.blockTables, g) + |Unfinished(g.seqs)| <= |blockManager.gpu.freeBlocks|
      modifies blockManager`blockTables, blockManager`ledger, blockManager.gpu, blockManager.gpu.blocks
      modifies blockManager.cpu, blockManager.cpu.blocks
      ensures ManagerOk() && g' == Restated(g, Status.Swapped, Running)
      ensures ScheduledOk(g', 1, blockManager.blockTables, blockManager.gpu.blocks, blockManager.blockSize)
      ensures AgreeOff(g, old(blockManager.blockTables), blockManager.blockTables)
      ensures swaps == blocksToSwapIn + moves
      ensures Relocated(moves, Unfinished(g.seqs), old(blockManager.blockTables), between, blockManager.gpu.blocks)
      ensures |Unfinished(g.seqs)| == 1 ==>
        copies == blocksToCopy && Extends(Unfinished(g.seqs), between, blockManager.blockTables)
      ensures blockManager.blockSize > 0
      ensures Since(old(blockManager.ledger)) && TakesOn(old(blockManager.ledger), blockManager.ledger, blockManager.gpu.blocks)
      ensures AllWritable(blockManager.blockTables, Ids(Unfinished(g.seqs)))
      ensures |Unfinished(g.seqs)| == 1 ==>
        |blockManager.gpu.freeBlocks| ==
          |old(blockManager.gpu.freeBlocks)| - NumBlocks(|Unfinished(g.seqs)[0].tokens|, blockManager.blockSize)
    {
      hide ManagerOk, ScheduledOk, RunningOk, SwappedOk, Owned, CopiesMade, Held, Unfinished, Slots, NumBlocks;
      hide Relocated, Covered, Extends, AgreeOff, AllOnceHeld, Scheduler.TheMemory, TakesOn, Shaped, Takes, Recounted, AllWritable;
      ghost var before, l := blockManager.blockTables, blockManager.ledger;
      g', swaps, moves := BringIn(g, blocksToSwapIn);
      between := blockManager.blockTables;
      LedgerTables();
      MemoryIs();
      ghost var memory := TheMemory();
      GroupTakes(g');
      copies := AppendSlots(g', blocksToCopy);
      LedgerTables();
      MemoryIs();
      SlotsSince(l, memory, g');
      ShapedWritable(memory.ledger, blockManager.ledger, Unfinished(g'.seqs));
      if |Unfinished(g.seqs)| == 1 {
        SameExtends(g, between, blockManager.blockTables);
        NoCopy(blocksToCopy, Unfinished(g'.seqs), between, blockManager.blockTables);
      }
      AgreeTwice(g, g', before, between, blockManager.blockTables);
    }

    lemma SwapInTakes(l: Ledger<PhysicalTokenBlock>, ids: seq<int>, moved: map<PhysicalTokenBlock, PhysicalTokenBlock>)
      requires ManagerOk() && Covered(l) && AllOn(l.tables, ids, blockManager.cpu.blocks)
      requires MovedTables(l, blockManager.ledger, ids, moved, blockManager.cpu.blocks, blockManager.gpu.blocks)
      ensures Since(l) && TakesOn(l, blockManager.ledger, blockManager.gpu.blocks)
    {
      hide MovedTables, Covered, AllOn, TakesOn, WellFormed, Unshared;
      SwapTakesFree(l, blockManager.ledger, ids, moved, blockManager.cpu.blocks, blockManager.gpu.blocks);
      MovedSince(l, ids, moved, blockManager.cpu.blocks, blockManager.gpu.blocks);
    }

    /** After a group got its slots. */
    lemma SlotsSince(l: Ledger<PhysicalTokenBlock>, memory: Memory, g: SequenceGroup)
      requires ManagerOk() && blockManager.blockSize > 0
      requires Covered(l) && Covered(memory.ledger) && memory.ledger == Recounted(l, memory.ledger.tables)
      requires TakesOn(l, memory.ledger, blockManager.gpu.blocks)
      requires TheMemory() == Slots(memory, Unfinished(g.seqs), blockManager.blockSize)
      requires Shaped(memory.ledger, blockManager.ledger, Unfinished(g.seqs))
      requires AgreeOff(g, memory.ledger.tables, blockManager.ledger.tables)
      requires ScheduledOk(g, 1, blockManager.blockTables, blockManager.gpu.blocks, blockManager.blockSize)
      ensures Since(l) && TakesOn(l, blockManager.ledger, blockManager.gpu.blocks)
    {
      hide Covered, Slots, TakesOn, Shaped, WellFormed, Unshared, Recounted;
      MemoryIs();
      SlotsRecount(memory, Unfinished(g.seqs), blockManager.blockSize);
      SinceTwice(l, memory.ledger);
      MembersOnGpu(g, blockManager.blockTables, blockManager.gpu.blocks, blockManager.blockSize);
      SlotsTable(memory, Unfinished(g.seqs), blockManager.blockSize);
      ShapedTakesOn(memory.ledger, blockManager.ledger, Unfinished(g.seqs), blockManager.gpu.blocks);
      TakesTwice(l, memory.ledger, blockManager.ledger, blockManager.gpu.blocks);
    }

    lemma AllAway(g: SequenceGroup)
      requires ManagerOk() && SwappedOk(g, blockManager.blockTables, blockManager.cpu.blocks, blockManager.blockSize)
      ensures AllOn(blockManager.blockTables, Ids(Unfinished(g.seqs)), blockManager.cpu.blocks)
      ensures WellFormed(blockManager.blockTables, blockManager.gpu.blocks, blockManager.cpu.blocks)
      ensures Covered(blockManager.ledger) && blockManager.ledger.tables == blockManager.blockTables
    {
      ResidentAllOn(g, Status.Swapped, blockManager.blockTables, blockManager.cpu.blocks, blockManager.blockSize);
    }

    /** A swapped group returns (539-552).  The assertion that its new tokens are one (548) holds exactly for groups
        with one live member. */
    method ReturnGroup(g: SequenceGroup, numNewTokens: int, numNewSeqs: int, budget: SchedulingBudget, out: SwappedInOutputs,
                       ghost entries: multiset<Entry>)
      returns (r: Result<SwappedInOutputs>, ghost moves: map<int, int>, ghost between: map<int, BlockTable>)
      requires ManagerOk() && InOrder(entries) && Entry(g, InSwapped) in entries && numNewTokens == |Unfinished(g.seqs)|
      requires Held(blockManager.blockTables, g) + |Unfinished(g.seqs)| <= |blockManager.gpu.freeBlocks|
      modifies blockManager`blockTables, blockManager`ledger, blockManager.gpu, blockManager.gpu.blocks
      modifies blockManager.cpu, blockManager.cpu.blocks
      modifies budget`requestIdsNumBatchedTokens, budget`numBatchedTokens, budget`requestIdsNumCurrSeqs, budget`numCurrSeqs
      ensures r.Ok? <==> |Unfinished(g.seqs)| == 1
      ensures r.Err? ==> r.error == AssertionError
      ensures r.Ok? ==>
        && var back := Restated(g, Status.Swapped, Running);
        && ManagerOk() && InOrder(entries - multiset{Entry(g, InSwapped)} + multiset{Entry(back, InStep(1))})
        && Requests(entries - multiset{Entry(g, InSwapped)} + multiset{Entry(back, InStep(1))}) == Requests(entries)
        && r.value == SwappedInOutputs(out.decode + [ScheduledGroup(back, 1)], out.blocksToSwapIn + moves, out.blocksToCopy)
        && Came(g, moves, old(blockManager.blockTables), between)
        && Since(old(blockManager.ledger)) && TakesOn(old(blockManager.ledger), blockManager.ledger, blockManager.gpu.blocks)
        && AllWritable(blockManager.blockTables, Ids(Unfinished(g.seqs)))
        && blockManager.blockSize > 0 && |blockManager.gpu.freeBlocks| ==
             |old(blockManager.gpu.freeBlocks)| - NumBlocks(|Unfinished(g.seqs)[0].tokens|, blockManager.blockSize)
        && budget.requestIdsNumBatchedTokens == old(budget.requestIdsNumBatchedTokens) + {g.requestId}
        && budget.requestIdsNumCurrSeqs == old(budget.requestIdsNumCurrSeqs) + {g.requestId}
        && budget.numBatchedTokens == old(budget.numBatchedTokens)
             + (if g.requestId in old(budget.requestIdsNumBatchedTokens) then 0 else numNewTokens)
        && budget.numCurrSeqs == old(budget.numCurrSeqs)
             + (if g.requestId in old(budget.requestIdsNumCurrSeqs) then 0 else numNewSeqs)
    {
      hide ManagerOk, ScheduledOk, SwappedOk, Owned, EntriesOk, Requests, Held, Unfinished, Relocated, Extends, AgreeOff;
      hide NumBlocks, TakesOn, Since, AllWritable;
      ghost var before := blockManager.blockTables;
      ReadyToReturn(entries, g);
      var g', swaps, copies;
      g', swaps, copies, moves, between := FetchGroup(g, out.blocksToSwapIn, out.blocksToCopy);
      OwnedStill(g, g', owner);
      if numNewTokens != 1 {
        return Err(AssertionError), moves, between;
      }
      MoveKeeps(entries, Entry(g, InSwapped), Entry(g', InStep(1)), before, blockManager.blockTables,
                blockManager.gpu.blocks, blockManager.cpu.blocks, blockManager.blockSize, owner);
      budget.AddNumBatchedTokens(g.requestId, numNewTokens);
      budget.AddNumSeqs(g.requestId, numNewSeqs);
      return Ok(SwappedInOutputs(out.decode + [ScheduledGroup(g', 1)], swaps, copies)), moves, between;
    }

    /** What the return of `g` has done to the tables, by way of `between`. */
    ghost predicate Came(g: SequenceGroup, moves: map<int, int>, before: map<int, BlockTable>, between: map<int, BlockTable>)
      reads blockManager`blockTables
    {
      && AgreeOff(g, before, blockManager.blockTables)
      && Relocated(moves, Unfinished(g.seqs), before, between, blockManager.gpu.blocks)
      && Extends(Unfinished(g.seqs), between, blockManager.blockTables)
    }

    lemma StillRunning(g: SequenceGroup)
      requires ManagerOk() && RunningOk(g, blockManager.blockTables, blockManager.gpu.blocks, blockManager.blockSize)
      ensures g.WithStatus(Running) == Unfinished(g.seqs)
    {
      SelectLive(g.seqs, Running);
    }

    lemma ReadyToReturn(entries: multiset<Entry>, g: SequenceGroup)
      requires ManagerOk() && InOrder(entries) && Entry(g, InSwapped) in entries
      ensures SwappedOk(g, blockManager.blockTables, blockManager.cpu.blocks, blockManager.blockSize)
      ensures Owned(g, owner) && blockManager.blockSize > 0
      ensures NewTokens(g.WithStatus(Status.Swapped)) == |Unfinished(g.seqs)| > 0
      ensures g.WithStatus(Status.Swapped) == Unfinished(g.seqs)
      ensures forall i | 0 <= i < |Ids(Unfinished(g.seqs))| :: Ids(Unfinished(g.seqs))[i] in blockManager.blockTables
    {
      assert EntryOk(Entry(g, InSwapped), blockManager.blockTables, blockManager.gpu.blocks, blockManager.cpu.blocks,
                     blockManager.blockSize, owner);
      LiveTokens(g, Status.Swapped);
      ResidentAllOn(g, Status.Swapped, blockManager.blockTables, blockManager.cpu.blocks, blockManager.blockSize);
    }

    /** What is left for groups that return. */
    ghost function RoomNow(budget: SchedulingBudget): Room
      reads blockManager.gpu, budget
    {
      Room(|blockManager.gpu.freeBlocks| - blockManager.watermarkBlocks,
           budget.tokenBudget - budget.numBatchedTokens, budget.maxNumSeqs - budget.numCurrSeqs)
    }

    /** `can_swap_in` and `can_schedule` for a swapped group (508-535). */
    ghost predicate CanReturn(g: SequenceGroup, budget: SchedulingBudget)
      reads blockManager, blockManager.gpu, budget
    {
      && Held(blockManager.blockTables, g) + |g.WithStatus(Status.Swapped)| + blockManager.watermarkBlocks
           <= |blockManager.gpu.freeBlocks|
      && budget.CanSchedule(NewTokens(g.WithStatus(Status.Swapped)), g.MaxNumRunningSeqs())
    }

    /** The two tests of the loop of `_schedule_swapped` (508-535). */
    method CheckReturn(g: SequenceGroup, budget: SchedulingBudget, ghost entries: multiset<Entry>) returns (can: bool)
      requires ManagerOk() && InOrder(entries) && Entry(g, InSwapped) in entries
      ensures ManagerOk() && InOrder(entries) && unchanged(budget) && unchanged(blockManager) && unchanged(blockManager.gpu)
      ensures can <==> CanReturn(g, budget)
    {
      hide ManagerOk, EntriesOk, Requests, BlocksOf, NewTokens, Unfinished, SequenceGroup.WithStatus, SequenceGroup.MaxNumRunningSeqs;
      ReadyToReturn(entries, g);
      var swap := blockManager.CanSwapIn(g);
      assert swap.Ok?;
      if !swap.value {
        return false;
      }
      var numNewTokens := NewTokens(g.WithStatus(Status.Swapped));
      return numNewTokens != 0 && budget.CanSchedule(numNewTokens, g.MaxNumRunningSeqs());
    }

    /** One turn of the loop of `_schedule_swapped` (505-552). */
    method ReturnNext(left: seq<SequenceGroup>, budget: SchedulingBudget, out: SwappedInOutputs,
                      ghost rest: multiset<Entry>, ghost requests: set<int>, ghost sorted: seq<SequenceGroup>, ghost back: nat,
                      ghost start: Ledger<PhysicalTokenBlock>, ghost landed: map<int, BlockTable>)
      returns (r: Result<Verdict>, out': SwappedInOutputs, ghost landed': map<int, BlockTable>)
      requires left != [] && Underway(rest, left, InSwapped, out.decode, requests)
      requires back < |sorted| && left[0] == sorted[back] && Fetches(sorted, back, out, start, landed)
      requires RequestIds(left) !! budget.requestIdsNumBatchedTokens + budget.requestIdsNumCurrSeqs
      modifies blockManager`blockTables, blockManager`ledger, blockManager.gpu, blockManager.gpu.blocks
      modifies blockManager.cpu, blockManager.cpu.blocks
      modifies budget`requestIdsNumBatchedTokens, budget`numBatchedTokens, budget`requestIdsNumCurrSeqs, budget`numCurrSeqs
      ensures blockManager.blockSize > 0 && Unfinished(left[0].seqs) != []
      ensures r.Err? <==> Returnable(left[0], start.tables, old(RoomNow(budget))) && |Unfinished(left[0].seqs)| >= 2
      ensures r.Err? ==> r.error == AssertionError
      ensures r.Ok? ==> !r.value.Ignore? && (r.value.Stop? <==> !Returnable(left[0], start.tables, old(RoomNow(budget))))
      ensures r.Ok? && r.value.Go? ==> RoomNow(budget) == Settled(left[0], old(RoomNow(budget)), blockManager.blockSize)
      ensures r.Ok? && r.value.Stop? ==>
        && out' == out && Underway(rest, left, InSwapped, out.decode, requests) && Fetches(sorted, back, out', start, landed')
        && unchanged(budget) && !Returnable(left[0], blockManager.blockTables, RoomNow(budget))
      ensures r.Ok? && r.value.Go? ==>
        && Fetches(sorted, back + 1, out', start, landed')
        && Underway(rest, left[1..], InSwapped, out'.decode, requests)
        && out'.decode == out.decode + [ScheduledGroup(Restated(left[0], Status.Swapped, Running), 1)]
        && RequestIds(left[1..]) !! budget.requestIdsNumBatchedTokens + budget.requestIdsNumCurrSeqs
        && budget.numCurrSeqs == old(budget.numCurrSeqs) + left[0].MaxNumRunningSeqs()
        && budget.numBatchedTokens == old(budget.numBatchedTokens) + |Unfinished(left[0].seqs)|
        && budget.numCurrSeqs <= budget.maxNumSeqs && budget.numBatchedTokens <= budget.tokenBudget
    {
      hide ManagerOk, EntriesOk, Requests, BlocksOf, RequestIds, NewTokens, SequenceGroup.WithStatus, SequenceGroup.MaxNumRunningSeqs;
      hide Unfinished, Scheduler.InOrder, Inward, TakesOn, AllWritable, CanReturn, Underway, Tagged, InThisStep, Held, Returnable;
      hide NumBlocks;
      hide Scheduler.Fetches, Scheduler.Came, Since;
      var g := left[0];
      landed' := landed;
      ghost var l := blockManager.ledger;
      ghost var entries := rest + Tagged(left, InSwapped) + InThisStep(out.decode);
      UnderwayFacts(rest, left, InSwapped, out.decode, requests);
      LedgerTables();
      FirstScheduled(rest, left, InSwapped, out.decode, ScheduledGroup(Restated(g, Status.Swapped, Running), 1));
      HeadWaits(rest, left, InSwapped, out.decode);
      ReadyToReturn(entries, g);
      out' := out;
      FetchesInward(sorted, back, out, start, landed);
      StillThere(g, budget, sorted, back, out, start, landed);
      var can := CheckReturn(g, budget, entries);
      if !can {
        StaysAway(g, budget);
        UnderwayIs(rest, left, InSwapped, out.decode, requests);
        return Ok(Stop), out, landed;
      }
      RoomToReturn(g, budget);
      ghost var moves, between;
      var returned;
      returned, moves, between :=
        ReturnGroup(g, NewTokens(g.WithStatus(Status.Swapped)), g.MaxNumRunningSeqs(), budget, out, entries);
      if returned.Err? {
        return Err(returned.error), out, landed;
      }
      BackFetched(g, out, returned.value, moves, sorted, back, start, landed, l, between);
      UnderwayIs(rest, left[1..], InSwapped, returned.value.decode, requests);
      assert RoomNow(budget) == Settled(g, old(RoomNow(budget)), blockManager.blockSize);
      return Ok(Go), returned.value, Placed(landed, Unfinished(g.seqs), between);
    }

    lemma FetchesInward(sorted: seq<SequenceGroup>, back: nat, out: SwappedInOutputs, start: Ledger<PhysicalTokenBlock>,
                        landed: map<int, BlockTable>)
      requires Fetches(sorted, back, out, start, landed)
      ensures out.blocksToCopy == map[]
      ensures Inward(sorted, back, out.blocksToSwapIn, start, blockManager.ledger, landed, owner, blockManager.gpu.blocks,
                     blockManager.cpu.blocks)
    {
      hide Inward;
    }

    lemma BackFetched(g: SequenceGroup, out: SwappedInOutputs, out': SwappedInOutputs, moves: map<int, int>,
                      sorted: seq<SequenceGroup>, back: nat, start: Ledger<PhysicalTokenBlock>, landed: map<int, BlockTable>,
                      l: Ledger<PhysicalTokenBlock>, between: map<int, BlockTable>)
      requires ManagerOk() && Since(l) && TakesOn(l, blockManager.ledger, blockManager.gpu.blocks)
      requires Came(g, moves, l.tables, between) && AllWritable(blockManager.blockTables, Ids(Unfinished(g.seqs)))
      requires back < |sorted| && g == sorted[back] && out.blocksToCopy == map[]
      requires Inward(sorted, back, out.blocksToSwapIn, start, l, landed, owner, blockManager.gpu.blocks, blockManager.cpu.blocks)
      requires out'.blocksToSwapIn == out.blocksToSwapIn + moves && out'.blocksToCopy == out.blocksToCopy
      ensures Fetches(sorted, back + 1, out', start, Placed(landed, Unfinished(g.seqs), between))
    {
      hide ManagerOk, Inward, TakesOn, Recounted, Covered, AllWritable, AgreeOff, Relocated, Extends, Placed, Ids, Unfinished;
      LedgerTables();
      InwardMore(sorted, back, out.blocksToSwapIn, moves, start, l, between, blockManager.ledger, landed, owner,
                 blockManager.gpu.blocks, blockManager.cpu.blocks);
    }

    /** The group whose turn it is holds what it held before the swapped queue, and can return if there is room for it. */
    lemma StillThere(g: SequenceGroup, budget: SchedulingBudget, sorted: seq<SequenceGroup>, back: nat, out: SwappedInOutputs,
                     start: Ledger<PhysicalTokenBlock>, landed: map<int, BlockTable>)
      requires back < |sorted| && g == sorted[back] && Fetches(sorted, back, out, start, landed)
      requires blockManager.ledger.tables == blockManager.blockTables
      requires g.WithStatus(Status.Swapped) == Unfinished(g.seqs) && NewTokens(g.WithStatus(Status.Swapped)) == |Unfinished(g.seqs)|
      ensures CanReturn(g, budget) <==> Returnable(g, start.tables, RoomNow(budget))
    {
      hide TakesOn, Recounted, Covered, ReturnedWritable, Untouched, Transit, Extends, Grounding, NewTokens;
      hide SequenceGroup.WithStatus, SequenceGroup.MaxNumRunningSeqs, Held, Unfinished;
      assert sorted == sorted[..back] + [g] + sorted[back + 1..];
      OthersDiffer(sorted[..back], g, sorted[back + 1..]);
      HeldStill(g, RequestIds(sorted[..back]), owner, start.tables, blockManager.blockTables);
    }

    lemma StaysAway(g: SequenceGroup, budget: SchedulingBudget)
      requires g.WithStatus(Status.Swapped) == Unfinished(g.seqs) && NewTokens(g.WithStatus(Status.Swapped)) == |Unfinished(g.seqs)|
      ensures CanReturn(g, budget) <==> Returnable(g, blockManager.blockTables, RoomNow(budget))
    {
    }

    lemma RoomToReturn(g: SequenceGroup, budget: SchedulingBudget)
      requires CanReturn(g, budget) && g.WithStatus(Status.Swapped) == Unfinished(g.seqs)
      ensures Held(blockManager.blockTables, g) + |Unfinished(g.seqs)| <= |blockManager.gpu.freeBlocks|
      ensures budget.CanSchedule(NewTokens(g.WithStatus(Status.Swapped)), g.MaxNumRunningSeqs())
    {
    }

    /** Half-way through the swapped queue, `start` being the ledger before it. */
    ghost predicate Fetches(sorted: seq<SequenceGroup>, back: nat, out: SwappedInOutputs, start: Ledger<PhysicalTokenBlock>,
                            landed: map<int, BlockTable>)
      reads this`owner, blockManager`ledger
    {
      && Inward(sorted, back, out.blocksToSwapIn, start, blockManager.ledger, landed, owner,
                blockManager.gpu.blocks, blockManager.cpu.blocks)
      && out.blocksToCopy == map[]
    }

    lemma FetchesStart(now: real, queue: seq<SequenceGroup>, rest: multiset<Entry>)
      requires ManagerOk() && InOrder(rest + Tagged(queue, InSwapped))
      ensures var sorted := Policy.SortByPriority(now, queue);
        Fetches(sorted, 0, SwappedInOutputs([], map[], map[]), blockManager.ledger, blockManager.blockTables)
    {
      hide Inward, ManagerOk, SwappedOk, Owned, Grounding, Unshared, NumberedOn, DistinctRequests, Policy.SortByPriority;
      hide EntriesOk, Fetched;
      var sorted, tables := Policy.SortByPriority(now, queue), blockManager.blockTables;
      SortKeepsTagged(now, queue, InSwapped);
      UniqueEntries(rest + Tagged(queue, InSwapped));
      UniqueDistinct(rest, sorted, InSwapped);
      TaggedMembers(sorted, InSwapped);
      TablesApart();
      forall g | g in sorted ensures Owned(g, owner) && Grounding(g, tables, blockManager.cpu.blocks) {
        assert Entry(g, InSwapped) in Tagged(sorted, InSwapped);
        ReadyToReturn(rest + Tagged(queue, InSwapped), g);
        SwappedGrounds(g, tables, blockManager.cpu.blocks, blockManager.blockSize);
      }
      FetchStart(sorted, tables, owner, blockManager.gpu.blocks, blockManager.cpu.blocks);
      LedgerTables();
      InwardStarts(sorted, blockManager.ledger, owner, blockManager.gpu.blocks, blockManager.cpu.blocks);
    }

    lemma UnderwayStarts(now: real, queue: seq<SequenceGroup>, rest: multiset<Entry>)
      requires ManagerOk() && InOrder(rest + Tagged(queue, InSwapped))
      ensures Underway(rest, Policy.SortByPriority(now, queue), InSwapped, [], Requests(rest + Tagged(queue, InSwapped)))
    {
      hide ManagerOk, EntriesOk, Requests, Policy.SortByPriority;
      SwappedStart(now, queue, rest);
    }

    /** `_schedule_swapped` (465-562): the first `back` groups in order of arrival return, as many as can. */
    method ScheduleSwapped(queue: seq<SequenceGroup>, budget: SchedulingBudget, now: real, ghost rest: multiset<Entry>)
      returns (r: Result<SwappedInOutputs>, left: seq<SequenceGroup>, ghost back: nat, ghost landed: map<int, BlockTable>)
      requires blockManager.blockSize > 0
      requires ManagerOk() && InOrder(rest + Tagged(queue, InSwapped))
      requires RequestIds(queue) !! budget.requestIdsNumBatchedTokens + budget.requestIdsNumCurrSeqs
      modifies blockManager`blockTables, blockManager`ledger, blockManager.gpu, blockManager.gpu.blocks
      modifies blockManager.cpu, blockManager.cpu.blocks
      modifies budget`requestIdsNumBatchedTokens, budget`numBatchedTokens, budget`requestIdsNumCurrSeqs, budget`numCurrSeqs
      ensures r.Err? <==> Stumbles(Policy.SortByPriority(now, queue), old(blockManager.blockTables), old(RoomNow(budget)),
                                   blockManager.blockSize)
      ensures r.Err? ==> r.error == AssertionError && exists g | g in queue :: |Unfinished(g.seqs)| >= 2
      ensures r.Ok? ==>
        && var out := r.value;
        && BackSoFar(Policy.SortByPriority(now, queue), back, left, out.decode)
        && Underway(rest, left, InSwapped, out.decode, Requests(rest + Tagged(queue, InSwapped)))
        && budget.numCurrSeqs == old(budget.numCurrSeqs) + SumMax(Groups(out.decode))
        && budget.numBatchedTokens == old(budget.numBatchedTokens) + SumLive(Groups(out.decode))
        && (out.decode != [] ==> budget.numCurrSeqs <= budget.maxNumSeqs && budget.numBatchedTokens <= budget.tokenBudget)
        && (out.decode == [] ==> unchanged(budget) && out.blocksToSwapIn == map[])
        && (left != [] ==> !Returnable(left[0], blockManager.blockTables, RoomNow(budget)))
        && Fetches(Policy.SortByPriority(now, queue), back, out, old(blockManager.ledger), landed)
    {
      hide Requests, Groups, RequestIds, Policy.SortByPriority, SumMax, SumLive, Unfinished;
      hide SequenceGroup.MaxNumRunningSeqs, BackSoFar, CanReturn, Fetches, Scheduler.Underway, ManagerOk, Scheduler.InOrder;
      hide Returnable, Settled, Scheduler.RoomNow;
      ghost var start, size := blockManager.ledger, blockManager.blockSize;
      LedgerTables();
      landed := start.tables;
      ghost var sorted, requests := Policy.SortByPriority(now, queue), Requests(rest + Tagged(queue, InSwapped));
      left, back := Policy.SortByPriority(now, queue), 0;
      var out := SwappedInOutputs([], map[], map[]);
      SwappedStart(now, queue, rest);
      FetchesStart(now, queue, rest);
      UnderwayStarts(now, queue, rest);
      while left != []
        invariant BackSoFar(sorted, back, left, out.decode) && Underway(rest, left, InSwapped, out.decode, requests)
        invariant Fetches(sorted, back, out, start, landed)
        invariant RequestIds(left) !! budget.requestIdsNumBatchedTokens + budget.requestIdsNumCurrSeqs
        invariant budget.numCurrSeqs == old(budget.numCurrSeqs) + SumMax(Groups(out.decode))
        invariant budget.numBatchedTokens == old(budget.numBatchedTokens) + SumLive(Groups(out.decode))
        invariant out.decode != [] ==> budget.numCurrSeqs <= budget.maxNumSeqs && budget.numBatchedTokens <= budget.tokenBudget
        invariant out.decode == [] ==> unchanged(budget) && out.blocksToSwapIn == map[]
        invariant Stumbles(sorted, start.tables, old(RoomNow(budget)), size) <==> Stumbles(left, start.tables, RoomNow(budget), size)
        decreases |left|
      {
        ReturnedNext(sorted, back, left, out.decode);
        var turn, out';
        ghost var landed';
        turn, out', landed' := ReturnNext(left, budget, out, rest, requests, sorted, back, start, landed);
        if turn.Err? {
          r := Err(turn.error);
          SortedMember(now, queue, back, left, out.decode);
          return;
        }
        if turn.value.Stop? {
          landed := landed';
          break;
        }
        left, out, back, landed := left[1..], out', back + 1, landed';
      }
      r := Ok(out);
    }

    lemma HeadWaits(rest: multiset<Entry>, queue: seq<SequenceGroup>, place: Place, scheduled: seq<ScheduledGroup>)
      requires queue != [] && InOrder(rest + Tagged(queue, place) + InThisStep(scheduled))
      ensures RequestIds(queue) == {queue[0].requestId} + RequestIds(queue[1..])
      ensures queue[0].requestId !in RequestIds(queue[1..])
    {
      HeadIsOther(rest, queue, place, scheduled);
    }

    // ---- the waiting queue -------------------------------------------------------------------------------------

    function CurrentLimits(): Limits {
      Limits(promptLimit, blockManager.gpu.numBlocks, blockManager.watermarkBlocks, blockManager.blockSize)
    }

    /** A prompt fits now: in memory, and within the budget. */
    ghost predicate CanStart(g: SequenceGroup, budget: SchedulingBudget)
      requires blockManager.blockSize > 0
      reads blockManager.gpu, budget
    {
      && NumBlocks(PromptLength(g), blockManager.blockSize) + blockManager.watermarkBlocks <= |blockManager.gpu.freeBlocks|
      && budget.CanSchedule(PromptLength(g), g.MaxNumRunningSeqs())
    }

    lemma AboutToStart(entries: multiset<Entry>, g: SequenceGroup)
      requires ManagerOk() && InOrder(entries) && Entry(g, InWaiting) in entries
      ensures WaitingOk(g, blockManager.blockTables) && Owned(g, owner) && blockManager.blockSize > 0
      ensures |g.WithStatus(Waiting)| == 1 && NewTokens(g.WithStatus(Waiting)) == PromptLength(g) > 0
      ensures g.WithStatus(Waiting) == Unfinished(g.seqs)
      ensures blockManager.NumPromptBlocks(g) == NumBlocks(PromptLength(g), blockManager.blockSize)
    {
      assert EntryOk(Entry(g, InWaiting), blockManager.blockTables, blockManager.gpu.blocks, blockManager.cpu.blocks,
                     blockManager.blockSize, owner);
      OnePrompt(g, blockManager.blockTables);
      assert g.WithStatus(Waiting)[1..] == [];
    }

    /** The tests of the loop of `_schedule_prefills` (607-660), for a group at the head of the queue. */
    method Consider(g: SequenceGroup, budget: SchedulingBudget, ghost entries: multiset<Entry>) returns (verdict: Verdict)
      requires ManagerOk() && InOrder(entries) && Entry(g, InWaiting) in entries
      ensures ManagerOk() && InOrder(entries) && unchanged(budget) && unchanged(blockManager) && unchanged(blockManager.gpu)
      ensures blockManager.blockSize > 0
      ensures verdict.Ignore? <==> TooLong(CurrentLimits(), g)
      ensures verdict.Go? <==> !TooLong(CurrentLimits(), g) && CanStart(g, budget)
    {
      hide ManagerOk, EntriesOk, WaitingOk, NumBlocks;
      AboutToStart(entries, g);
      var waiting := g.WithStatus(Waiting);
      assert |waiting| == 1;
      var numNewTokens := NewTokens(waiting);
      assert numNewTokens == |waiting[0].tokens|;
      if numNewTokens > promptLimit {
        return Ignore;
      }
      var canAllocate := CheckAllocate(g);
      if canAllocate == Later {
        return Stop;
      } else if canAllocate == Never {
        return Ignore;
      }
      return if numNewTokens == 0 || !budget.CanSchedule(numNewTokens, g.MaxNumRunningSeqs()) then Stop else Go;
    }

    method CheckAllocate(g: SequenceGroup) returns (status: AllocStatus)
      requires ManagerOk() && g.WithStatus(Waiting) != []
      ensures ManagerOk() && unchanged(this) && unchanged(blockManager) && unchanged(blockManager.gpu)
      ensures status.Never? <==> blockManager.gpu.numBlocks < blockManager.NumPromptBlocks(g) + blockManager.watermarkBlocks
      ensures status.CanAllocateNow? ==>
        blockManager.NumPromptBlocks(g) + blockManager.watermarkBlocks <= |blockManager.gpu.freeBlocks|
      ensures status.Later? ==>
        |blockManager.gpu.freeBlocks| < blockManager.NumPromptBlocks(g) + blockManager.watermarkBlocks
    {
      hide UncachedBlockAllocator.Valid, UncachedBlockAllocator.Numbered, Covered, WellFormed;
      status := blockManager.CanAllocate(g);
    }

    /** A prompt starts: `_allocate_and_set_running` (959-962), and its share of the budget (667-671). */
    method StartGroup(g: SequenceGroup, budget: SchedulingBudget, ghost entries: multiset<Entry>) returns (s: ScheduledGroup)
      requires ManagerOk() && InOrder(entries) && Entry(g, InWaiting) in entries
      requires blockManager.blockSize > 0
      requires NumBlocks(PromptLength(g), blockManager.blockSize) <= |blockManager.gpu.freeBlocks|
      modifies blockManager`blockTables, blockManager`ledger, blockManager.gpu, blockManager.gpu.blocks
      modifies budget`requestIdsNumBatchedTokens, budget`numBatchedTokens, budget`requestIdsNumCurrSeqs, budget`numCurrSeqs
      ensures ManagerOk() && s == Start(g)
      ensures Granting(old(blockManager.ledger), blockManager.ledger, [g])
      ensures InOrder(entries - multiset{Entry(g, InWaiting)} + multiset{Entry(s.group, InStep(s.chunk))})
      ensures Requests(entries - multiset{Entry(g, InWaiting)} + multiset{Entry(s.group, InStep(s.chunk))}) == Requests(entries)
      ensures budget.requestIdsNumBatchedTokens == old(budget.requestIdsNumBatchedTokens) + {g.requestId}
      ensures budget.requestIdsNumCurrSeqs == old(budget.requestIdsNumCurrSeqs) + {g.requestId}
      ensures budget.numBatchedTokens == old(budget.numBatchedTokens)
              + if g.requestId in old(budget.requestIdsNumBatchedTokens) then 0 else PromptLength(g)
      ensures budget.numCurrSeqs == old(budget.numCurrSeqs)
              + if g.requestId in old(budget.requestIdsNumCurrSeqs) then 0 else g.MaxNumRunningSeqs()
    {
      hide EntriesOk, WaitingOk, ScheduledOk, NumBlocks, Requests, Owned, AgreeOff, SequenceGroup.MaxNumRunningSeqs;
      hide ManagerOk, Granting;
      ghost var before := blockManager.blockTables;
      AboutToStart(entries, g);
      s := AllocateAndSetRunning(g);
      OwnedStill(g, s.group, owner);
      MoveKeeps(entries, Entry(g, InWaiting), Entry(s.group, InStep(s.chunk)), before, blockManager.blockTables,
                blockManager.gpu.blocks, blockManager.cpu.blocks, blockManager.blockSize, owner);
      budget.AddNumBatchedTokens(g.requestId, NewTokens(g.WithStatus(Waiting)));
      budget.AddNumSeqs(g.requestId, g.MaxNumRunningSeqs());
    }

    /** `_allocate_and_set_running` (959-962). */
    method AllocateAndSetRunning(g: SequenceGroup) returns (s: ScheduledGroup)
      requires ManagerOk() && WaitingOk(g, blockManager.blockTables) && g.WithStatus(Waiting) != [] && Owned(g, owner)
      requires blockManager.NumPromptBlocks(g) <= |blockManager.gpu.freeBlocks|
      modifies blockManager`blockTables, blockManager`ledger, blockManager.gpu, blockManager.gpu.blocks
      ensures ManagerOk() && s == Start(g)
      ensures ScheduledOk(s.group, s.chunk, blockManager.blockTables, blockManager.gpu.blocks, blockManager.blockSize)
      ensures AgreeOff(g, old(blockManager.blockTables), blockManager.blockTables)
      ensures Granting(old(blockManager.ledger), blockManager.ledger, [g])
    {
      hide WaitingOk, ScheduledOk, AgreeOff, Granting, UncachedBlockAllocator.Numbered, NumBlocks, Covered, WellFormed;
      hide Select, Share, Unshared, Owned;
      ghost var before, free := blockManager.blockTables, blockManager.gpu.freeBlocks;
      var waiting := g.WithStatus(Waiting);
      var granted := blockManager.Allocate(g);
      assert granted.Ok?;
      ghost var table := blockManager.blockTables[waiting[0].id];
      forall b | b in table ensures b in blockManager.gpu.blocks {
        assert b in free;
      }
      PromptStarts(g, before, blockManager.blockTables, table, blockManager.gpu.blocks, blockManager.blockSize);
      GrantedUnshared(g, old(blockManager.ledger), table, owner);
      GrantedExact(g, old(blockManager.ledger), table, blockManager.gpu.blocks, blockManager.cpu.blocks);
      return ScheduledGroup(Restated(g, Waiting, Running), |waiting[0].tokens|);
    }

    /** A refused group leaves no table behind. */
    lemma RefusedLeaves(entries: multiset<Entry>, g: SequenceGroup)
      requires ManagerOk() && InOrder(entries) && Entry(g, InWaiting) in entries
      ensures InOrder(entries - multiset{Entry(g, InWaiting)})
      ensures Requests(entries - multiset{Entry(g, InWaiting)}) == Requests(entries) - {g.requestId}
      ensures g.requestId in Requests(entries)
    {
      AboutToStart(entries, g);
      LeaveKeeps(entries, Entry(g, InWaiting), blockManager.blockTables, blockManager.blockTables,
                 blockManager.gpu.blocks, blockManager.cpu.blocks, blockManager.blockSize, owner);
    }

    /** One turn of the loop of `_schedule_prefills` (604-671). */
    method StartNext(left: seq<SequenceGroup>, budget: SchedulingBudget, scheduled: seq<ScheduledGroup>,
                     ghost rest: multiset<Entry>, ghost requests: set<int>)
      returns (verdict: Verdict, s: ScheduledGroup)
      requires left != [] && Underway(rest, left, InWaiting, scheduled, requests) && blockManager.blockSize > 0
      requires RequestIds(left) !! budget.requestIdsNumBatchedTokens + budget.requestIdsNumCurrSeqs
      modifies blockManager`blockTables, blockManager`ledger, blockManager.gpu, blockManager.gpu.blocks
      modifies budget`requestIdsNumBatchedTokens, budget`numBatchedTokens, budget`requestIdsNumCurrSeqs, budget`numCurrSeqs
      ensures verdict.Ignore? <==> TooLong(CurrentLimits(), left[0])
      ensures !verdict.Go? ==> unchanged(blockManager) && unchanged(blockManager.gpu)
      ensures verdict.Go? ==> old(CanStart(left[0], budget)) && Granting(old(blockManager.ledger), blockManager.ledger, [left[0]])
      ensures verdict.Stop? ==>
        Underway(rest, left, InWaiting, scheduled, requests) && unchanged(budget) && !CanStart(left[0], budget)
      ensures verdict.Ignore? ==>
        && Underway(rest, left[1..], InWaiting, scheduled, requests - {left[0].requestId}) && left[0].requestId in requests
        && RequestIds(left[1..]) !! budget.requestIdsNumBatchedTokens + budget.requestIdsNumCurrSeqs && unchanged(budget)
      ensures verdict.Go? ==>
        && s == Start(left[0]) && Underway(rest, left[1..], InWaiting, scheduled + [s], requests)
        && RequestIds(left[1..]) !! budget.requestIdsNumBatchedTokens + budget.requestIdsNumCurrSeqs
        && budget.numCurrSeqs == old(budget.numCurrSeqs) + left[0].MaxNumRunningSeqs()
        && budget.numBatchedTokens == old(budget.numBatchedTokens) + TokensHeld(s.group.seqs)
        && budget.numCurrSeqs <= budget.maxNumSeqs && budget.numBatchedTokens <= budget.tokenBudget
    {
      hide ManagerOk, EntriesOk, Requests, RequestIds, TooLong, CanStart, Scheduler.InOrder, Granting, TokensHeld;
      hide SequenceGroup.WithStatus, SequenceGroup.MaxNumRunningSeqs, PromptLength, NumBlocks;
      var g := left[0];
      ghost var entries := rest + Tagged(left, InWaiting) + InThisStep(scheduled);
      FirstScheduled(rest, left, InWaiting, scheduled, Start(g));
      HeadWaits(rest, left, InWaiting, scheduled);
      verdict := Consider(g, budget, entries);
      s := ScheduledGroup(g, 0);
      if verdict.Ignore? {
        RefusedLeaves(entries, g);
      } else if verdict.Go? {
        ReadyToStart(g, budget);
        AboutToStart(entries, g);
        PromptTokens(g);
        s := StartGroup(g, budget, entries);
      }
    }

    /** `_schedule_prefills` (564-681), without chunking.  `passedDelay` is what `_passed_delay` says at each turn.
        The first `taken` waiting groups start, in their order, except those too long ever to start. */
    method SchedulePrefills(queue: seq<SequenceGroup>, budget: SchedulingBudget, passedDelay: nat -> bool, ghost rest: multiset<Entry>)
      returns (left: seq<SequenceGroup>, scheduled: seq<ScheduledGroup>, ignored: seq<SequenceGroup>, ghost taken: nat)
      requires ManagerOk() && InOrder(rest + Tagged(queue, InWaiting))
      requires RequestIds(queue) !! budget.requestIdsNumBatchedTokens + budget.requestIdsNumCurrSeqs
      modifies blockManager`blockTables, blockManager`ledger, blockManager.gpu, blockManager.gpu.blocks
      modifies budget`requestIdsNumBatchedTokens, budget`numBatchedTokens, budget`requestIdsNumCurrSeqs, budget`numCurrSeqs
      ensures blockManager.blockSize > 0 && TakenSoFar(CurrentLimits(), queue, taken, left, scheduled, ignored)
      ensures Underway(rest, left, InWaiting, scheduled, Requests(rest + Tagged(queue, InWaiting)) - RequestIds(ignored))
      ensures RequestIds(ignored) <= Requests(rest + Tagged(queue, InWaiting))
      ensures budget.numCurrSeqs == old(budget.numCurrSeqs) + SumMax(Groups(scheduled))
      ensures budget.numBatchedTokens == old(budget.numBatchedTokens) + SumTokens(Groups(scheduled))
      ensures scheduled != [] ==> budget.numCurrSeqs <= budget.maxNumSeqs && budget.numBatchedTokens <= budget.tokenBudget
      ensures scheduled == [] ==> unchanged(budget) && unchanged(blockManager) && unchanged(blockManager.gpu)
      ensures Granting(old(blockManager.ledger), blockManager.ledger, queue)
      ensures scheduled != [] <==> SomeStarts(CurrentLimits(), queue, passedDelay, old(SpaceNow(budget)))
      ensures Halts(CurrentLimits(), queue, passedDelay, taken, SpaceNow(budget))
    {
      hide *;
      SizeOk();
      ghost var limits, requests, space := CurrentLimits(), Requests(rest + Tagged(queue, InWaiting)), SpaceNow(budget);
      ghost var start := blockManager.ledger;
      left, scheduled, ignored, taken := queue, [], [], 0;
      LimitsOk();
      GrantingStarts(start, queue);
      PrefillStart(limits, queue, rest);
      PromptsBegin(rest, queue);
      assert requests - RequestIds(ignored) == requests;
      NoPromptYet(limits, queue, passedDelay);
      var turn := 0;
      while passedDelay(turn) && left != []
        invariant turn == taken && limits == CurrentLimits()
        invariant TakenSoFar(limits, queue, taken, left, scheduled, ignored)
        invariant Underway(rest, left, InWaiting, scheduled, requests - RequestIds(ignored)) && RequestIds(ignored) <= requests
        invariant RequestIds(left) !! budget.requestIdsNumBatchedTokens + budget.requestIdsNumCurrSeqs
        invariant budget.numCurrSeqs == old(budget.numCurrSeqs) + SumMax(Groups(scheduled))
        invariant budget.numBatchedTokens == old(budget.numBatchedTokens) + SumTokens(Groups(scheduled))
        invariant scheduled != [] ==> budget.numCurrSeqs <= budget.maxNumSeqs && budget.numBatchedTokens <= budget.tokenBudget
        invariant scheduled == [] ==> unchanged(budget) && unchanged(blockManager) && unchanged(blockManager.gpu)
        invariant Granting(start, blockManager.ledger, queue)
        invariant scheduled == [] ==> NoneYet(limits, queue, passedDelay, taken)
        invariant scheduled != [] ==> SomeStarts(limits, queue, passedDelay, space)
        decreases |left|
      {
        var g := left[0];
        TakenNext(limits, queue, taken, left, scheduled, ignored);
        FitsNow(g, budget);
        if scheduled == [] {
          FirstStarts(limits, queue, passedDelay, space, taken);
        }
        ghost var l := blockManager.ledger;
        var verdict, s := StartNext(left, budget, scheduled, rest, requests - RequestIds(ignored));
        match verdict {
          case Stop =>
            if scheduled == [] {
              NoneStarts(limits, queue, passedDelay, space, taken);
            }
            FitsNow(g, budget);
            HaltsIf(limits, queue, passedDelay, taken, SpaceNow(budget));
            return;
          case Ignore =>
            RefusedMore(ignored, g);
            assert requests - RequestIds(ignored) - {g.requestId} == requests - RequestIds(ignored + [Refusal(g)]);
            ignored := ignored + [Refusal(g)];
          case Go =>
            GrantingNext(start, l, blockManager.ledger, queue, g);
            TokensMore(scheduled, s);
            scheduled := scheduled + [s];
        }
        left, taken, turn := left[1..], taken + 1, turn + 1;
      }
      TakenAll(limits, queue, taken, left, scheduled, ignored);
      HaltsIf(limits, queue, passedDelay, taken, SpaceNow(budget));
      if scheduled == [] {
        NoneStarts(limits, queue, passedDelay, space, taken);
      }
    }

    lemma PromptsBegin(rest: multiset<Entry>, queue: seq<SequenceGroup>)
      requires ManagerOk() && InOrder(rest + Tagged(queue, InWaiting))
      ensures Underway(rest, queue, InWaiting, [], Requests(rest + Tagged(queue, InWaiting)))
    {
      hide Requests, EntriesOk, Scheduler.ManagerOk;
      assert rest + Tagged(queue, InWaiting) + InThisStep([]) == rest + Tagged(queue, InWaiting);
    }

    lemma NoPromptYet(limits: Limits, queue: seq<SequenceGroup>, passedDelay: nat -> bool)
      requires limits.blockSize > 0
      ensures NoneYet(limits, queue, passedDelay, 0)
    {
    }

    /** What is left for prompts that start. */
    ghost function SpaceNow(budget: SchedulingBudget): Space
      reads blockManager.gpu`freeBlocks, budget
    {
      Space(|blockManager.gpu.freeBlocks|, budget.tokenBudget - budget.numBatchedTokens, budget.maxNumSeqs - budget.numCurrSeqs)
    }

    lemma FitsNow(g: SequenceGroup, budget: SchedulingBudget)
      requires blockManager.blockSize > 0
      ensures CurrentLimits().blockSize > 0 && (CanStart(g, budget) <==> Fits(CurrentLimits(), g, SpaceNow(budget)))
    {
    }

    lemma LimitsOk()
      requires blockManager.blockSize > 0
      ensures CurrentLimits().blockSize > 0
    {
    }

    lemma SizeOk()
      requires ManagerOk()
      ensures blockManager.blockSize > 0
    {
    }

    lemma ReadyToStart(g: SequenceGroup, budget: SchedulingBudget)
      requires blockManager.blockSize > 0 && CanStart(g, budget)
      ensures NumBlocks(PromptLength(g), blockManager.blockSize) <= |blockManager.gpu.freeBlocks|
      ensures budget.CanSchedule(PromptLength(g), g.MaxNumRunningSeqs())
    {
    }

    // ---- requests arrive and are aborted -----------------------------------------------------------------------

    /** `add_seq_group` (298-300), for a request whose sequences are new (llm_engine.py:401-412). */
    method AddSeqGroup(g: SequenceGroup)
      requires Valid() && WaitingOk<PhysicalTokenBlock>(g, map[]) && g.requestId !in Requests(Roster(waiting, running, swapped))
      requires forall s | s in g.seqs :: s.id !in owner
      modifies this`waiting, this`owner
      ensures Valid() && waiting == old(waiting) + [g]
      ensures Requests(Roster(waiting, running, swapped)) == old(Requests(Roster(waiting, running, swapped))) + {g.requestId}
      ensures forall id | id in old(owner) :: id in owner && owner[id] == old(owner)[id]
    {
      hide BlockSpaceManager.Valid, UncachedBlockAllocator.Numbered, Unshared, SumMax, Requests, Roster, EntriesOk, WaitingOk;
      ghost var entries, owner' := Roster(waiting, running, swapped), owner + Owners(g);
      NewOnesUntabled(g);
      UnsharedOwners(blockManager.blockTables, owner, owner');
      SizeOk();
      JoinKeeps(entries, Entry(g, InWaiting), blockManager.blockTables, blockManager.gpu.blocks, blockManager.cpu.blocks,
                blockManager.blockSize, owner, owner');
      RosterGrows(waiting, running, swapped, g);
      waiting := waiting + [g];
      owner := owner';
    }

    lemma NewOnesUntabled(g: SequenceGroup)
      requires Valid() && WaitingOk<PhysicalTokenBlock>(g, map[]) && forall s | s in g.seqs :: s.id !in owner
      ensures WaitingOk(g, blockManager.blockTables) && forall s | s in g.seqs :: s.id !in blockManager.blockTables
    {
      hide ManagerOk, SumMax, EntriesOk;
      forall s | s in g.seqs ensures s.id !in blockManager.blockTables {
        TabledOwned(Roster(waiting, running, swapped), s.id, blockManager.blockTables, blockManager.gpu.blocks,
                    blockManager.cpu.blocks, blockManager.blockSize, owner);
      }
    }

    /** The members of an aborted group that are not finished give up their tables (332-336). */
    method FreeGroup(g: SequenceGroup, ghost entries: multiset<Entry>, ghost place: Place)
      requires ManagerOk() && InOrder(entries) && Entry(g, place) in entries
      modifies blockManager`blockTables, blockManager`ledger, blockManager.gpu, blockManager.gpu.blocks
      modifies blockManager.cpu, blockManager.cpu.blocks
      ensures ManagerOk() && InOrder(entries - multiset{Entry(g, place)}) && Since(old(blockManager.ledger))
      ensures TablesKept(blockManager.blockTables, old(blockManager.blockTables))
      ensures Requests(entries - multiset{Entry(g, place)}) == Requests(entries) - {g.requestId}
    {
      hide ManagerOk, EntriesOk, Requests, EntryOk, Since, Recounted, Covered;
      ghost var before, start := blockManager.blockTables, blockManager.ledger;
      KnownGroup(entries, g, place);
      SinceNow();
      for i := 0 to |g.seqs|
        invariant ManagerOk() && TablesKept(blockManager.blockTables, before) && Since(start)
        invariant forall k | 0 <= k < i :: g.seqs[k].id !in blockManager.blockTables
        invariant AgreeOff(g, before, blockManager.blockTables)
      {
        assert g.seqs[i] in g.seqs;
        if !g.seqs[i].IsFinished() {
          ghost var l := blockManager.ledger;
          SinceIs(start);
          FreeMember(g.seqs[i]);
          SinceTwice(start, l);
        }
      }
      forall s | s in g.seqs ensures s.id !in blockManager.blockTables {
        var k :| 0 <= k < |g.seqs| && g.seqs[k] == s;
      }
      LeaveKeeps(entries, Entry(g, place), before, blockManager.blockTables, blockManager.gpu.blocks, blockManager.cpu.blocks,
                 blockManager.blockSize, owner);
    }

    lemma KnownGroup(entries: multiset<Entry>, g: SequenceGroup, place: Place)
      requires ManagerOk() && InOrder(entries) && Entry(g, place) in entries
      ensures forall s | s in g.seqs && s.IsFinished() :: s.id !in blockManager.blockTables
      ensures AgreeOff(g, blockManager.blockTables, blockManager.blockTables)
    {
      FinishedUntabled(Entry(g, place), blockManager.blockTables, blockManager.gpu.blocks, blockManager.cpu.blocks,
                       blockManager.blockSize, owner);
    }

    /** One turn of the outer loop of `abort_seq_group` (318-336): the requests `requestIds` leave one queue. */
    method AbortFrom(queue: seq<SequenceGroup>, requestIds: set<int>, ghost rest: multiset<Entry>, ghost place: Place)
      returns (left: seq<SequenceGroup>, notFound: set<int>)
      requires ManagerOk() && InOrder(rest + Tagged(queue, place))
      modifies blockManager`blockTables, blockManager`ledger, blockManager.gpu, blockManager.gpu.blocks
      modifies blockManager.cpu, blockManager.cpu.blocks
      ensures left == Without(queue, requestIds) && notFound == requestIds - RequestIds(queue)
      ensures ManagerOk() && InOrder(rest + Tagged(left, place)) && Since(old(blockManager.ledger))
      ensures TablesKept(blockManager.blockTables, old(blockManager.blockTables))
      ensures Requests(rest + Tagged(left, place)) == Requests(rest + Tagged(queue, place)) - RequestIds(Among(queue, requestIds))
    {
      hide ManagerOk, EntriesOk, Requests, RequestIds, Among, Without, Tagged, RemoveFirst, DistinctRequests, Since, Recounted, Covered;
      ghost var start := blockManager.ledger;
      SinceNow();
      QueueDistinct(rest, queue, place);
      var aborted: seq<SequenceGroup>;
      aborted, notFound := FindAborted(queue, requestIds, rest, place);
      left := queue;
      WithoutNothing(queue);
      NoRequests();
      for k := 0 to |aborted|
        invariant ManagerOk() && InOrder(rest + Tagged(left, place)) && Since(start)
        invariant TablesKept(blockManager.blockTables, old(blockManager.blockTables))
        invariant left == Without(queue, RequestIds(aborted[..k]))
        invariant Requests(rest + Tagged(left, place)) == Requests(rest + Tagged(queue, place)) - RequestIds(aborted[..k])
      {
        ghost var g, ids := aborted[k], RequestIds(aborted[..k]);
        AbortedNext(queue, requestIds, k);
        RemoveTagged(left, g, place);
        ghost var entries := rest + Tagged(left, place);
        assert entries - multiset{Entry(g, place)} == rest + (Tagged(left, place) - multiset{Entry(g, place)});
        ghost var l := blockManager.ledger;
        SinceIs(start);
        left := RemoveFirst(left, aborted[k]);
        FreeGroup(aborted[k], entries, place);
        SinceTwice(start, l);
      }
      assert aborted[..|aborted|] == aborted;
      WithoutChosen(queue, requestIds, queue);
    }

    lemma QueueDistinct(rest: multiset<Entry>, queue: seq<SequenceGroup>, place: Place)
      requires InOrder(rest + Tagged(queue, place))
      ensures DistinctRequests(queue) && Unique(rest + Tagged(queue, place))
    {
      UniqueDistinct(rest, queue, place);
    }

    /** The inner loop of `abort_seq_group` (319-328), which stops once every request has been found. */
    method FindAborted(queue: seq<SequenceGroup>, requestIds: set<int>, ghost rest: multiset<Entry>, ghost place: Place)
      returns (aborted: seq<SequenceGroup>, left: set<int>)
      requires Unique(rest + Tagged(queue, place))
      ensures aborted == Among(queue, requestIds) && left == requestIds - RequestIds(queue)
    {
      hide Unique, Tagged, Among;
      aborted, left := [], requestIds;
      AmongNothing(requestIds);
      for i := 0 to |queue|
        invariant aborted == Among(queue[..i], requestIds) && left == requestIds - RequestIds(queue[..i])
      {
        RequestsDiffer(rest, queue, place, i);
        if left == {} {
          NothingMore(rest, queue, place, i, requestIds);
          return;
        }
        assert queue[..i + 1] == queue[..i] + [queue[i]];
        AmongGrows(queue[..i], requestIds, queue[i]);
        if queue[i].requestId in left {
          aborted := aborted + [queue[i]];
          left := left - {queue[i].requestId};
        }
      }
      assert queue[..|queue|] == queue;
    }

    /** `abort_seq_group` (302-336). */
    method AbortSeqGroup(requestIds: set<int>)
      requires Valid()
      modifies this`waiting, this`running, this`swapped
      modifies blockManager`blockTables, blockManager`ledger, blockManager.gpu, blockManager.gpu.blocks
      modifies blockManager.cpu, blockManager.cpu.blocks
      ensures Valid() && (Exact(old(blockManager.ledger)) ==> Exact(blockManager.ledger))
      ensures TablesKept(blockManager.blockTables, old(blockManager.blockTables))
      ensures State() == Queues(Without(old(waiting), requestIds), Without(old(running), requestIds), Without(old(swapped), requestIds))
      ensures Requests(Roster(waiting, running, swapped)) == old(Requests(Roster(waiting, running, swapped))) - requestIds
    {
      hide ManagerOk, EntriesOk, Requests, RequestIds, Among, Without, SumMax, Roster, Tagged, Since, Exact;
      ghost var q := State();
      var ids := requestIds;
      RosterApart(q.waiting, q.running, q.swapped);
      AbortEachOnce(q, requestIds);
      RosterSplits(waiting, running, swapped);
      ghost var l0 := blockManager.ledger;
      waiting, ids := AbortFrom(waiting, ids, Tagged(running, InRunning) + Tagged(swapped, InSwapped), InWaiting);
      SinceExact(l0);
      RosterSplits(waiting, running, swapped);
      ghost var l1 := blockManager.ledger;
      running, ids := AbortFrom(running, ids, Tagged(waiting, InWaiting) + Tagged(swapped, InSwapped), InRunning);
      SinceExact(l1);
      RosterSplits(waiting, running, swapped);
      ghost var l2 := blockManager.ledger;
      swapped, ids := AbortFrom(swapped, ids, Tagged(waiting, InWaiting) + Tagged(running, InRunning), InSwapped);
      SinceExact(l2);
      RosterSplits(waiting, running, swapped);
    }

    /** A running member forks (948-949, and `SequenceGroup.add`): the child shares its parent's blocks. */
    method ForkSeq(k: nat, parent: Sequence, childId: int, token: int)
      requires Valid() && k < |running| && parent in running[k].seqs && !parent.IsFinished() && CanFork(running[k])
      requires childId !in owner
      modifies this`running, this`owner, blockManager`blockTables, blockManager`ledger, blockManager.gpu.blocks, blockManager.cpu.blocks
      ensures Valid() && parent.tokens != []
      ensures running == old(running)[k := Forked(old(running)[k], Child(parent, childId, token))]
      ensures var members := old(running)[k].seqs;
        && |running[k].seqs| == |members| + 1 && running[k].seqs[..|members|] == members
        && Branches(parent, running[k].seqs[|members|], childId, token)
      ensures Requests(Roster(waiting, running, swapped)) == old(Requests(Roster(waiting, running, swapped)))
      ensures parent.id in old(blockManager.blockTables) && parent.id in old(blockManager.ledger.tables)
      ensures blockManager.blockTables == old(blockManager.blockTables)[childId := old(blockManager.blockTables)[parent.id]]
      ensures blockManager.ledger == ForkedLedger(old(blockManager.ledger), parent.id, childId)
      ensures Exact(old(blockManager.ledger)) ==> Exact(blockManager.ledger)
    {
      hide SumMax, Requests, Roster, EntriesOk, RunningOk, BlockSpaceManager.Counted, UncachedBlockAllocator.Numbered, WellFormed;
      hide Recounted;
      hide Covered, SequenceGroup.MaxNumRunningSeqs, CanFork, Tagged, Exact, Branches;
      ghost var entries, tables, g := Roster(waiting, running, swapped), blockManager.blockTables, running[k];
      AboutToFork(k, parent, childId);
      var child := Child(parent, childId, token);
      ForkedIs(g, parent, childId, token, tables, blockManager.gpu.blocks, blockManager.blockSize);
      ghost var owner' := owner[childId := g.requestId];
      ForkedEntry(entries, g, parent, childId, token, tables, blockManager.gpu.blocks, blockManager.cpu.blocks,
                  blockManager.blockSize, owner);
      RosterReplaced(waiting, running, swapped, k, Forked(g, child));
      LedgerTables();
      SoundNow();
      ForkedExact(blockManager.ledger, blockManager.gpu.blocks, blockManager.cpu.blocks, parent.id, childId);
      var forked := blockManager.Fork(parent.id, childId);
      assert forked.Ok?;
      running := running[k := Forked(running[k], child)];
      owner := owner';
    }

    lemma AboutToFork(k: nat, parent: Sequence, childId: int)
      requires Valid() && k < |running| && parent in running[k].seqs && !parent.IsFinished() && childId !in owner
      ensures RunningOk(running[k], blockManager.blockTables, blockManager.gpu.blocks, blockManager.blockSize)
      ensures Owned(running[k], owner) && blockManager.blockSize > 0 && childId !in blockManager.blockTables
      ensures Entry(running[k], InRunning) in Roster(waiting, running, swapped)
      ensures parent.tokens != [] && parent.id in blockManager.blockTables
      ensures forall s | s in running[k].seqs :: s.id != childId
    {
      hide ManagerOk, SumMax;
      var e := Entry(running[k], InRunning);
      TaggedMembers(running, InRunning);
      assert e in Tagged(running, InRunning);
      assert EntryOk(e, blockManager.blockTables, blockManager.gpu.blocks, blockManager.cpu.blocks, blockManager.blockSize, owner);
      TabledOwned(Roster(waiting, running, swapped), childId, blockManager.blockTables, blockManager.gpu.blocks,
                  blockManager.cpu.blocks, blockManager.blockSize, owner);
    }

    // ---- one step ----------------------------------------------------------------------------------------------

    /** The budget starts with the running groups (692-700). */
    method StartBudget(ghost rest: multiset<Entry>) returns (budget: SchedulingBudget)
      requires Unique(rest + Tagged(running, InRunning))
      ensures fresh(budget) && budget.tokenBudget == maxNumBatchedTokens && budget.maxNumSeqs == maxNumSeqs
      ensures budget.requestIdsNumBatchedTokens == {} && budget.numBatchedTokens == 0
      ensures budget.requestIdsNumCurrSeqs == RequestIds(running) && budget.numCurrSeqs == SumMax(running)
    {
      hide Unique, Tagged, SequenceGroup.MaxNumRunningSeqs;
      budget := new SchedulingBudget(maxNumBatchedTokens, maxNumSeqs);
      for i := 0 to |running|
        invariant budget.requestIdsNumBatchedTokens == {} && budget.numBatchedTokens == 0
        invariant budget.requestIdsNumCurrSeqs == RequestIds(running[..i]) && budget.numCurrSeqs == SumMax(running[..i])
      {
        RequestsDiffer(rest, running, InRunning, i);
        assert running[..i + 1] == running[..i] + [running[i]];
        SumsConcat(running[..i], [running[i]]);
        SumsOne(running[i]);
        budget.AddNumSeqs(running[i].requestId, running[i].MaxNumRunningSeqs());
      }
      assert running[..|running|] == running;
    }

    /** What the worker is told since the ledger was `start`, against the tables now. */
    ghost predicate DecodesTold(start: Ledger<PhysicalTokenBlock>, now': real, swapped: seq<SequenceGroup>, kept: seq<SequenceGroup>,
                                victims: seq<SequenceGroup>, back: nat, out: RunningOutputs, swappedIn: SwappedInOutputs)
      reads this`owner, blockManager`ledger
    {
      && back <= |Policy.SortByPriority(now', swapped)|
      && StepDone(start, blockManager.ledger, kept, victims, Policy.SortByPriority(now', swapped)[..back],
                  swappedIn.blocksToSwapIn, out.blocksToSwapOut, out.blocksToCopy, owner)
      && swappedIn.blocksToCopy == map[]
    }

    lemma NoneFetched(start: Ledger<PhysicalTokenBlock>, now': real, swapped: seq<SequenceGroup>, kept: seq<SequenceGroup>,
                      victims: seq<SequenceGroup>, out: RunningOutputs)
      requires ManagerOk() && Ships(kept + victims, kept, [], victims, out, start)
      ensures DecodesTold(start, now', swapped, kept, victims, 0, out, SwappedInOutputs([], map[], map[]))
    {
      hide ManagerOk, Onward, StepDone, NumberedOn, Policy.SortByPriority;
      TablesApart();
      StepAlone(kept, victims, out.blocksToSwapOut, out.blocksToCopy, start, blockManager.ledger, owner,
                blockManager.gpu.blocks, blockManager.cpu.blocks);
      assert Policy.SortByPriority(now', swapped)[..0] == [];
    }

    lemma SomeFetched(start: Ledger<PhysicalTokenBlock>, mid: Ledger<PhysicalTokenBlock>, now': real, swapped: seq<SequenceGroup>,
                      kept: seq<SequenceGroup>, back: nat, out: RunningOutputs, swappedIn: SwappedInOutputs,
                      landed: map<int, BlockTable>)
      requires ManagerOk() && RequestIds(kept) !! RequestIds(swapped) && out.blocksToSwapOut == map[]
      requires Onward(kept + [], kept, [], [], map[], out.blocksToCopy, start, mid, owner,
                      blockManager.gpu.blocks, blockManager.cpu.blocks)
      requires Fetches(Policy.SortByPriority(now', swapped), back, swappedIn, mid, landed)
      ensures DecodesTold(start, now', swapped, kept, [], back, out, swappedIn)
    {
      hide ManagerOk, Onward, Inward, StepDone, NumberedOn, Policy.SortByPriority;
      TablesApart();
      SortKeepsIds(now', swapped);
      StepThenFetched(kept, out.blocksToCopy, Policy.SortByPriority(now', swapped), back, swappedIn.blocksToSwapIn, start, mid,
                      blockManager.ledger, landed, owner, blockManager.gpu.blocks, blockManager.cpu.blocks);
    }

    /** Whether the groups that will be swapped out hold more blocks than the CPU has free. */
    ghost predicate WillLackSpace(now: real)
      requires blockManager.blockSize > 0
      reads this, blockManager, blockManager.gpu, blockManager.cpu
    {
      SwapCosts(blockManager.blockTables, Gone(Ahead(running, now))) > |blockManager.cpu.freeBlocks|
    }

    /** Whether the step will start prompts: none is swapped, and the first that is not refused for good fits. */
    ghost predicate WillStart(passedDelay: nat -> bool)
      requires blockManager.blockSize > 0
      reads this, blockManager, blockManager.gpu
    {
      && swapped == [] && CurrentLimits().blockSize > 0
      && SomeStarts(CurrentLimits(), waiting, passedDelay,
                    Space(|blockManager.gpu.freeBlocks|, maxNumBatchedTokens, maxNumSeqs - SumMax(running)))
    }

    /** What a step that batches `tokens` tokens leaves for another prompt, and for another swapped group. */
    ghost function SpaceLeft(tokens: int): Space
      reads this, blockManager, blockManager.gpu
    {
      Space(|blockManager.gpu.freeBlocks|, maxNumBatchedTokens - tokens, maxNumSeqs - SumMax(running))
    }

    ghost function RoomLeft(tokens: int): Room
      reads this, blockManager, blockManager.gpu
    {
      Room(|blockManager.gpu.freeBlocks| - blockManager.watermarkBlocks, maxNumBatchedTokens - tokens, maxNumSeqs - SumMax(running))
    }

    /** Whether the step will come to a swapped group with several live members that could return. */
    ghost predicate WillStumble(now: real, now': real)
      requires blockManager.blockSize > 0
      reads this, blockManager, blockManager.gpu
    {
      StepStumbles(TheMemory(), blockManager.blockTables, Policy.SortByPriority(now, running), Policy.SortByPriority(now', swapped),
                   blockManager.watermarkBlocks, maxNumBatchedTokens, maxNumSeqs, blockManager.blockSize)
    }

    /** Of the waiting prompts the first `taken` have been started or refused for good, and the loop could not go on with what
        the started prompts leave of `space`, the space if none starts. */
    ghost predicate Judged(queue: seq<SequenceGroup>, passedDelay: nat -> bool, taken: nat, out: SchedulerOutputs, space: Space)
      requires CurrentLimits().blockSize > 0
      reads this, blockManager, blockManager.gpu
    {
      && taken <= |queue| && out.ignored == Refused(CurrentLimits(), queue[..taken])
      && Halts(CurrentLimits(), queue, passedDelay, taken, if out.numPrefillGroups > 0 then SpaceLeft(out.numBatchedTokens) else space)
    }

    /** For the next swapped group there is not enough left. */
    ghost predicate NextStays(out: SchedulerOutputs)
      reads this, blockManager, blockManager.gpu
    {
      swapped != [] ==> !Returnable(swapped[0], blockManager.blockTables, RoomLeft(out.numBatchedTokens))
    }

    lemma StumblesNow(now: real, now': real, m: Memory, start: Ledger<PhysicalTokenBlock>, kept: seq<SequenceGroup>, out: RunningOutputs,
                      budget: SchedulingBudget)
      requires blockManager.blockSize > 0 && forall g | g in Policy.SortByPriority(now', swapped) :: Owned(g, owner)
      requires Policy.SortByPriority(now, running) == kept && RequestIds(running) !! RequestIds(swapped)
      requires Roomy(m, kept, blockManager.blockSize) && TheMemory() == AllSlots(m, kept, blockManager.blockSize)
      requires Ships(kept + [], kept, [], [], out, start) && blockManager.ledger.tables == blockManager.blockTables
      requires budget.tokenBudget == maxNumBatchedTokens && budget.maxNumSeqs == maxNumSeqs
      requires budget.numBatchedTokens == SumLive(kept) && budget.numCurrSeqs == SumMax(running)
      ensures StepStumbles(m, start.tables, kept, Policy.SortByPriority(now', swapped), blockManager.watermarkBlocks,
                           maxNumBatchedTokens, maxNumSeqs, blockManager.blockSize)
              <==> Stumbles(Policy.SortByPriority(now', swapped), blockManager.blockTables, RoomNow(budget), blockManager.blockSize)
    {
      hide Roomy, AllSlots, SumLive, SumMax, Policy.SortByPriority, StepStumbles, Transit, CopiesMade, Grounded;
      hide Untouched, Owned, Stumbles, Since, Ships, WellGrown, InUse;
      ShipsIs(kept + [], kept, [], [], out, start);
      assert RequestIds([]) == {} && RequestIds(kept) + {} == RequestIds(kept);
      SortKeepsIds(now, running);
      SortKeepsIds(now', swapped);
      SortKeepsSums(now, running);
      StumblesThen(m, start.tables, kept, Policy.SortByPriority(now', swapped), blockManager.watermarkBlocks, maxNumBatchedTokens,
                   maxNumSeqs,
                   blockManager.blockSize, owner, blockManager.blockTables, RoomNow(budget));
    }

    lemma SwappedOwned(now': real, waiting: seq<SequenceGroup>)
      requires InOrder(Roster(waiting, running, swapped))
      ensures forall g | g in Policy.SortByPriority(now', swapped) :: Owned(g, owner)
    {
      Policy.SortIsStable(now', swapped, now');
      TaggedMembers(swapped, InSwapped);
      forall g | g in Policy.SortByPriority(now', swapped) ensures Owned(g, owner) {
        assert g in multiset(swapped);
        var e := Entry(g, InSwapped);
        assert e in Tagged(swapped, InSwapped);
        assert EntryOk(e, blockManager.blockTables, blockManager.gpu.blocks, blockManager.cpu.blocks, blockManager.blockSize, owner);
      }
    }

    /** The decoding half of `_schedule_default` (721-734): the running queue, then the swapped one if nothing was
        preempted. */
    method ScheduleDecodes(waitingLeft: seq<SequenceGroup>, budget: SchedulingBudget, now: real, now': real)
      returns (r: Result<RunningOutputs>, swappedIn: SwappedInOutputs, swappedLeft: seq<SequenceGroup>,
               ghost kept: seq<SequenceGroup>, ghost victims: seq<SequenceGroup>, ghost back: nat)
      requires blockManager.blockSize > 0 && budget.tokenBudget == maxNumBatchedTokens && budget.maxNumSeqs == maxNumSeqs
      requires ManagerOk() && InOrder(Roster(waitingLeft, running, swapped))
      requires budget.requestIdsNumBatchedTokens == {} && budget.numBatchedTokens == 0
      requires budget.requestIdsNumCurrSeqs == RequestIds(running) && budget.numCurrSeqs == SumMax(running)
      modifies blockManager`blockTables, blockManager`ledger, blockManager.gpu, blockManager.gpu.blocks
      modifies blockManager.cpu, blockManager.cpu.blocks
      modifies budget`requestIdsNumBatchedTokens, budget`numBatchedTokens, budget`requestIdsNumCurrSeqs, budget`numCurrSeqs
      ensures kept == Stayed(old(Ahead(running, now))) && victims == Gone(old(Ahead(running, now)))
      ensures r.Err? && r.error == NoSwapSpace <==> old(WillLackSpace(now))
      ensures r.Err? && r.error == AssertionError <==> old(WillStumble(now, now'))
      ensures r.Err? ==>
        || (r.error == NoSwapSpace && exists g | g in running :: g.MaxNumRunningSeqs() != 1)
        || (r.error == AssertionError && exists g | g in swapped :: |Unfinished(g.seqs)| >= 2)
      ensures r.Ok? ==>
        && var out := r.value;
        && ManagerOk() && Split(Policy.SortByPriority(now, running), kept, [], victims, out)
        && var all := Executing(out.preempted + waitingLeft, [], out.decode + swappedIn.decode, swappedLeft + out.swappedOut);
        && InOrder(all) && Requests(all) == Requests(Roster(waitingLeft, running, swapped))
        && (if victims == [] then BackSoFar(Policy.SortByPriority(now', swapped), back, swappedLeft, swappedIn.decode)
            else swappedLeft == swapped && swappedIn == SwappedInOutputs([], map[], map[]) && back == 0)
        && DecodesTold(old(blockManager.ledger), now', swapped, kept, victims, back, out, swappedIn)
        && budget.numCurrSeqs <= SumMax(running) + SumMax(Groups(swappedIn.decode))
        && (victims == [] ==> budget.numCurrSeqs == SumMax(running) + SumMax(Groups(swappedIn.decode)))
        && (victims == [] && swappedLeft != [] ==> !Returnable(swappedLeft[0], blockManager.blockTables, RoomNow(budget)))
        && budget.numBatchedTokens == SumLive(kept) + SumLive(Groups(swappedIn.decode))
        && (swappedIn.decode == [] ==> swappedIn.blocksToSwapIn == map[])
        && (swappedIn.decode != [] ==>
              && budget.numBatchedTokens <= budget.tokenBudget && victims == []
              && SumMax(running) + SumMax(Groups(swappedIn.decode)) <= budget.maxNumSeqs)
    {
      hide ManagerOk, EntriesOk, Requests, Split, BackSoFar, Groups, SumMax, SumLive, RequestIds, Policy.SortByPriority;
      hide HoldsVictims, EmptyOutputs, CanReturn, Returnable;
      hide SequenceGroup.MaxNumRunningSeqs, Unfinished, Underway, Onward, Fetches, DecodesTold, Pressed;
      hide StepStumbles, Stumbles, Roomy, AllSlots, SwapCosts, Scheduler.TheMemory, Scheduler.RoomNow, Since, Scheduler.Ahead, Stayed, Gone;
      hide Tagged, InThisStep, Roster, Executing, Decoded;
      ghost var start, l, memory := blockManager.blockTables, blockManager.ledger, TheMemory();
      LedgerTables();
      ghost var ahead := Ahead(running, now);
      assert WillLackSpace(now) == (SwapCosts(start, Gone(ahead)) > |blockManager.cpu.freeBlocks|);
      assert WillStumble(now, now') == StepStumbles(memory, start, Policy.SortByPriority(now, running),
                                                    Policy.SortByPriority(now', swapped),
        blockManager.watermarkBlocks, maxNumBatchedTokens, maxNumSeqs, blockManager.blockSize);
      SwappedOwned(now', waitingLeft);
      NoCosts(l);
      swappedIn, swappedLeft, back := SwappedInOutputs([], map[], map[]), swapped, 0;
      ghost var rest := Tagged(waitingLeft, InWaiting) + Tagged(swapped, InSwapped);
      RunningFirst(waitingLeft, running, swapped);
      RosterApart(waitingLeft, running, swapped);
      r, kept, victims := ScheduleRunning(running, budget, now, rest);
      if r.Err? {
        NobodyReturns(memory, start, Policy.SortByPriority(now, running), Policy.SortByPriority(now', swapped),
                      blockManager.watermarkBlocks, maxNumBatchedTokens, maxNumSeqs, blockManager.blockSize);
        return;
      }
      var out := r.value;
      NonePressed(ahead);
      SplitAll(Policy.SortByPriority(now, running), kept, victims, out);
      KeptOnes(now, running, kept, victims);
      AfterRunning(waitingLeft, out, swapped);
      ghost var mid := blockManager.ledger;
      LedgerTables();
      if |out.preempted| + |out.swappedOut| == 0 {
        ghost var entries := Decoded(rest, out.decode, [], out.preempted, out.swappedOut);
        NoneEvicted(kept, victims, out);
        SwappedNext(waitingLeft, out, swapped);
        StumblesNow(now, now', memory, l, kept, out, budget);
        ghost var rest' := Tagged(waitingLeft, InWaiting) + InThisStep(out.decode);
        var returned;
        ghost var landed;
        returned, swappedLeft, back, landed := ScheduleSwapped(swapped, budget, now', rest');
        if returned.Err? {
          r := Err(returned.error);
          return;
        }
        swappedIn := returned.value;
        UnderwayFacts(rest', swappedLeft, InSwapped, swappedIn.decode, Requests(entries));
        AfterSwapped(waitingLeft, out, swappedLeft, swappedIn.decode);
        SomeFetched(l, mid, now', swapped, kept, back, out, swappedIn, landed);
      } else {
        SomeEvicted(kept, victims, out);
        NobodyReturns(memory, start, Policy.SortByPriority(now, running), Policy.SortByPriority(now', swapped),
                      blockManager.watermarkBlocks, maxNumBatchedTokens, maxNumSeqs, blockManager.blockSize);
        NoneFetched(l, now', swapped, kept, victims, out);
        AfterNone(out.preempted + waitingLeft, out.decode, swapped + out.swappedOut);
      }
    }

    lemma RosterApart(waiting: seq<SequenceGroup>, running: seq<SequenceGroup>, swapped: seq<SequenceGroup>)
      requires InOrder(Roster(waiting, running, swapped))
      ensures RequestIds(swapped) !! RequestIds(running) && RequestIds(waiting) !! RequestIds(running)
      ensures RequestIds(waiting) !! RequestIds(swapped)
      ensures Unique(Roster(waiting, running, swapped))
    {
      QueuesDiffer(Tagged(waiting, InWaiting), running, InRunning, swapped, InSwapped);
      assert Tagged(swapped, InSwapped) + Tagged(waiting, InWaiting) + Tagged(running, InRunning) == Roster(waiting, running, swapped);
      QueuesDiffer(Tagged(swapped, InSwapped), waiting, InWaiting, running, InRunning);
      assert Tagged(running, InRunning) + Tagged(waiting, InWaiting) + Tagged(swapped, InSwapped) == Roster(waiting, running, swapped);
      QueuesDiffer(Tagged(running, InRunning), waiting, InWaiting, swapped, InSwapped);
    }

    lemma UnderwayFacts(rest: multiset<Entry>, left: seq<SequenceGroup>, place: Place, scheduled: seq<ScheduledGroup>, requests: set<int>)
      requires Underway(rest, left, place, scheduled, requests)
      ensures ManagerOk() && InOrder(rest + Tagged(left, place) + InThisStep(scheduled))
      ensures Requests(rest + Tagged(left, place) + InThisStep(scheduled)) == requests
    {
    }

    /** The same for the outputs of the whole step. */
    ghost predicate StepTold(start: Ledger<PhysicalTokenBlock>, now': real, swapped: seq<SequenceGroup>, kept: seq<SequenceGroup>,
                             victims: seq<SequenceGroup>, back: nat, out: SchedulerOutputs)
      reads this`owner, blockManager`ledger
    {
      && back <= |Policy.SortByPriority(now', swapped)|
      && StepDone(start, blockManager.ledger, kept, victims, Policy.SortByPriority(now', swapped)[..back],
                  out.blocksToSwapIn, out.blocksToSwapOut, out.blocksToCopy, owner)
    }

    lemma ToldExact(start: Ledger<PhysicalTokenBlock>, now': real, swapped: seq<SequenceGroup>, kept: seq<SequenceGroup>,
                    victims: seq<SequenceGroup>, back: nat, out: SchedulerOutputs)
      requires StepTold(start, now', swapped, kept, victims, back, out)
      ensures Exact(start) ==> Exact(blockManager.ledger)
    {
      hide StepTransfers, Untouched, WellGrown, InUse, ReturnedWritable, Policy.SortByPriority, Covered, Recounted, Exact;
      if Exact(start) {
        RecountExact(start, blockManager.ledger);
      }
    }

    lemma TransfersTold(start: Ledger<PhysicalTokenBlock>, now': real, swapped: seq<SequenceGroup>, kept: seq<SequenceGroup>,
                        victims: seq<SequenceGroup>, back: nat, out: RunningOutputs, swappedIn: SwappedInOutputs,
                        numBatchedTokens: int, ignored: seq<SequenceGroup>)
      requires DecodesTold(start, now', swapped, kept, victims, back, out, swappedIn)
      ensures StepTold(start, now', swapped, kept, victims, back,
        SchedulerOutputs(out.decode + swappedIn.decode, 0, numBatchedTokens, swappedIn.blocksToSwapIn,
                         out.blocksToSwapOut, Merge(out.blocksToCopy, swappedIn.blocksToCopy), ignored))
    {
      hide StepDone, Policy.SortByPriority, Merge;
      MergeNothing(out.blocksToCopy);
    }

    lemma UnderwayIs(rest: multiset<Entry>, left: seq<SequenceGroup>, place: Place, scheduled: seq<ScheduledGroup>, requests: set<int>)
      requires ManagerOk() && InOrder(rest + Tagged(left, place) + InThisStep(scheduled))
      requires Requests(rest + Tagged(left, place) + InThisStep(scheduled)) == requests
      ensures Underway(rest, left, place, scheduled, requests)
    {
    }

    /** The end of `_schedule_default` when no prompt was started (721-770). */
    method StepDecodes(waitingLeft: seq<SequenceGroup>, ignored: seq<SequenceGroup>, budget: SchedulingBudget, now: real, now': real)
      returns (r: Result<SchedulerOutputs>,
               ghost kept: seq<SequenceGroup>, ghost victims: seq<SequenceGroup>, ghost back: nat)
      requires blockManager.blockSize > 0
      requires ManagerOk() && InOrder(Roster(waitingLeft, running, swapped))
      requires SumMax(running) <= maxNumSeqs <= maxNumBatchedTokens
      requires budget.tokenBudget == maxNumBatchedTokens && budget.maxNumSeqs == maxNumSeqs
      requires budget.requestIdsNumBatchedTokens == {} && budget.numBatchedTokens == 0
      requires budget.requestIdsNumCurrSeqs == RequestIds(running) && budget.numCurrSeqs == SumMax(running)
      modifies this`waiting, this`running, this`swapped
      modifies blockManager`blockTables, blockManager`ledger, blockManager.gpu, blockManager.gpu.blocks
      modifies blockManager.cpu, blockManager.cpu.blocks
      modifies budget`requestIdsNumBatchedTokens, budget`numBatchedTokens, budget`requestIdsNumCurrSeqs, budget`numCurrSeqs
      ensures kept == Stayed(old(Ahead(running, now))) && victims == Gone(old(Ahead(running, now)))
      ensures r.Err? && r.error == NoSwapSpace <==> old(WillLackSpace(now))
      ensures r.Err? && r.error == AssertionError <==> old(WillStumble(now, now'))
      ensures r.Err? ==>
        || (r.error == NoSwapSpace && exists g | g in old(running) :: g.MaxNumRunningSeqs() != 1)
        || (r.error == AssertionError && exists g | g in old(swapped) :: |Unfinished(g.seqs)| >= 2)
      ensures r.Ok? ==>
        && var out := r.value;
        && Launched([], out.scheduled)
        && Requests(Executing(waiting, [], out.scheduled, swapped)) == old(Requests(Roster(waitingLeft, running, swapped)))
        && out.numBatchedTokens == SumLive(Groups(out.scheduled)) <= maxNumBatchedTokens
        && out.numPrefillGroups == 0 && out.ignored == ignored
        && (victims == [] ==> NextStays(out))
        && (out.blocksToSwapIn == map[] || out.blocksToSwapOut == map[])
        && Worked(Queues(waitingLeft, old(running), old(swapped)), State(), now, now', kept, victims, back)
        && (forall s | s in out.scheduled :: s.chunk == 1)
        && StepTold(old(blockManager.ledger), now', old(swapped), kept, victims, back, out)
    {
      hide ManagerOk, EntriesOk, Requests, Groups, SumMax, SumLive, RequestIds, Split, BackSoFar, Worked;
      hide Roster, Executing, SequenceGroup.MaxNumRunningSeqs, Unfinished, Policy.SortByPriority, DecodesTold, StepTold, Merge;
      hide Stayed, Gone, Scheduler.Ahead, Scheduler.WillLackSpace, Scheduler.WillStumble;
      GroupsOk(waitingLeft, running, swapped);
      var ran, swappedIn, swappedLeft;
      ran, swappedIn, swappedLeft, kept, victims, back := ScheduleDecodes(waitingLeft, budget, now, now');
      if ran.Err? {
        return Err(ran.error), kept, victims, back;
      }
      var out := ran.value;
      StepSums(now, running, kept, victims, out, swappedIn.decode);
      StepTokens(now, running, kept, victims, out, swappedIn.decode);
      assert budget.numBatchedTokens <= maxNumBatchedTokens;
      assert budget.numCurrSeqs <= maxNumSeqs;
      StepWorked(waitingLeft, running, swapped, now, now', kept, victims, back, out, swappedLeft, swappedIn);
      PutBack(out.preempted, waitingLeft, out.decode, swappedIn.decode, swappedLeft + out.swappedOut);
      TransfersTold(old(blockManager.ledger), now', swapped, kept, victims, back, out, swappedIn, budget.numBatchedTokens, ignored);
      waiting := Reversed(out.preempted) + waitingLeft;
      running := Groups(out.decode) + Groups(swappedIn.decode);
      swapped := swappedLeft + out.swappedOut;
      r := Ok(SchedulerOutputs(out.decode + swappedIn.decode, 0, budget.numBatchedTokens, swappedIn.blocksToSwapIn,
                               out.blocksToSwapOut, Merge(out.blocksToCopy, swappedIn.blocksToCopy), ignored));
    }

    /** `_schedule_prefills` as the first part of a step. */
    method FirstPrefills(budget: SchedulingBudget, passedDelay: nat -> bool)
      returns (left: seq<SequenceGroup>, scheduled: seq<ScheduledGroup>, ignored: seq<SequenceGroup>, ghost taken: nat)
      requires ManagerOk() && InOrder(Roster(waiting, running, swapped))
      requires budget.requestIdsNumBatchedTokens == {} && budget.requestIdsNumCurrSeqs == RequestIds(running)
      modifies blockManager`blockTables, blockManager`ledger, blockManager.gpu, blockManager.gpu.blocks
      modifies budget`requestIdsNumBatchedTokens, budget`numBatchedTokens, budget`requestIdsNumCurrSeqs, budget`numCurrSeqs
      ensures CurrentLimits().blockSize > 0 && TakenSoFar(CurrentLimits(), waiting, taken, left, scheduled, ignored)
      ensures ManagerOk() && InOrder(Executing(left, running, scheduled, swapped))
      ensures Requests(Executing(left, running, scheduled,
                                 swapped)) == old(Requests(Roster(waiting, running, swapped))) - RequestIds(ignored)
      ensures RequestIds(ignored) <= old(Requests(Roster(waiting, running, swapped)))
      ensures budget.numCurrSeqs == old(budget.numCurrSeqs) + SumMax(Groups(scheduled))
      ensures budget.numBatchedTokens == old(budget.numBatchedTokens) + SumTokens(Groups(scheduled))
      ensures scheduled != [] ==> budget.numCurrSeqs <= budget.maxNumSeqs && budget.numBatchedTokens <= budget.tokenBudget
      ensures scheduled == [] ==> unchanged(budget) && unchanged(blockManager) && unchanged(blockManager.gpu)
      ensures Granting(old(blockManager.ledger), blockManager.ledger, waiting)
      ensures scheduled != [] <==> SomeStarts(CurrentLimits(), waiting, passedDelay, old(SpaceNow(budget)))
      ensures Halts(CurrentLimits(), waiting, passedDelay, taken, SpaceNow(budget))
    {
      hide ManagerOk, Requests, RequestIds, Groups, SumMax, SumTokens, Halts, TakenSoFar, EntriesOk, TooLong, CanStart, SomeStarts;
      hide Scheduler.SpaceNow, Granting;
      ghost var rest := Tagged(running, InRunning) + Tagged(swapped, InSwapped);
      RosterApart(waiting, running, swapped);
      PrefillRoster(waiting, running, swapped, []);
      left, scheduled, ignored, taken := SchedulePrefills(waiting, budget, passedDelay, rest);
      UnderwayFacts(rest, left, InWaiting, scheduled, Requests(Roster(waiting, running, swapped)) - RequestIds(ignored));
      PrefillRoster(left, running, swapped, scheduled);
    }

    /** `_schedule_default` (683-770).  Every assertion in it holds except the one on swapped groups of several sequences
        (548), which fails if and only if such a group would return; the other error, the lack of swap space, is raised if
        and only if the groups that have to be swapped out hold more blocks than the CPU has left.  Requests are neither
        lost nor duplicated, and the bound on running sequences that the step relies on holds again for the next one. */
    method Schedule(passedDelay: nat -> bool, now: real, now': real)
      returns (r: Result<SchedulerOutputs>, ghost idle: seq<SequenceGroup>, ghost taken: nat,
               ghost kept: seq<SequenceGroup>, ghost victims: seq<SequenceGroup>, ghost back: nat)
      requires Valid()
      modifies this`waiting, this`running, this`swapped
      modifies blockManager`blockTables, blockManager`ledger, blockManager.gpu, blockManager.gpu.blocks
      modifies blockManager.cpu, blockManager.cpu.blocks
      ensures r.Ok? && r.value.numPrefillGroups > 0 <==> old(WillStart(passedDelay))
      ensures r.Err? && r.error == NoSwapSpace <==> old(!WillStart(passedDelay) && WillLackSpace(now))
      ensures r.Err? && r.error == AssertionError <==> old(WillStumble(now, now'))
      ensures r.Ok? && OneEach(old(waiting)) && Exact(old(blockManager.ledger)) ==> Exact(blockManager.ledger)
      ensures !old(WillStart(passedDelay)) ==> kept == Stayed(old(Ahead(running, now))) && victims == Gone(old(Ahead(running, now)))
      ensures r.Err? ==>
        || (r.error == NoSwapSpace && exists g | g in old(running) :: g.MaxNumRunningSeqs() != 1)
        || (r.error == AssertionError && exists g | g in old(swapped) :: |Unfinished(g.seqs)| >= 2)
      ensures r.Ok? ==>
        && var out := r.value;
        && Launched(idle, out.scheduled)
        && Requests(Executing(waiting, idle, out.scheduled, swapped))
           == old(Requests(Roster(waiting, running, swapped))) - RequestIds(out.ignored)
        && RequestIds(out.ignored) <= old(Requests(Roster(waiting, running, swapped)))
        && out.numBatchedTokens <= maxNumBatchedTokens
        && (out.blocksToSwapIn == map[] || out.blocksToSwapOut == map[])
        && CurrentLimits().blockSize > 0 && (old(swapped) == [] ==> Judged(old(waiting), passedDelay, taken, out, old(SpaceLeft(0))))
        && (old(swapped) != [] ==> out.ignored == [])
        && (if out.numPrefillGroups > 0 then
              && out.numPrefillGroups == |out.scheduled| && out.numBatchedTokens == SumTokens(Groups(out.scheduled))
              && AdmitStep(CurrentLimits(), old(State()), State(), taken)
              && idle == old(running) && out.scheduled == Started(CurrentLimits(), old(waiting)[..taken])
              && TablesKept(old(blockManager.ledger.tables), blockManager.ledger.tables)
              && out.blocksToSwapIn == map[] == out.blocksToSwapOut && out.blocksToCopy == map[]
            else
              && out.numBatchedTokens == SumLive(Groups(out.scheduled))
              && (victims == [] ==> NextStays(out))
              && DecodeStep(CurrentLimits(), old(State()), State(), taken, now, now', kept, victims, back)
              && idle == [] && (forall s | s in out.scheduled :: s.chunk == 1)
              && StepTold(old(blockManager.ledger), now', old(swapped), kept, victims, back, out))
    {
      hide ManagerOk, EntriesOk, Requests, Groups, SumMax, RequestIds, TakenSoFar, Worked, AdmitStep, DecodeStep;
      hide CanStart, Roster, Executing, Tagged, InThisStep, Scheduler.CurrentLimits, TooLong;
      hide SumTokens, SumLive, Scheduler.Judged, Scheduler.NextStays, Scheduler.SpaceLeft, Halts;
      hide SequenceGroup.MaxNumRunningSeqs, Unfinished, StepTold, Policy.SortByPriority, Scheduler.WillStumble;
      hide Stayed, Gone, Scheduler.Ahead, Scheduler.WillLackSpace, SomeStarts, Scheduler.SpaceNow, TablesKept, Exact, OneEach;
      hide Scheduler.WillStart, Scheduler.Underway, Started, GroupOk, Unique;
      SizeOk();
      NothingSwapped(now, now');
      LimitsOk();
      ghost var q, limits := State(), CurrentLimits();
      RosterApart(waiting, running, swapped);
      idle, kept, victims, back := running, [], [], 0;
      RunningFirst(waiting, running, swapped);
      var budget := StartBudget(Tagged(waiting, InWaiting) + Tagged(swapped, InSwapped));
      var waitingLeft, prefills, ignored := waiting, [], [];
      taken := 0;
      NoneTaken(limits, waiting, running, swapped);
      SpaceAtFirst(budget, passedDelay);
      ghost var space := SpaceLeft(0);
      if swapped == [] {
        waitingLeft, prefills, ignored, taken := FirstPrefills(budget, passedDelay);
      }
      if |prefills| == 0 {
        NoneTaken(limits, waitingLeft, running, swapped);
        NothingSwapped(now, now');
        r, kept, victims, back := StepDecodes(waitingLeft, ignored, budget, now, now');
        idle := [];
        if r.Ok? {
          if q.swapped == [] {
            JudgedIs(q.waiting, passedDelay, taken, waitingLeft, prefills, r.value, space, space);
          }
          DecodeStepIs(limits, q, State(), taken, now, now', kept, victims, back, waitingLeft, ignored);
          ToldExact(old(blockManager.ledger), now', old(swapped), kept, victims, back, r.value);
        }
        return;
      }
      assert budget.numBatchedTokens <= maxNumBatchedTokens;
      assert budget.numCurrSeqs <= maxNumSeqs;
      AdmitStepIs(limits, q, taken, waitingLeft, prefills, ignored);
      waiting := waitingLeft;
      running := running + Groups(prefills);
      r := Ok(SchedulerOutputs(prefills, |prefills|, budget.numBatchedTokens, map[], map[], map[], ignored));
      SpaceAfter(budget);
      JudgedIs(q.waiting, passedDelay, taken, waitingLeft, prefills, r.value, space, SpaceNow(budget));
    }

    lemma SpaceAfter(budget: SchedulingBudget)
      requires budget.tokenBudget == maxNumBatchedTokens && budget.maxNumSeqs == maxNumSeqs && budget.numCurrSeqs == SumMax(running)
      ensures SpaceNow(budget) == SpaceLeft(budget.numBatchedTokens)
    {
    }

    /** The tables are sound, and sharing stays inside one request. */
    ghost predicate Ready()
      reads this`owner, blockManager, blockManager.gpu, blockManager.cpu
    {
      var tables, gpu, cpu := blockManager.blockTables, blockManager.gpu.blocks, blockManager.cpu.blocks;
      && Sound(blockManager.ledger, gpu, cpu) && blockManager.ledger.tables == tables && WellFormed(tables, gpu, cpu)
      && gpu !! cpu && NumberedOn(gpu) && NumberedOn(cpu) && Unshared(tables, owner)
    }

    lemma ManagerReady()
      requires ManagerOk()
      ensures Ready()
    {
    }

    lemma ValidReady()
      requires Valid()
      ensures Ready() && InOrder(Roster(waiting, running, swapped))
    {
      hide ManagerOk, InOrder;
      ManagerReady();
    }

    lemma ValidSize()
      requires Valid()
      ensures blockManager.blockSize > 0
    {
      hide InOrder;
    }

    lemma LaunchedReady(idle: seq<SequenceGroup>, scheduled: seq<ScheduledGroup>)
      requires Launched(idle, scheduled)
      ensures Ready() && InOrder(Executing(waiting, idle, scheduled, swapped)) && running == idle + Groups(scheduled)
    {
      hide ManagerOk, InOrder;
      ManagerReady();
    }

    /** The dictionaries of a decoding step are told of the groups that came back. */
    lemma ToldBack(start: Ledger<PhysicalTokenBlock>, q: Queues, l: Limits, taken: nat, now: real, now': real, kept: seq<SequenceGroup>,
                   victims: seq<SequenceGroup>, back: nat, out: SchedulerOutputs)
      requires l.blockSize > 0 && DecodeStep(l, q, State(), taken, now, now', kept, victims, back)
      requires StepTold(start, now', q.swapped, kept, victims, back, out) && running == Groups(out.scheduled)
      requires forall s | s in out.scheduled :: s.chunk == 1
      ensures WorkedOff(q, State(), out.scheduled, taken, now, now', kept, victims, back)
      ensures StepDone(start, blockManager.ledger, kept, victims, CameBack(q, now', victims, back), out.blocksToSwapIn, out.blocksToSwapOut,
                       out.blocksToCopy, owner)
    {
      hide StepDone, Policy.SortByPriority, Recomputed, SwappedAway, Returned, Groups;
    }

    /** When every running request has one sample and the counts are exact, the count of running sequences is right after each
        call of `_schedule_running`. */
    lemma SinglesCountRight(now: real)
      requires Valid() && Exact(blockManager.ledger) && AllSingle(running)
      ensures var turns := Ahead(running, now); SumMax(running) - SumMax(Pressed(turns)) == SumMax(Stayed(turns))
    {
      hide ManagerOk, InOrder, Exact, RunsAlone, SumMax, Pressed, Stayed, TurnsOf, Policy.SortByPriority;
      SizeOk();
      Policy.SortIsStable(now, running, now);
      SortKeepsSums(now, running);
      var sorted := Policy.SortByPriority(now, running);
      forall g | g in sorted ensures RunsAlone(blockManager.ledger, g) {
        assert g in multiset(sorted) && g in running;
        OneRunsAlone(g);
      }
      AloneCountRight(blockManager.ledger, sorted, |blockManager.gpu.freeBlocks|, blockManager.blockSize);
    }

    lemma OneRunsAlone(g: SequenceGroup)
      requires Valid() && Exact(blockManager.ledger) && Single(g) && g in running
      ensures RunsAlone(blockManager.ledger, g)
    {
      hide BlockSpaceManager.Valid, Covered, WellFormed, Unshared, SumMax, Given, RunsAlone, DistinctIds, Unfinished, Exact;
      var l, e, s := blockManager.ledger, Entry(g, InRunning), g.seqs[0];
      TaggedMembers(running, InRunning);
      assert e in Tagged(running, InRunning) && e in Roster(waiting, running, swapped);
      assert EntryOk(e, blockManager.blockTables, blockManager.gpu.blocks, blockManager.cpu.blocks, blockManager.blockSize, owner);
      assert s in g.seqs && Housed(s, blockManager.blockTables, blockManager.gpu.blocks, blockManager.blockSize);
      TabledCounted(s.id);
      AloneGives(l, g);
    }

    lemma TabledCounted(id: int)
      requires Valid() && id in blockManager.blockTables
      ensures id in blockManager.ledger.tables && blockManager.ledger.tables[id] == blockManager.blockTables[id]
      ensures forall b | b in blockManager.ledger.tables[id] :: b in blockManager.ledger.refs
    {
    }

    lemma JudgedRefused(queue: seq<SequenceGroup>, passedDelay: nat -> bool, taken: nat, out: SchedulerOutputs, space: Space)
      requires CurrentLimits().blockSize > 0 && Judged(queue, passedDelay, taken, out, space)
      ensures taken <= |queue| && out.ignored == Refused(CurrentLimits(), queue[..taken])
    {
    }

    lemma JudgedIs(queue: seq<SequenceGroup>, passedDelay: nat -> bool, taken: nat, left: seq<SequenceGroup>,
                   prefills: seq<ScheduledGroup>, out: SchedulerOutputs, space: Space, space': Space)
      requires CurrentLimits().blockSize > 0 && TakenSoFar(CurrentLimits(), queue, taken, left, prefills, out.ignored)
      requires Halts(CurrentLimits(), queue, passedDelay, taken, space')
      requires space' == if out.numPrefillGroups > 0 then SpaceLeft(out.numBatchedTokens) else space
      ensures Judged(queue, passedDelay, taken, out, space)
    {
    }

    lemma SpaceAtFirst(budget: SchedulingBudget, passedDelay: nat -> bool)
      requires blockManager.blockSize > 0
      requires budget.numBatchedTokens == 0 && budget.tokenBudget == maxNumBatchedTokens
      requires budget.numCurrSeqs == SumMax(running) && budget.maxNumSeqs == maxNumSeqs
      ensures CurrentLimits().blockSize > 0
      ensures SpaceNow(budget) == SpaceLeft(0)
      ensures WillStart(passedDelay) <==> swapped == [] && SomeStarts(CurrentLimits(), waiting, passedDelay, SpaceNow(budget))
    {
    }

    lemma NothingSwapped(now: real, now': real)
      requires blockManager.blockSize > 0
      ensures swapped == [] ==> !WillStumble(now, now')
    {
      if swapped == [] {
        NoSwapped(TheMemory(), blockManager.blockTables, Policy.SortByPriority(now, running), blockManager.watermarkBlocks,
                  maxNumBatchedTokens, maxNumSeqs, blockManager.blockSize);
      }
    }

    lemma GroupsOk(waiting: seq<SequenceGroup>, running: seq<SequenceGroup>, swapped: seq<SequenceGroup>)
      requires InOrder(Roster(waiting, running, swapped))
      ensures forall g | g in running :: GroupOk(g)
    {
      TaggedMembers(running, InRunning);
      forall g | g in running ensures GroupOk(g) {
        var e := Entry(g, InRunning);
        assert e in Tagged(running, InRunning);
        assert e in Roster(waiting, running, swapped);
        assert EntryOk(e, blockManager.blockTables, blockManager.gpu.blocks, blockManager.cpu.blocks, blockManager.blockSize, owner);
      }
    }
  }

  lemma PositiveSize(m: BlockSpaceManager)
    requires m.Valid()
    ensures m.blockSize > 0
  {
  }
}
