/** `BlockSpaceManagerV1` without prefix caching and without a sliding window (vllm/core/block_manager_v1.py). */
module BlockManager {
  import opened Wrappers
  import opened Blocks
  import opened Paging
  import opened Sequences
  import opened Swapping
  import opened UncachedAllocator

  class BlockSpaceManager {
    const blockSize: nat
    const watermarkBlocks: nat
    const gpu: UncachedBlockAllocator
    const cpu: UncachedBlockAllocator
    var blockTables: map<int, BlockTable>

    ghost var ledger: Ledger<PhysicalTokenBlock>  // the tables, and every block's count, as a value

    ghost predicate Valid()
      reads this, gpu, gpu.blocks, cpu, cpu.blocks
    {
      && Counted()
      && ledger.tables == blockTables
      && WellFormed(blockTables, gpu.blocks, cpu.blocks)
    }

    ghost predicate Counted()
      reads this`ledger, gpu, gpu.blocks, cpu, cpu.blocks
    {
      && blockSize > 0 && gpu.device == GPU && cpu.device == CPU
      && CountedOn(gpu, cpu)
    }

    /** The allocators agree with the ledger, and the ledger's counts cover its tables. */
    ghost predicate CountedOn(a: UncachedBlockAllocator, b: UncachedBlockAllocator)
      reads this`ledger, a, a.blocks, b, b.blocks
    {
      && a != b && a.blocks !! b.blocks
      && a.Valid() && b.Valid()
      && ledger.refs.Keys == a.blocks + b.blocks
      && (forall c | c in a.blocks :: c.refCount == ledger.refs[c])
      && (forall c | c in b.blocks :: c.refCount == ledger.refs[c])
      && Covered(ledger)
    }

    constructor (blockSize: nat, numGpuBlocks: nat, numCpuBlocks: nat, watermarkBlocks: nat)
      requires blockSize > 0
      ensures gpu.Numbered() && gpu.device == GPU && cpu.Numbered() && cpu.device == CPU
      ensures Valid() && Exact(ledger) && blockTables == map[]
      ensures fresh(gpu) && fresh(cpu) && fresh(gpu.blocks) && fresh(cpu.blocks)
      ensures |gpu.freeBlocks| == gpu.numBlocks == numGpuBlocks && |cpu.freeBlocks| == cpu.numBlocks == numCpuBlocks
      ensures this.blockSize == blockSize && this.watermarkBlocks == watermarkBlocks
    {
      this.blockSize, this.watermarkBlocks := blockSize, watermarkBlocks;
      var gpuBlocks := new UncachedBlockAllocator(GPU, numGpuBlocks);
      var cpuBlocks := new UncachedBlockAllocator(CPU, numCpuBlocks);
      gpu, cpu, blockTables := gpuBlocks, cpuBlocks, map[];
      ledger := Ledger(map[], map b: PhysicalTokenBlock | b in gpuBlocks.blocks + cpuBlocks.blocks :: 0);
      new;
      forall b | b in ledger.refs ensures Slack(ledger, b) == 0 {
        assert Holders(blockTables, b) == {};
      }
    }

    function NumPromptBlocks(g: SequenceGroup): nat
      requires blockSize > 0 && g.WithStatus(Waiting) != []
    {
      NumBlocks(|g.WithStatus(Waiting)[0].tokens|, blockSize)
    }

    /** `can_allocate` (248-266). */
    method CanAllocate(g: SequenceGroup) returns (status: AllocStatus)
      requires Valid() && g.WithStatus(Waiting) != []
      ensures status.Never? <==> gpu.numBlocks < NumPromptBlocks(g) + watermarkBlocks
      ensures status.CanAllocateNow? ==> NumPromptBlocks(g) + watermarkBlocks <= |gpu.freeBlocks|
      ensures status.Later? ==> |gpu.freeBlocks| < NumPromptBlocks(g) + watermarkBlocks
    {
      var numRequired := NumPromptBlocks(g);
      if gpu.numBlocks - numRequired < watermarkBlocks {
        return Never;
      }
      return if |gpu.freeBlocks| - numRequired >= watermarkBlocks then CanAllocateNow else Later;
    }

    /** The loop of `allocate` (277-291): `n` blocks off the free list, each counted `count` times. */
    method TakeBlocks(n: nat, count: nat) returns (r: Result<BlockTable>)
      requires gpu.Valid() && count > 0
      modifies gpu, gpu.blocks
      ensures gpu.Valid()
      ensures forall b | b in gpu.blocks :: b.refCount >= old(b.refCount)
      ensures r.Ok? <==> n <= |old(gpu.freeBlocks)|
      ensures r.Err? ==> r.error == OutOfMemory
      ensures r.Ok? ==>
        && |r.value| == n && PoppedFrom(r.value, old(gpu.freeBlocks)) && Distinct(r.value)
        && (forall b | b in r.value :: b in gpu.blocks && old(b.refCount) == 0)
        && gpu.freeBlocks == old(gpu.freeBlocks)[..|old(gpu.freeBlocks)| - n]
        && (forall b | b in gpu.blocks :: b.refCount == if b in r.value then count else old(b.refCount))
    {
      ghost var free := gpu.freeBlocks;
      var table: BlockTable := [];
      for i := 0 to n
        invariant gpu.Valid() && i <= |free|
        invariant |table| == i && PoppedFrom(table, free) && gpu.freeBlocks == free[..|free| - i]
        invariant forall b | b in gpu.blocks :: b.refCount == if b in table then count else old(b.refCount)
        invariant forall b | b in free :: old(b.refCount) == 0
      {
        var got := gpu.Allocate();
        if got.Err? {
          return Err(got.error);
        }
        got.value.refCount := count;
        table := table + [got.value];
      }
      return Ok(table);
    }

    /** `allocate` (268-295).  The waiting members share the last free blocks; the count of each block is the
        size of the whole group.  On an error the blocks taken so far are lost. */
    method Allocate(g: SequenceGroup) returns (r: Result<()>)
      requires Valid() && g.WithStatus(Waiting) != []
      modifies this`blockTables, this`ledger, gpu, gpu.blocks
      ensures r.Ok? ==> Valid()
      ensures r.Ok? <==> NumPromptBlocks(g) <= |old(gpu.freeBlocks)|
      ensures r.Err? ==> r.error == OutOfMemory && unchanged(this)
      ensures r.Ok? ==>
        && var n := NumPromptBlocks(g);
        && var waiting := Ids(g.WithStatus(Waiting));
        && waiting[0] in blockTables && var table := blockTables[waiting[0]];
        && |table| == n && PoppedFrom(table, old(gpu.freeBlocks))
        && ledger == Granted(old(ledger), waiting, table, |g.seqs|)
        && gpu.freeBlocks == old(gpu.freeBlocks)[..|old(gpu.freeBlocks)| - n]
    {
      hide Covered, Slack, Holders, WellFormed, TableOk, Share, UncachedBlockAllocator.Valid;
      var waiting := Ids(g.WithStatus(Waiting));
      SelectIsSubsequence(g.seqs, Waiting);
      var table :- TakeBlocks(NumPromptBlocks(g), |g.seqs|);
      GrantKeepsSound(ledger, gpu.blocks, cpu.blocks, waiting, table, |g.seqs|);
      blockTables := Share(blockTables, waiting, table);
      ledger := Granted(ledger, waiting, table, |g.seqs|);
      return Ok(());
    }

    /** The last step of `append_slots` when it needs a block (395-396 and 414-417): the new block follows the
        table, or replaces its shared last block, which loses one reference. */
    method TakeLastBlock(id: int, n: nat) returns (r: Result<PhysicalTokenBlock>)
      requires Valid() && id in blockTables && LiesIn(blockTables[id], gpu.blocks)
      requires n <= |blockTables[id]| ==> blockTables[id] != []
      requires NeedsBlock(ledger, id, n)
      modifies this`blockTables, this`ledger, gpu, gpu.blocks
      ensures Valid()
      ensures r.Ok? <==> old(gpu.freeBlocks) != []
      ensures r.Err? ==> r.error == OutOfMemory && unchanged(this) && unchanged(gpu) && unchanged(gpu.blocks)
      ensures r.Ok? ==>
        && r.value == Last(old(gpu.freeBlocks)) && gpu.freeBlocks == old(gpu.freeBlocks)[..|old(gpu.freeBlocks)| - 1]
        && ledger == Recounted(old(ledger), old(ledger).tables[id := AppendedTable(old(ledger), id, n, r.value)])
    {
      hide Covered, Slack, Holders, WellFormed, TableOk, Recounted, UncachedBlockAllocator.Valid;
      var table := blockTables[id];
      var newBlock :- gpu.Allocate();
      AppendRecounts(ledger, gpu.blocks, cpu.blocks, id, n, newBlock);
      if |table| < n {
        blockTables := blockTables[id := table + [newBlock]];
      } else {
        blockTables := blockTables[id := table[..|table| - 1] + [newBlock]];
        var freed := gpu.Free(Last(table));
        assert freed.Ok?;
      }
      ledger := Recounted(ledger, blockTables);
      return Ok(newBlock);
    }

    /** `append_slots` (374-418): room for the newest token of a sequence on the GPU.  A shared last block is
        replaced by an unused one (copy on write), which is what the returned dictionary tells the worker. */
    method AppendSlots(s: Sequence) returns (r: Result<map<int, seq<int>>>)
      requires Valid()
      requires s.id in blockTables ==> LiesIn(blockTables[s.id], gpu.blocks)
      modifies this`blockTables, this`ledger, gpu, gpu.blocks
      ensures Valid()
      ensures r.Err? ==> unchanged(this) && unchanged(gpu) && unchanged(gpu.blocks)
      ensures r == AppendOutcome(old(ledger), s.id, NumBlocks(|s.tokens|, blockSize), old(gpu.freeBlocks))
      ensures r.Ok? ==>
        && var l := old(ledger);
        && var n := NumBlocks(|s.tokens|, blockSize);
        && (if NeedsBlock(l, s.id, n) then
              && ledger == Recounted(l, l.tables[s.id := AppendedTable(l, s.id, n, Last(old(gpu.freeBlocks)))])
              && gpu.freeBlocks == old(gpu.freeBlocks)[..|old(gpu.freeBlocks)| - 1]
            else
              ledger == l && gpu.freeBlocks == old(gpu.freeBlocks))
    {
      hide Covered, Slack, Holders, WellFormed, TableOk, Recounted, AppendedTable, UncachedBlockAllocator.Valid;
      if s.id !in blockTables {
        return Err(KeyError);
      }
      var table := blockTables[s.id];
      var n := NumBlocks(|s.tokens|, blockSize);
      if |table| < n {
        if |table| != n - 1 {
          return Err(AssertionError);
        }
        var _ :- TakeLastBlock(s.id, n);
        return Ok(map[]);
      }
      if table == [] {
        return Err(IndexError);
      }
      var lastBlock := Last(table);
      if lastBlock.refCount == 1 {
        return Ok(map[]);
      }
      var newBlock :- TakeLastBlock(s.id, n);
      return Ok(map[lastBlock.blockNumber := [newBlock.blockNumber]]);
    }

    /** What `append_slots` returns or raises for a sequence of `n` logical blocks. */
    ghost function AppendOutcome(l: Ledger<PhysicalTokenBlock>, id: int, n: nat, free: BlockTable)
      : Result<map<int, seq<int>>>
      requires id in l.tables ==> forall b | b in l.tables[id] :: b in l.refs
    {
      if id !in l.tables then Err(KeyError)
      else if |l.tables[id]| + 1 < n then Err(AssertionError)
      else if |l.tables[id]| == 0 && n == 0 then Err(IndexError)
      else if !NeedsBlock(l, id, n) then Ok(map[])
      else if free == [] then Err(OutOfMemory)
      else if |l.tables[id]| < n then Ok(map[])
      else Ok(map[Last(l.tables[id]).blockNumber := [Last(free).blockNumber]])
    }

    /** The loop of `fork` (430-431): one more reference for each block of a table. */
    method AddReferences(table: BlockTable)
      requires gpu.Valid() && cpu.Valid() && gpu.blocks !! cpu.blocks
      requires forall b | b in table :: b in gpu.blocks + cpu.blocks && b.refCount > 0
      modifies gpu.blocks, cpu.blocks
      ensures gpu.Valid() && cpu.Valid()
      ensures forall b | b in gpu.blocks :: b.refCount == old(b.refCount) + if b in table then 1 else 0
      ensures forall b | b in cpu.blocks :: b.refCount == old(b.refCount) + if b in table then 1 else 0
    {
      var rest := set b | b in table;
      while rest != {}
        invariant rest <= Elements(table) && gpu.Valid() && cpu.Valid()
        invariant forall b | b in gpu.blocks :: b.refCount == old(b.refCount) + if b in table && b !in rest then 1 else 0
        invariant forall b | b in cpu.blocks :: b.refCount == old(b.refCount) + if b in table && b !in rest then 1 else 0
      {
        var block :| block in rest;
        block.refCount := block.refCount + 1;
        rest := rest - {block};
      }
    }

    /** The loop of `_free_block_table` (528-532): one reference less for each block of a table.  None of them
        was free, so no allocator reports a double free. */
    method DropReferences(table: BlockTable)
      requires gpu.Valid() && cpu.Valid() && gpu.blocks !! cpu.blocks && gpu != cpu
      requires gpu.device == GPU && cpu.device == CPU
      requires forall b | b in table :: b in gpu.blocks + cpu.blocks && b.refCount > 0
      modifies gpu, cpu, gpu.blocks, cpu.blocks
      ensures gpu.Valid() && cpu.Valid()
      ensures forall b | b in gpu.blocks :: b.refCount == old(b.refCount) - if b in table then 1 else 0
      ensures forall b | b in cpu.blocks :: b.refCount == old(b.refCount) - if b in table then 1 else 0
      ensures LiesIn(table, gpu.blocks) ==> cpu.freeBlocks == old(cpu.freeBlocks)
    {
      var rest := set b | b in table;
      while rest != {}
        invariant rest <= Elements(table) && gpu.Valid() && cpu.Valid()
        invariant forall b | b in gpu.blocks :: b.refCount == old(b.refCount) - if b in table && b !in rest then 1 else 0
        invariant forall b | b in cpu.blocks :: b.refCount == old(b.refCount) - if b in table && b !in rest then 1 else 0
        invariant LiesIn(table, gpu.blocks) ==> cpu.freeBlocks == old(cpu.freeBlocks)
      {
        var block :| block in rest;
        assert block in gpu.blocks + cpu.blocks;
        var freed;
        if block.device == GPU {
          freed := gpu.Free(block);
        } else {
          freed := cpu.Free(block);
        }
        assert freed.Ok?;
        rest := rest - {block};
      }
    }

    /** `fork` (420-431): the child starts with its parent's blocks, each counted once more.  A table that it had is
        overwritten, and its blocks stay counted. */
    method Fork(parent: int, child: int) returns (r: Result<()>)
      requires Valid()
      modifies this`blockTables, this`ledger, gpu.blocks, cpu.blocks
      ensures Valid()
      ensures r.Ok? <==> parent in old(blockTables)
      ensures r.Err? ==> r.error == KeyError && unchanged(this) && unchanged(gpu.blocks) && unchanged(cpu.blocks)
      ensures r.Ok? ==> ledger == ForkedLedger(old(ledger), parent, child)
    {
      hide Covered, Slack, Holders, WellFormed, TableOk, UncachedBlockAllocator.Valid;
      if parent !in blockTables {
        return Err(KeyError);
      }
      ForkKeepsSound(ledger, gpu.blocks, cpu.blocks, parent, child);
      ghost var l := ledger;
      AddReferences(blockTables[parent]);
      blockTables := blockTables[child := blockTables[parent]];
      ledger := ForkedLedger(l, parent, child);
      return Ok(());
    }

    /** `_free_block_table` (519-532), for the table that the ledger records under `id`. */
    method FreeBlockTable(ghost id: int, table: BlockTable)
      requires Counted() && id in ledger.tables && ledger.tables[id] == table
      requires LiesIn(table, gpu.blocks + cpu.blocks)
      modifies this`ledger, gpu, cpu, gpu.blocks, cpu.blocks
      ensures Counted() && ledger == Recounted(old(ledger), old(ledger).tables - {id})
      ensures LiesIn(table, gpu.blocks) ==> cpu.freeBlocks == old(cpu.freeBlocks)
    {
      hide Covered, Slack, Holders, Recounted, UncachedBlockAllocator.Valid;
      FreeRecounts(ledger, id);
      DropReferences(table);
      ledger := Recounted(ledger, ledger.tables - {id});
    }

    /** `free` (534-540). */
    method Free(id: int)
      requires Valid()
      modifies this`blockTables, this`ledger, gpu, cpu, gpu.blocks, cpu.blocks
      ensures Valid()
      ensures id !in old(blockTables) ==> unchanged(this) && unchanged(gpu) && unchanged(cpu)
      ensures ledger == if id in old(blockTables) then Recounted(old(ledger), old(blockTables) - {id}) else old(ledger)
      ensures id in old(blockTables) && LiesIn(old(blockTables)[id], gpu.blocks) ==> cpu.freeBlocks == old(cpu.freeBlocks)
    {
      hide Covered, Slack, Holders, Recounted, UncachedBlockAllocator.Valid;
      if id !in blockTables {
        return;
      }
      assert TableOk(blockTables[id], gpu.blocks, cpu.blocks);
      FreeBlockTable(id, blockTables[id]);
      blockTables := blockTables - {id};
    }

    /** The loop of `reset` (543-544). */
    method FreeAllTables()
      requires Valid()
      modifies this`ledger, gpu, cpu, gpu.blocks, cpu.blocks
      ensures Counted() && ledger == Recounted(old(ledger), map[]) && ledger.tables == map[]
    {
      hide Covered, Slack, Holders, Recounted, UncachedBlockAllocator.Valid;
      var rest: set<int> := blockTables.Keys;
      RecountNothing(ledger);
      while exists id :: id in rest
        decreases rest
        invariant Counted() && rest <= blockTables.Keys
        invariant ledger.tables == blockTables - (blockTables.Keys - rest)
        invariant ledger == Recounted(old(ledger), ledger.tables)
      {
        var id :| id in rest;
        assert TableOk(blockTables[id], gpu.blocks, cpu.blocks);
        RecountTwice(old(ledger), ledger.tables, ledger.tables - {id});
        FreeBlockTable(id, blockTables[id]);
        rest := rest - {id};
      }
      assert forall id :: id !in ledger.tables;
      assert ledger.tables == map[];
    }

    /** `reset` (542-545).  Both free lists are full again exactly when the counts were exact. */
    method Reset()
      requires Valid() && gpu.Numbered() && cpu.Numbered()
      modifies this`blockTables, this`ledger, gpu, cpu, gpu.blocks, cpu.blocks
      ensures Valid() && blockTables == map[]
      ensures Exact(old(ledger)) <==> |gpu.freeBlocks| == gpu.numBlocks && |cpu.freeBlocks| == cpu.numBlocks
    {
      hide Recounted, Covered, Slack, Holders, UncachedBlockAllocator.Valid;
      FreeAllTables();
      blockTables := map[];
      FullAgainIff(old(ledger));
    }

    lemma FullAgainIff(before: Ledger<PhysicalTokenBlock>)
      requires Counted() && gpu.Numbered() && cpu.Numbered()
      requires Covered(before) && ledger == Recounted(before, map[])
      ensures Exact(before) <==> |gpu.freeBlocks| == gpu.numBlocks && |cpu.freeBlocks| == cpu.numBlocks
    {
      hide Recounted, Covered, Slack, Holders, UncachedBlockAllocator.Valid;
      forall b | b in ledger.refs ensures ledger.refs[b] == Slack(before, b) {
        RecountEmpty(before, b);
      }
      gpu.FullFreeListIff();
      cpu.FullFreeListIff();
    }

    /** No sequence of these is unknown. */
    predicate AllHaveTables(ids: seq<int>)
      reads this`blockTables
    {
      forall i | 0 <= i < |ids| :: ids[i] in blockTables
    }

    /** `_get_physical_blocks` (433-442); `ids` are the members of a group that are not finished. */
    method GetPhysicalBlocks(ids: seq<int>) returns (r: Result<set<PhysicalTokenBlock>>)
      ensures r.Ok? <==> AllHaveTables(ids)
      ensures r.Err? ==> r.error == KeyError
      ensures r.Ok? ==> r.value == BlocksOf(blockTables, ids)
    {
      hide BlocksOf, Elements;
      var blocks: set<PhysicalTokenBlock> := {};
      BlocksOfNone(blockTables);
      for i := 0 to |ids|
        invariant forall k | 0 <= k < i :: ids[k] in blockTables
        invariant blocks == BlocksOf(blockTables, ids[..i])
      {
        if ids[i] !in blockTables {
          return Err(KeyError);
        }
        BlocksOfPrefix(blockTables, ids, i);
        blocks := blocks + Elements(blockTables[ids[i]]);
      }
      assert ids == ids[..|ids|];
      return Ok(blocks);
    }

    /** One turn of the inner loops of `swap_in` and `swap_out` (470-480, 500-510): entry `k` of the table recorded
        under `id` moves from device `src` to device `dst`. */
    method MoveBlock(block: PhysicalTokenBlock, mapping: map<PhysicalTokenBlock, PhysicalTokenBlock>,
                     src: UncachedBlockAllocator, dst: UncachedBlockAllocator, ghost id: int, ghost k: nat)
      returns (r: Result<PhysicalTokenBlock>)
      requires CountedOn(src, dst)
      requires id in ledger.tables && k < |ledger.tables[id]| && Distinct(ledger.tables[id])
      requires block == ledger.tables[id][k] && block in src.blocks
      requires block in mapping ==>
                 mapping[block] in dst.blocks && ledger.refs[mapping[block]] > 0 && mapping[block] !in ledger.tables[id]
      modifies this`ledger, src, dst, src.blocks, dst.blocks
      ensures r.Ok? <==> block in mapping || old(dst.freeBlocks) != []
      ensures r.Err? ==> r.error == OutOfMemory
      ensures r.Ok? ==>
        && CountedOn(src, dst) && r.value in dst.blocks
        && ledger == Recounted(old(ledger), old(ledger).tables[id := old(ledger).tables[id][k := r.value]])
        && (if block in mapping then r.value == mapping[block] && dst.freeBlocks == old(dst.freeBlocks)
            else old(ledger).refs[r.value] == 0 && r.value == Last(old(dst.freeBlocks))
                 && dst.freeBlocks == old(dst.freeBlocks)[..|old(dst.freeBlocks)| - 1])
    {
      hide Covered, Slack, Holders, Recounted, UncachedBlockAllocator.Valid;
      var target;
      if block in mapping {
        target := mapping[block];
        MoveRecounts(ledger, id, k, target);
        dst.AddReference(target);
      } else {
        target :- dst.Allocate();
        FreeBlockHasNoHolder(ledger, target);
        MoveRecounts(ledger, id, k, target);
      }
      ledger := Recounted(ledger, ledger.tables[id := ledger.tables[id][k := target]]);
      var freed := src.Free(block);
      assert freed.Ok?;
      return Ok(target);
    }

    /** The inner loop of `swap_in` and `swap_out`: the table of `id` moves to device `dst`, reusing the blocks
        that earlier tables of the group already moved. */
    method MoveTable(id: int, mapping: map<PhysicalTokenBlock, PhysicalTokenBlock>,
                     src: UncachedBlockAllocator, dst: UncachedBlockAllocator)
      returns (r: Result<(BlockTable, map<PhysicalTokenBlock, PhysicalTokenBlock>)>)
      requires CountedOn(src, dst) && id in blockTables
      requires id in ledger.tables && ledger.tables[id] == blockTables[id] && Distinct(ledger.tables[id]) && LiesIn(ledger.tables[id],
                                                                                                                    src.blocks)
      requires Halfway(ledger, ledger, id, [], mapping, mapping, src.blocks, dst.blocks)
      modifies this`ledger, src, dst, src.blocks, dst.blocks
      ensures r.Err? ==> r.error == OutOfMemory && |old(dst.freeBlocks)| < |Elements(old(ledger).tables[id]) - mapping.Keys|
      ensures r.Ok? ==>
        && CountedOn(src, dst) && |r.value.0| == |old(ledger).tables[id]|
        && Halfway(old(ledger), ledger, id, r.value.0, mapping, r.value.1, src.blocks, dst.blocks)
        && |dst.freeBlocks| + |r.value.1| == |old(dst.freeBlocks)| + |mapping|
    {
      hide Covered, Slack, Holders, Recounted, HalfMoved, UncachedBlockAllocator.Valid;
      ghost var before := ledger;
      var table := blockTables[id];
      var newTable: BlockTable := [];
      var moved: map<PhysicalTokenBlock, PhysicalTokenBlock> := mapping;
      for k := 0 to |table|
        invariant CountedOn(src, dst) && |newTable| == k
        invariant Halfway(before, ledger, id, newTable, mapping, moved, src.blocks, dst.blocks)
        invariant |dst.freeBlocks| + |moved| == |old(dst.freeBlocks)| + |mapping|
      {
        ghost var now := ledger;
        HalfwayFacts(before, now, id, newTable, mapping, moved, src.blocks, dst.blocks);
        var target := MoveBlock(table[k], moved, src, dst, id, k);
        if target.Err? {
          GrownShort(table, k, mapping.Keys, moved.Keys);
          return Err(target.error);
        }
        HalfwayStep(before, now, id, newTable, mapping, moved, src.blocks, dst.blocks, target.value);
        moved := moved[table[k] := target.value];
        newTable := newTable + [target.value];
      }
      return Ok((newTable, moved));
    }

    /** The outer loop of `swap_in` and `swap_out` (466-481, 496-511) over the members `ids` of a group. */
    method SwapTables(ids: seq<int>, src: UncachedBlockAllocator, dst: UncachedBlockAllocator)
      returns (r: Result<map<PhysicalTokenBlock, PhysicalTokenBlock>>)
      requires CountedOn(src, dst) && ledger.tables == blockTables && WellFormed(blockTables, src.blocks, dst.blocks)
      requires Distinct(ids) && AllOn(blockTables, ids, src.blocks)
      modifies this`ledger, this`blockTables, src, dst, src.blocks, dst.blocks
      ensures r.Ok? <==> |BlocksOf(old(blockTables), ids)| <= |old(dst.freeBlocks)|
      ensures r.Err? ==> r.error == OutOfMemory
      ensures r.Ok? ==>
        && CountedOn(src, dst) && ledger.tables == blockTables && WellFormed(blockTables, src.blocks, dst.blocks)
        && MovedTables(old(ledger), ledger, ids, r.value, src.blocks, dst.blocks)
        && |dst.freeBlocks| == |old(dst.freeBlocks)| - |r.value|
    {
      hide Covered, Slack, Holders, Recounted, WellFormed, MovedTables, HalfMoved, Grown, AllOn, TargetsUsed, BlocksOf, Distinct;
      hide LiesIn, UncachedBlockAllocator.Valid;
      ghost var before := ledger;
      var mapping: map<PhysicalTokenBlock, PhysicalTokenBlock> := map[];
      SwapStart(before, src.blocks, dst.blocks);
      for i := 0 to |ids|
        invariant CountedOn(src, dst) && ledger.tables == blockTables
        invariant WellFormed(blockTables, src.blocks, dst.blocks)
        invariant MovedTables(before, ledger, ids[..i], mapping, src.blocks, dst.blocks)
        invariant TargetsUsed(ledger, mapping)
        invariant |dst.freeBlocks| + |mapping| == |old(dst.freeBlocks)|
      {
        ghost var now := ledger;
        SwapNext(before, now, ids, i, mapping, src.blocks, dst.blocks);
        var moved := MoveTable(ids[i], mapping, src, dst);
        if moved.Err? {
          SwapShort(before, ids, i, mapping.Keys);
          return Err(moved.error);
        }
        SwapStep(before, now, ledger, ids, i, moved.value.0, mapping, moved.value.1, src.blocks, dst.blocks);
        SwapKeepsWellFormed(now, ledger, ids[i], moved.value.0, mapping, moved.value.1, src.blocks, dst.blocks);
        mapping := moved.value.1;
        blockTables := blockTables[ids[i] := moved.value.0];
      }
      SwapEnd(before, ledger, ids, mapping, src.blocks, dst.blocks);
      return Ok(mapping);
    }

    /** `block_number_mapping` (483-486, 513-516). */
    function BlockNumbers(ghost src: UncachedBlockAllocator, ghost dst: UncachedBlockAllocator,
                          mapping: map<PhysicalTokenBlock, PhysicalTokenBlock>): (r: map<int, int>)
      requires src.Numbered() && Moves(mapping, src.blocks, dst.blocks)
      ensures forall b | b in mapping :: b.blockNumber in r && r[b.blockNumber] == mapping[b].blockNumber
      ensures forall n | n in r :: exists b | b in mapping :: b.blockNumber == n
    {
      map b | b in mapping :: b.blockNumber := mapping[b].blockNumber
    }

    /** `can_swap_out` (489-491). */
    method CanSwapOut(g: SequenceGroup) returns (r: Result<bool>)
      ensures r.Ok? <==> AllHaveTables(Ids(Unfinished(g.seqs)))
      ensures r.Ok? ==> r.value == (|BlocksOf(blockTables, Ids(Unfinished(g.seqs)))| <= |cpu.freeBlocks|)
    {
      hide BlocksOf, BlockSpaceManager.AllHaveTables;
      var blocks :- GetPhysicalBlocks(Ids(Unfinished(g.seqs)));
      return Ok(|blocks| <= |cpu.freeBlocks|);
    }

    /** `swap_out` (493-517): the tables of the running members move to the CPU.  It runs out of blocks exactly
        when the group holds more blocks than the CPU has left. */
    method SwapOut(g: SequenceGroup) returns (r: Result<map<int, int>>, ghost moved: map<PhysicalTokenBlock, PhysicalTokenBlock>)
      requires Valid() && gpu.Numbered() && DistinctIds(g.seqs)
      requires AllOn(blockTables, Ids(g.WithStatus(Running)), gpu.blocks)
      modifies this`ledger, this`blockTables, gpu, cpu, gpu.blocks, cpu.blocks
      ensures r.Ok? <==> |BlocksOf(old(blockTables), Ids(g.WithStatus(Running)))| <= |old(cpu.freeBlocks)|
      ensures r.Ok? ==>
        && Valid() && MovedTables(old(ledger), ledger, Ids(g.WithStatus(Running)), moved, gpu.blocks, cpu.blocks)
        && r.value == BlockNumbers(gpu, cpu, moved)
        && |cpu.freeBlocks| == |old(cpu.freeBlocks)| - |moved|
    {
      hide Covered, MovedTables, WellFormed, AllOn, Distinct, BlocksOf, UncachedBlockAllocator.Valid;
      SelectedIdsDistinct(g.seqs, Running);
      moved := map[];
      var mapping :- SwapTables(Ids(g.WithStatus(Running)), gpu, cpu);
      moved := mapping;
      SwapTargets(old(ledger), ledger, Ids(g.WithStatus(Running)), mapping, gpu.blocks, cpu.blocks);
      r := Ok(BlockNumbers(gpu, cpu, mapping));
    }

    /** `can_swap_in` (444-456). */
    method CanSwapIn(g: SequenceGroup) returns (r: Result<bool>)
      ensures r.Ok? <==> AllHaveTables(Ids(Unfinished(g.seqs)))
      ensures r.Ok? ==> r.value == (|BlocksOf(blockTables, Ids(Unfinished(g.seqs)))| + |g.WithStatus(Status.Swapped)|
                                    + watermarkBlocks <= |gpu.freeBlocks|)
    {
      hide BlocksOf, BlockSpaceManager.AllHaveTables;
      var blocks :- GetPhysicalBlocks(Ids(Unfinished(g.seqs)));
      var numRequired := |blocks| + |g.WithStatus(Status.Swapped)|;
      return Ok(|gpu.freeBlocks| - numRequired >= watermarkBlocks);
    }

    /** `swap_in` (458-487): the tables of the swapped members move back to the GPU. */
    method SwapIn(g: SequenceGroup) returns (r: Result<map<int, int>>, ghost moved: map<PhysicalTokenBlock, PhysicalTokenBlock>)
      requires Valid() && cpu.Numbered() && DistinctIds(g.seqs)
      requires AllOn(blockTables, Ids(g.WithStatus(Status.Swapped)), cpu.blocks)
      modifies this`ledger, this`blockTables, gpu, cpu, gpu.blocks, cpu.blocks
      ensures r.Ok? <==> |BlocksOf(old(blockTables), Ids(g.WithStatus(Status.Swapped)))| <= |old(gpu.freeBlocks)|
      ensures r.Ok? ==>
        && Valid() && MovedTables(old(ledger), ledger, Ids(g.WithStatus(Status.Swapped)), moved, cpu.blocks, gpu.blocks)
        && r.value == BlockNumbers(cpu, gpu, moved)
        && |gpu.freeBlocks| == |old(gpu.freeBlocks)| - |moved|
    {
      hide Covered, MovedTables, WellFormed, AllOn, Distinct, DistinctIds, BlocksOf, Select, UncachedBlockAllocator.Valid;
      SelectedIdsDistinct(g.seqs, Status.Swapped);
      SidesSwap(blockTables, gpu.blocks, cpu.blocks);
      moved := map[];
      var mapping :- SwapTables(Ids(g.WithStatus(Status.Swapped)), cpu, gpu);
      moved := mapping;
      SidesSwap(blockTables, cpu.blocks, gpu.blocks);
      SwapTargets(old(ledger), ledger, Ids(g.WithStatus(Status.Swapped)), mapping, cpu.blocks, gpu.blocks);
      r := Ok(BlockNumbers(cpu, gpu, mapping));
    }
  }
}
