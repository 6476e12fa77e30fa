/** `BlockSpaceManagerV1` with prefix caching and without a sliding window, on the GPU (vllm/core/block_manager_v1.py). */
module CachedBlockManager {
  import opened Wrappers
  import opened Arithmetic
  import opened Blocks
  import opened Paging
  import opened Sequences
  import opened Evictors
  import opened CachedAllocator
  import opened PrefixSharing
  import opened PrefixLaws
  import opened CachedContents

  class PrefixCachingManager {
    const blockSize: nat
    const watermarkBlocks: nat
    const gpu: CachedBlockAllocator
    var blockTables: map<int, BlockTable>

    ghost var texts: map<int, Text>  // the sequences as they were when their tables were last changed

    ghost predicate Valid()
      reads this, gpu, gpu.evictor, gpu.info.Keys
    {
      && blockSize > 0 && gpu.Valid() && gpu.Own()
      && Sharing(blockTables, gpu.info, texts, blockSize) && Counts(blockTables, gpu.info, {})
      && Covers(blockTables, texts, blockSize)
    }

    /** The tables, the blocks and the sequences. */
    ghost function Holdings(): Shelf<PhysicalTokenBlock>
      reads this, gpu
    {
      Shelf(blockTables, gpu.info, texts)
    }

    lemma HoldingsLocated()
      requires Valid()
      ensures Located(Holdings(), gpu.numBlocks, blockSize)
    {
      hide FilesOk, ShelfOk;
      HoldingsOk();
      BooksInOrder();
      forall b, c | b in gpu.info && c in gpu.info && gpu.info[b].hash == gpu.info[c].hash ensures b == c {
        OneBlockPerHash(gpu.Books(), b);
        OneBlockPerHash(gpu.Books(), c);
      }
    }

    lemma BooksInOrder()
      requires gpu.Valid()
      ensures FilesOk(gpu.Books())
    {
    }

    lemma HoldingsOk()
      requires Valid()
      ensures blockSize > 0 && ShelfOk(Holdings(), blockSize)
    {
    }

    constructor (blockSize: nat, numGpuBlocks: nat, watermarkBlocks: nat)
      requires blockSize > 0
      ensures Lawful(Holdings(), blockSize)
      ensures Valid() && blockTables == map[] && fresh(gpu) && fresh(gpu.evictor) && gpu.info == map[]
      ensures this.blockSize == blockSize && this.watermarkBlocks == watermarkBlocks && gpu.numBlocks == numGpuBlocks
    {
      this.blockSize, this.watermarkBlocks := blockSize, watermarkBlocks;
      hide FilesOk, Numbered, CachedBlockAllocator.Mirrored;
      var allocator := new CachedBlockAllocator(GPU, numGpuBlocks);
      gpu, blockTables, texts := allocator, map[], map[];
    }

    /** `can_allocate` (247-266).  A prompt that may be allocated fits, with the watermark left over for the blocks that it
        needs to itself; one that is told to wait might fit all the same, because it shares blocks. */
    method CanAllocate(t: Text) returns (status: AllocStatus)
      requires Valid()
      ensures status.Never? <==> gpu.numBlocks < NumBlocks(|t.tokens|, blockSize) + watermarkBlocks
      ensures status.CanAllocateNow? <==>
        NumBlocks(|t.tokens|, blockSize) + watermarkBlocks <= gpu.NumFreeBlocks() && !status.Never?
      ensures status.CanAllocateNow? ==>
        Lacking(t, NumBlocks(|t.tokens|, blockSize), gpu.cachedBlocks.Keys, blockSize) + watermarkBlocks <= gpu.NumFreeBlocks()
    {
      hide Sharing, Counts, CachedBlockAllocator.Valid, Covers, Lacking;
      var numRequired := NumBlocks(|t.tokens|, blockSize);
      LackingAtMost(t, numRequired, gpu.cachedBlocks.Keys, blockSize);
      if gpu.numBlocks - numRequired < watermarkBlocks {
        return Never;
      }
      return if gpu.NumFreeBlocks() - numRequired >= watermarkBlocks then CanAllocateNow else Later;
    }

    /** `allocate` (268-295) for the one waiting sequence of a group (scheduler.py:608): block after block is looked up by
        its hash.  It runs out exactly when fewer blocks are free than the prompt needs beside those already in use. */
    method Allocate(id: int, t: Text) returns (r: Result<()>)
      requires Valid() && id !in blockTables
      modifies this, gpu, gpu.evictor, gpu.info.Keys
      ensures r.Ok? <==> Lacking(t, NumBlocks(|t.tokens|, blockSize), old(gpu.cachedBlocks).Keys, blockSize) <= old(gpu.NumFreeBlocks())
      ensures r.Err? ==> r.error == OutOfMemory
      ensures r.Ok? ==> Valid() && texts == old(texts)[id := t]
      ensures r.Ok? ==> id in blockTables && blockTables == old(blockTables)[id := blockTables[id]]
      ensures r.Ok? ==> Admitted(old(Holdings()), Holdings(), id, t, blockSize)
      ensures r.Ok? && old(Lawful(Holdings(), blockSize)) ==> Lawful(Holdings(), blockSize)
      ensures r.Ok? ==> forall i: nat | i < |blockTables[id]| ::
        MadeFor(blockTables[id][i], i, old(gpu.info), old(Numbers()), gpu.info, Numbers(), blockSize)
      ensures r.Ok? ==>
        gpu.NumFreeBlocks() == old(gpu.NumFreeBlocks()) - Lacking(t, NumBlocks(|t.tokens|, blockSize), old(gpu.cachedBlocks).Keys,
                                                                  blockSize)
      ensures fresh(gpu.info.Keys - old(gpu.info).Keys) && gpu.bound >= old(gpu.bound)
    {
      hide Sharing, Counts, HashFits, CachedBlockAllocator.Valid, HashOfBlock, Covers;
      hide Lacking, Hashes, PrefixCachingManager.Filling, Lawful;
      var table: BlockTable := [];
      var n := NumBlocks(|t.tokens|, blockSize);
      ghost var texts', s, numbers := texts[id := t], Holdings(), Numbers();
      ghost var used, free := gpu.cachedBlocks.Keys, gpu.NumFreeBlocks();
      EmptyTable(blockTables, gpu.info, texts, blockSize, id, t);
      NoHashes(t, used, blockSize);
      FreeBlocks();
      NoneFilled(s, numbers, t);
      for i := 0 to n
        invariant unchanged(this) && |table| == i && gpu.Valid() && gpu.Own() && fresh(gpu.info.Keys - old(gpu.info).Keys)
        invariant Sharing(blockTables[id := table], gpu.info, texts', blockSize) && Counts(blockTables[id := table], gpu.info, {})
        invariant Filling(s, numbers, table, t) && gpu.bound >= old(gpu.bound)
        invariant gpu.cachedBlocks.Keys == used + Hashes(t, i, blockSize)
        invariant gpu.NumFreeBlocks() == free - Lacking(t, i, used, blockSize) >= 0
      {
        PromptBlock(|t.tokens|, i, blockSize);
        LackingNext(t, i, n, used, blockSize);
        var block := NextPromptBlock(i, id, t, table, s, numbers, texts');
        if block.Err? {
          return Err(block.error);
        }
        FreeBlocks();
        table := table + [block.value];
      }
      CoversOne(blockTables, texts, blockSize, id, table, t);
      blockTables := blockTables[id := table];
      texts := texts';
      AllFilled(s, numbers, id, t);
      return Ok(());
    }

    /** The numbers of tokens that the blocks were hashed for. */
    ghost function Numbers(): (r: map<PhysicalTokenBlock, nat>)
      reads gpu`info, gpu.info.Keys
      ensures r.Keys == gpu.info.Keys && forall b | b in r :: r[b] == b.numHashedTokens
    {
      map b | b in gpu.info :: b.numHashedTokens
    }

    /** Half-way through a prompt: `s` is what the manager held before. */
    ghost predicate Filling(s: Shelf<PhysicalTokenBlock>, numbers: map<PhysicalTokenBlock, nat>, table: BlockTable, t: Text)
      reads gpu`info, gpu.info.Keys
    {
      FilledBy(s, numbers, gpu.info, Numbers(), table, t, blockSize)
    }

    lemma NoneFilled(s: Shelf<PhysicalTokenBlock>, numbers: map<PhysicalTokenBlock, nat>, t: Text)
      requires Valid() && s == Holdings() && numbers == Numbers()
      ensures Filling(s, numbers, [], t)
    {
      HoldingsOk();
      AllStay(s, blockSize);
    }

    lemma AllFilled(s: Shelf<PhysicalTokenBlock>, numbers: map<PhysicalTokenBlock, nat>, id: int, t: Text)
      requires Valid() && ShelfOk(s, blockSize) && id !in s.tables && id in blockTables && blockTables == s.tables[id := blockTables[id]]
      requires texts == s.texts[id := t] && Filling(s, numbers, blockTables[id], t)
      ensures Admitted(s, Holdings(), id, t, blockSize) && (Lawful(s, blockSize) ==> Lawful(Holdings(), blockSize))
      ensures forall i: nat | i < |blockTables[id]| :: MadeFor(blockTables[id][i], i, s.info, numbers, gpu.info, Numbers(), blockSize)
    {
      hide Sharing, Counts, Covers, CachedBlockAllocator.Valid, HashesStay, Lawful;
      var table := blockTables[id];
      forall i: nat | i < |table| ensures PromptHash(gpu.info[table[i]].hash, t, i, blockSize) {
        PromptHashIs(t, i, blockSize);
      }
      HoldingsOk();
      if Lawful(s, blockSize) {
        LawfulAdmitted(s, Holdings(), id, t, blockSize);
      }
    }

    /** One turn of the loop of `allocate` (281-291). */
    method NextPromptBlock(i: nat, ghost id: int, t: Text, ghost table: BlockTable, ghost s: Shelf<PhysicalTokenBlock>,
                           ghost numbers: map<PhysicalTokenBlock, nat>, ghost texts': map<int, Text>)
      returns (r: Result<PhysicalTokenBlock>)
      requires blockSize > 0 && gpu.Valid() && gpu.Own() && |table| == i && i * blockSize < |t.tokens| && id in texts' && texts'[id] == t
      requires Sharing(s.tables[id := table], gpu.info, texts', blockSize) && Counts(s.tables[id := table], gpu.info, {})
      requires id !in s.tables && Filling(s, numbers, table, t)
      modifies gpu`currentNumBlocks, gpu`cachedBlocks, gpu`defaultHashCtr, gpu`bound, gpu`info, gpu.evictor, gpu.info.Keys
      ensures gpu.Valid() && gpu.Own() && fresh(gpu.info.Keys - old(gpu.info).Keys) && old(gpu.info).Keys <= gpu.info.Keys
      ensures gpu.bound >= old(gpu.bound)
      ensures r.Ok? <==> old(gpu.ContainsBlock(HashOfBlock(t, i, blockSize))) || old(gpu.NumFreeBlocks()) > 0
      ensures r.Err? ==> r.error == OutOfMemory
      ensures r.Ok? ==>
        && Sharing(s.tables[id := table + [r.value]], gpu.info, texts', blockSize)
        && Counts(s.tables[id := table + [r.value]], gpu.info, {})
        && Filling(s, numbers, table + [r.value], t)
        && gpu.cachedBlocks.Keys == old(gpu.cachedBlocks).Keys + {HashOfBlock(t, i, blockSize)}
        && gpu.NumFreeBlocks() == old(gpu.NumFreeBlocks())
                                  - if HashOfBlock(t, i, blockSize) in old(gpu.cachedBlocks) then 0 else 1
    {
      hide Sharing, Counts, HashFits, CachedBlockAllocator.Valid, HashOfBlock, HashesStay, FilledBy;
      HashOfBlockFits(t, i, blockSize);
      IsContent(t, i, blockSize);
      ghost var tables, before, now := s.tables[id := table], gpu.info, Numbers();
      r := NextBlock(Some(HashOfBlock(t, i, blockSize)), i * blockSize + blockSize, tables, texts', {}, id);
      if r.Ok? {
        FillNext(s, numbers, before, now, gpu.info, Numbers(), id, table, r.value, t, texts', blockSize);
        assert tables[id := table + [r.value]] == s.tables[id := table + [r.value]];
      }
    }

    lemma FreeBlocks()
      requires gpu.Valid()
      ensures gpu.NumFreeBlocks() >= 0
    {
    }

    /** A block for the end of the table of `id`, as all callers of the allocator take one. */
    method NextBlock(hash: Option<Hash>, numHashedTokens: nat,
                     ghost tables: map<int, BlockTable>, ghost texts: map<int, Text>, ghost owed: set<PhysicalTokenBlock>, ghost id: int)
      returns (r: Result<PhysicalTokenBlock>)
      requires gpu.Valid() && gpu.Own()
      requires Sharing(tables, gpu.info, texts, blockSize) && Counts(tables, gpu.info, owed) && owed <= gpu.info.Keys
      requires id in tables && id in texts
      requires hash.Some? ==> hash.value.Content? && HashFits(hash.value, texts[id], |tables[id]|, blockSize)
      modifies gpu`currentNumBlocks, gpu`cachedBlocks, gpu`defaultHashCtr, gpu`bound, gpu`info, gpu.evictor, gpu.info.Keys
      ensures gpu.Valid() && gpu.Own() && fresh(gpu.info.Keys - old(gpu.info).Keys) && old(gpu.info).Keys <= gpu.info.Keys
      ensures gpu.bound >= old(gpu.bound)
      ensures forall b | b in old(gpu.info) && old(gpu.info)[b].refs > 0 :: gpu.info[b].hash == old(gpu.info)[b].hash
      ensures forall b | b in old(gpu.info) && (r.Ok? ==> b != r.value) :: b.numHashedTokens == old(b.numHashedTokens)
      ensures r.Ok? ==>
        && r.value !in tables[id] && r.value in gpu.info
        && (forall b | b in gpu.info && b != r.value :: b in old(gpu.info) && gpu.info[b] == old(gpu.info)[b])
        && (if hash.Some? && old(gpu.ContainsBlock(hash.value))
            then r.value in old(gpu.info) && old(gpu.info)[r.value].hash == hash.value
                 && r.value.numHashedTokens == old(r.value.numHashedTokens)
            else (r.value in old(gpu.info) ==> old(gpu.info)[r.value].refs <= 0) && r.value.numHashedTokens == numHashedTokens)
        && (hash.None? ==> gpu.info[r.value].hash.Fresh? && gpu.info[r.value].refs == 1)
      ensures gpu.NumFreeBlocks() == old(gpu.NumFreeBlocks())
              - if r.Err? || (hash.Some? && hash.value in old(gpu.cachedBlocks)) then 0 else 1
      ensures r.Ok? && hash.Some? ==> gpu.cachedBlocks.Keys == old(gpu.cachedBlocks).Keys + {hash.value}
      ensures r.Ok? <==> (hash.Some? && old(gpu.ContainsBlock(hash.value))) || old(gpu.NumFreeBlocks()) > 0
      ensures r.Err? ==> r.error == OutOfMemory && gpu.info == old(gpu.info)
      ensures r.Ok? ==>
        && r.value in gpu.info && (hash.Some? ==> gpu.info[r.value].hash == hash.value) && (hash.None? ==> r.value.refCount == 1)
        && Sharing(tables[id := tables[id] + [r.value]], gpu.info, texts, blockSize)
        && Counts(tables[id := tables[id] + [r.value]], gpu.info, owed)
        && forall i: nat | i < |tables[id]| ::
             tables[id][i] in old(gpu.info) && tables[id][i] in gpu.info
             && gpu.info[tables[id][i]].hash == old(gpu.info)[tables[id][i]].hash
    {
      hide FilesOk, Sharing, Counts, Allotted, HashFits, Numbered, Known;
      ghost var f, room := gpu.Books(), gpu.currentNumBlocks < gpu.numBlocks;
      r := gpu.Allocate(hash, numHashedTokens);
      NextBlockIs(hash, f, room, r, gpu.Books(), tables, texts, owed, blockSize, id);
    }

    /** `_is_last_block_full` (329-334). */
    predicate IsLastBlockFull(t: Text)
      requires blockSize > 0
    {
      |t.tokens| > 0 && |t.tokens| % blockSize == 0
    }

    /** The hash for the last block (353-361): of its contents once it is full. */
    function LastHash(t: Text): Option<Hash>
      requires blockSize > 0
    {
      if IsLastBlockFull(t) then Some(HashOfBlock(t, NumBlocks(|t.tokens|, blockSize) - 1, blockSize)) else None
    }

    /** The hash is that of the whole text. */
    lemma LastHashIs(t: Text)
      requires blockSize > 0
      ensures LastHash(t).Some? <==> FillsUp(t, blockSize)
      ensures LastHash(t).Some? ==> LastHash(t).value == Content(t.tokens, t.lora) && NumBlocks(|t.tokens|, blockSize) > 0
    {
      FillsUpIs(t, blockSize);
      assert t.tokens[..|t.tokens|] == t.tokens;
    }

    lemma LastHashFits(t: Text)
      requires blockSize > 0 && LastHash(t).Some?
      ensures LastHash(t).value.Content? && NumBlocks(|t.tokens|, blockSize) > 0
      ensures HashFits(LastHash(t).value, t, NumBlocks(|t.tokens|, blockSize) - 1, blockSize)
    {
      NumBlocksPositive(|t.tokens|, blockSize);
      PromptBlock(|t.tokens|, NumBlocks(|t.tokens|, blockSize) - 1, blockSize);
      HashOfBlockFits(t, NumBlocks(|t.tokens|, blockSize) - 1, blockSize);
    }

    /** The last block of a table shows its full contents. */
    ghost predicate LastShows(id: int, t: Text)
      reads this, gpu
    {
      && blockSize > 0 && id in blockTables && |blockTables[id]| == NumBlocks(|t.tokens|, blockSize)
      && (LastHash(t).Some? ==> blockTables[id] != [] && Last(blockTables[id]) in gpu.info
                                && gpu.info[Last(blockTables[id])].hash == LastHash(t).value)
    }

    /** A new block for a new logical block (382-399). */
    method AppendNew(id: int, t: Text) returns (r: Result<()>)
      requires Valid() && id in blockTables && id in texts && texts[id].tokens <= t.tokens && t.lora == texts[id].lora
      requires |blockTables[id]| + 1 == NumBlocks(|t.tokens|, blockSize)
      modifies this`blockTables, this`texts
      modifies gpu`currentNumBlocks, gpu`cachedBlocks, gpu`defaultHashCtr, gpu`bound, gpu`info, gpu.evictor, gpu.info.Keys
      ensures Valid() && fresh(gpu.info.Keys - old(gpu.info).Keys)
      ensures gpu.NumFreeBlocks() >= old(gpu.NumFreeBlocks()) - 1 && gpu.bound >= old(gpu.bound)
      ensures r.Ok? <==> old(gpu.NumFreeBlocks()) > 0 || (LastHash(t).Some? && old(gpu.ContainsBlock(LastHash(t).value)))
      ensures r.Err? ==> r.error == OutOfMemory && unchanged(this)
      ensures r.Ok? ==>
        && texts == old(texts)[id := t] && LastShows(id, t) && Appended(old(Holdings()), Holdings(), id, t, blockSize)
        && blockTables == old(blockTables)[id := blockTables[id]] && blockTables[id][..|blockTables[id]| - 1] == old(blockTables)[id]
    {
      hide Sharing, Counts, HashFits, CachedBlockAllocator.Valid, HashOfBlock, Covers, LastHash, FillsUp;
      LastHashIs(t);
      if LastHash(t).Some? {
        LastHashFits(t);
      }
      ghost var texts' := texts[id := t];
      GrownFits(blockTables, gpu.info, texts, blockSize, id, t);
      var block := NextBlock(LastHash(t), NumBlocks(|t.tokens|, blockSize) * blockSize, blockTables, texts', {}, id);
      if block.Err? {
        return Err(block.error);
      }
      CoversOne(blockTables, texts, blockSize, id, blockTables[id] + [block.value], t);
      blockTables := blockTables[id := blockTables[id] + [block.value]];
      texts := texts';
      return Ok(());
    }

    /** Copy on write (412-418): the shared last block is replaced, and loses this sequence's reference. */
    method ReplaceShared(id: int, t: Text) returns (r: Result<()>)
      requires Valid() && id in blockTables && id in texts && texts[id].tokens <= t.tokens && t.lora == texts[id].lora
      requires |blockTables[id]| == NumBlocks(|t.tokens|, blockSize) > 0 && Last(blockTables[id]).refCount != 1
      modifies this`blockTables, this`texts
      modifies gpu`currentNumBlocks, gpu`cachedBlocks, gpu`defaultHashCtr, gpu`bound, gpu`info, gpu.evictor, gpu.info.Keys
      ensures Valid() && fresh(gpu.info.Keys - old(gpu.info).Keys)
      ensures gpu.NumFreeBlocks() >= old(gpu.NumFreeBlocks()) - 1 && gpu.bound >= old(gpu.bound)
      ensures r.Ok? <==> old(gpu.NumFreeBlocks()) > 0 || (LastHash(t).Some? && old(gpu.ContainsBlock(LastHash(t).value)))
      ensures r.Err? ==> r.error == OutOfMemory && unchanged(this)
      ensures r.Ok? ==>
        && texts == old(texts)[id := t] && LastShows(id, t) && blockTables == old(blockTables)[id := blockTables[id]]
        && blockTables[id][..|blockTables[id]| - 1] == old(blockTables)[id][..|old(blockTables)[id]| - 1]
        && Appended(old(Holdings()), Holdings(), id, t, blockSize)
    {
      hide Sharing, Counts, HashFits, CachedBlockAllocator.Valid, HashOfBlock, FilesOk, Covers, LastHash, FillsUp, Appended;
      LastHashIs(t);
      LastMirrored(id);
      ghost var s := Holdings();
      if LastHash(t).Some? {
        LastHashFits(t);
      }
      ghost var texts' := texts[id := t];
      var table := blockTables[id];
      var front, last := table[..|table| - 1], Last(table);
      GrownFits(blockTables, gpu.info, texts, blockSize, id, t);
      LastOwed(blockTables, gpu.info, texts', blockSize, id);
      var block := NextBlock(LastHash(t), NumBlocks(|t.tokens|, blockSize) * blockSize, blockTables[id := front], texts', {last}, id);
      if block.Err? {
        return Err(block.error);
      }
      assert blockTables[id := front][id := front + [block.value]] == blockTables[id := front + [block.value]];
      CoversOne(blockTables, texts, blockSize, id, front + [block.value], t);
      blockTables := blockTables[id := front + [block.value]];
      texts := texts';
      ghost var between := gpu.info;
      DropOwed(last, {last});
      assert {last} - {last} == {};
      AppendedShared(s, between, Holdings(), id, t, blockSize);
      return Ok(());
    }

    /** The last block's count, as a value. */
    lemma LastMirrored(id: int)
      requires Valid() && id in blockTables && blockTables[id] != []
      ensures Last(blockTables[id]) in gpu.info && gpu.info[Last(blockTables[id])].refs == Last(blockTables[id]).refCount > 0
    {
      HoldingsOk();
      assert blockTables[id][|blockTables[id]| - 1] in blockTables[id];
      HeldCounted(Holdings(), blockSize, id, Last(blockTables[id]));
    }

    /** A reference that no table accounts for any more is dropped; it is no double free. */
    method DropOwed(block: PhysicalTokenBlock, ghost owed: set<PhysicalTokenBlock>)
      requires blockSize > 0 && gpu.Valid() && block in owed && block in gpu.info
      requires Sharing(blockTables, gpu.info, texts, blockSize) && Counts(blockTables, gpu.info, owed)
      modifies gpu`cachedBlocks, gpu`info, gpu.evictor, block`refCount, block`blockHash
      ensures gpu.Valid() && gpu.info.Keys == old(gpu.info).Keys && forall h | old(gpu.ContainsBlock(h)) :: gpu.ContainsBlock(h)
      ensures gpu.NumFreeBlocks() >= old(gpu.NumFreeBlocks())
      ensures Sharing(blockTables, gpu.info, texts, blockSize) && Counts(blockTables, gpu.info, owed - {block})
      ensures forall b | b in gpu.info :: gpu.info[b].hash == old(gpu.info)[b].hash
      ensures forall b | b in gpu.info && b != block :: gpu.info[b] == old(gpu.info)[b]
    {
      hide Sharing, Counts, FilesOk;
      ghost var f := gpu.Books();
      OwedReleased(f, block, blockTables, texts, owed, blockSize);
      forall h | Known(f, h) ensures Known(Released(f, block), h) {
        ReleasedKnown(f, block, h);
      }
      var freed := gpu.Free(block);
      assert freed.Ok?;
    }

    /** `_promote_last_block` (309-327): a full last block that no other sequence holds becomes the known block of the
        same contents, if there is one, and otherwise bears the hash of its contents.  The allocation cannot fail, even
        when the known block is the one just freed. */
    method PromoteLastBlock(id: int, t: Text)
      requires Valid() && id in blockTables && id in texts && texts[id].tokens <= t.tokens && t.lora == texts[id].lora
      requires IsLastBlockFull(t) && |blockTables[id]| == NumBlocks(|t.tokens|, blockSize) > 0 && Last(blockTables[id]).refCount == 1
      modifies this`blockTables, this`texts
      modifies gpu`currentNumBlocks, gpu`cachedBlocks, gpu`defaultHashCtr, gpu`bound, gpu`info, gpu.evictor, gpu.info.Keys
      ensures Valid() && fresh(gpu.info.Keys - old(gpu.info).Keys) && texts == old(texts)[id := t] && LastShows(id, t)
      ensures blockTables == old(blockTables)[id := blockTables[id]]
      ensures blockTables[id][..|blockTables[id]| - 1] == old(blockTables)[id][..|old(blockTables)[id]| - 1]
      ensures gpu.NumFreeBlocks() >= old(gpu.NumFreeBlocks()) - 1 && gpu.bound >= old(gpu.bound)
      ensures Appended(old(Holdings()), Holdings(), id, t, blockSize)
    {
      hide Sharing, Counts, HashFits, HashOfBlock, FilesOk, Numbered, Known, Covers, FillsUp;
      LastMirrored(id);
      LastHashIs(t);
      LastHashFits(t);
      var newHash := LastHash(t).value;
      var table := blockTables[id];
      var front, last := table[..|table| - 1], Last(table);
      GrownFits(blockTables, gpu.info, texts, blockSize, id, t);
      CoversOne(blockTables, texts, blockSize, id, table, t);
      assert blockTables[id := table] == blockTables;
      texts := texts[id := t];
      LastOwed(blockTables, gpu.info, texts, blockSize, id);
      if gpu.ContainsBlock(newHash) {
        PromoteToKnown(id, t, newHash, front, last);
      } else {
        RehashFits(gpu.Books(), blockTables, texts, blockSize, id, newHash);
        gpu.UpdateHash(newHash, last);
        assert blockTables == blockTables[id := blockTables[id]];
      }
    }

    /** The known block of the same contents takes the place of the last one (320-324). */
    method PromoteToKnown(id: int, ghost t: Text, newHash: Hash, front: BlockTable, last: PhysicalTokenBlock)
      requires blockSize > 0 && gpu.Valid() && gpu.Own() && id in blockTables && id in texts && Covers(blockTables, texts, blockSize)
      requires |front| + 1 == NumBlocks(|t.tokens|, blockSize)
      requires blockTables[id] == front + [last] && last in gpu.info && texts[id] == t
      requires Sharing(blockTables[id := front], gpu.info, texts, blockSize) && Counts(blockTables[id := front], gpu.info, {last})
      requires newHash.Content? && HashFits(newHash, t, |front|, blockSize) && gpu.ContainsBlock(newHash)
      modifies this`blockTables
      modifies gpu`currentNumBlocks, gpu`cachedBlocks, gpu`defaultHashCtr, gpu`bound, gpu`info, gpu.evictor, gpu.info.Keys
      ensures Valid() && fresh(gpu.info.Keys - old(gpu.info).Keys)
      ensures blockTables == old(blockTables)[id := blockTables[id]]
      ensures |blockTables[id]| == |front| + 1 && blockTables[id][..|front|] == front
      ensures Last(blockTables[id]) in gpu.info && gpu.info[Last(blockTables[id])].hash == newHash
      ensures gpu.NumFreeBlocks() >= old(gpu.NumFreeBlocks()) - 1 && gpu.bound >= old(gpu.bound)
      ensures Last(blockTables[id]) in old(gpu.info) && old(gpu.info)[Last(blockTables[id])].hash == newHash
      ensures old(gpu.info).Keys <= gpu.info.Keys
      ensures forall b | b in gpu.info && b != Last(blockTables[id]) :: b in old(gpu.info) && gpu.info[b].hash == old(gpu.info)[b].hash
    {
      hide Sharing, Counts, HashFits, FilesOk, Numbered, CachedBlockAllocator.Valid, Covers;
      ghost var full := blockTables;
      blockTables := blockTables[id := front];
      DropOwed(last, {last});
      assert {last} - {last} == {};
      var block := NextBlock(Some(newHash), 0, blockTables, texts, {}, id);
      assert block.Ok?;
      blockTables := blockTables[id := front + [block.value]];
      assert blockTables == full[id := front + [block.value]];
      CoversOne(full, texts, blockSize, id, front + [block.value], t);
      assert texts[id := t] == texts;
    }

    /** `append_slots` (374-418) for a sequence that has grown since its last call. */
    method AppendSlots(id: int, t: Text) returns (r: Result<map<int, seq<int>>>)
      requires Valid() && (id in blockTables ==> id in texts && texts[id].tokens <= t.tokens && t.lora == texts[id].lora)
      modifies this`blockTables, this`texts
      modifies gpu`currentNumBlocks, gpu`cachedBlocks, gpu`defaultHashCtr, gpu`bound, gpu`info, gpu.evictor, gpu.info.Keys
      ensures Valid() && fresh(gpu.info.Keys - old(gpu.info).Keys)
      ensures var n := NumBlocks(|t.tokens|, blockSize);
        && (r.Err? ==> unchanged(this) && (r.error.KeyError? || r.error.AssertionError? || r.error.IndexError? || r.error.OutOfMemory?))
        && gpu.NumFreeBlocks() >= old(gpu.NumFreeBlocks()) - 1 && gpu.bound >= old(gpu.bound)
        && (r == Err(KeyError) <==> id !in old(blockTables))
        && (id in old(blockTables) ==>
              && (r == Err(AssertionError) <==> |old(blockTables)[id]| + 1 < n)
              && (r == Err(IndexError) <==> old(blockTables)[id] == [] && n == 0)
              && (r == Err(OutOfMemory) <==>
                    && (|old(blockTables)[id]| + 1 == n || (|old(blockTables)[id]| == n > 0 && old(Last(blockTables[id]).refCount) != 1))
                    && old(gpu.NumFreeBlocks()) <= 0 && !(LastHash(t).Some? && old(gpu.ContainsBlock(LastHash(t).value)))))
        && (r.Ok? ==>
              && texts == old(texts)[id := t] && LastShows(id, t) && n > 0 && blockTables == old(blockTables)[id := blockTables[id]]
              && Appended(old(Holdings()), Holdings(), id, t, blockSize)
              && r.value == CopyFor(old(Holdings()), Holdings(), id)
              && (old(Lawful(Holdings(), blockSize)) ==> (Lawful(Holdings(), blockSize) <==> Steady(old(texts)[id], t, blockSize)))
              && blockTables[id][..n - 1] == old(blockTables)[id][..n - 1]
              && r.value == if |old(blockTables)[id]| == n && old(Last(blockTables[id]).refCount) != 1
                            then map[Last(old(blockTables)[id]).blockNumber := [Last(blockTables[id]).blockNumber]] else map[])
    {
      hide Sharing, Counts, HashFits, HashOfBlock, CachedBlockAllocator.Valid, Covers, Appended, Lawful, Steady, LastHash;
      if id !in blockTables {
        return Err(KeyError);
      }
      ghost var s := Holdings();
      HoldingsOk();
      CoversAt(blockTables, texts, blockSize, id);
      var table, n := blockTables[id], NumBlocks(|t.tokens|, blockSize);
      MoreTokens(|texts[id].tokens|, |t.tokens|, blockSize);
      if |table| < n {
        if |table| != n - 1 {
          return Err(AssertionError);
        }
        var _ :- AppendNew(id, t);
        Governed(s, id, t);
        return Ok(map[]);
      }
      if table == [] {
        return Err(IndexError);
      }
      var lastBlock := Last(table);
      LastMirrored(id);
      if lastBlock.refCount == 1 {
        if IsLastBlockFull(t) {
          PromoteLastBlock(id, t);
        } else {
          GrownFits(blockTables, gpu.info, texts, blockSize, id, t);
          CoversOne(blockTables, texts, blockSize, id, table, t);
          texts := texts[id := t];
          assert blockTables == blockTables[id := blockTables[id]];
          LastHashIs(t);
          InPlace(s, Holdings(), id, t, blockSize);
          assert LastHash(t).None?;
        }
        Governed(s, id, t);
        return Ok(map[]);
      }
      var _ :- ReplaceShared(id, t);
      Governed(s, id, t);
      return Ok(map[lastBlock.blockNumber := [Last(blockTables[id]).blockNumber]]);
    }

    /** The laws after `append_slots`. */
    lemma Governed(s: Shelf<PhysicalTokenBlock>, id: int, t: Text)
      requires Valid() && ShelfOk(s, blockSize) && Appended(s, Holdings(), id, t, blockSize)
      requires s.texts[id].tokens <= t.tokens && t.lora == s.texts[id].lora
      ensures Lawful(s, blockSize) ==> (Lawful(Holdings(), blockSize) <==> Steady(s.texts[id], t, blockSize))
    {
      hide Lawful, Steady, ShelfOk, LastIs;
      HoldingsOk();
      if Lawful(s, blockSize) {
        LawfulIff(s, Holdings(), id, t, blockSize);
      }
    }

    /** `can_append_slots` (297-307): a free block for each running member. */
    predicate CanAppendSlots(numSeqs: nat)
      reads gpu, gpu.evictor
    {
      numSeqs <= gpu.NumFreeBlocks()
    }

    /** `_append_slots` of the scheduler (964-987) for the running members of a group, each a token longer: what
        `can_append_slots` has asked for is enough for all of them.  Each member's last block is copied to its new one just
        when it was held by others as well at its turn.  `trail` are the states between the turns. */
    method AppendGroup(ids: seq<int>, ts: seq<Text>)
      returns (r: Result<seq<map<int, seq<int>>>>, ghost trail: seq<Shelf<PhysicalTokenBlock>>)
      requires Valid() && |ts| == |ids| && Distinct(ids) && forall i: nat | i < |ids| :: Longer(ids[i], ts[i])
      requires CanAppendSlots(|ids|)
      modifies this`blockTables, this`texts
      modifies gpu`currentNumBlocks, gpu`cachedBlocks, gpu`defaultHashCtr, gpu`bound, gpu`info, gpu.evictor, gpu.info.Keys
      ensures Valid() && fresh(gpu.info.Keys - old(gpu.info).Keys) && r.Ok? && |r.value| == |ids|
      ensures gpu.bound >= old(gpu.bound)
      ensures blockTables.Keys == old(blockTables).Keys && texts.Keys == old(texts).Keys
      ensures forall i: nat | i < |ids| ::
        ids[i] in old(blockTables) && ids[i] in blockTables && ids[i] in texts && texts[ids[i]] == ts[i]
        && |blockTables[ids[i]]| == NumBlocks(|ts[i].tokens|, blockSize)
        && r.value[i] == CopyAtTurn(old(blockTables), blockTables, ids[..i], ids[i])
      ensures forall id | id in blockTables && id !in ids :: blockTables[id] == old(blockTables)[id]
      ensures Turns(trail, ids, ts, blockSize) && trail[0] == old(Holdings()) && trail[|ids|] == Holdings()
      ensures Asked(trail, ids, r.value, |ids|) && forall k: nat | k < |trail| :: Located(trail[k], gpu.numBlocks, blockSize)
      ensures old(Lawful(Holdings(), blockSize)) ==> Lawful(Holdings(), blockSize)
    {
      hide Sharing, Counts, HashFits, CachedBlockAllocator.Valid, Covers, LastHash, NumBlocks, CachedBlockAllocator.NumFreeBlocks;
      hide SoFar, Turns, Asked, Located, Lawful, Steady, Appended, CopyFor, CopyAtTurn, FillsUp;
      var copies: seq<map<int, seq<int>>> := [];
      trail := [Holdings()];
      HoldingsLocated();
      TrailStarts(Holdings(), ids, ts, gpu.numBlocks, blockSize);
      for i := 0 to |ids|
        invariant Valid() && fresh(gpu.info.Keys - old(gpu.info).Keys) && gpu.NumFreeBlocks() >= |ids| - i
        invariant gpu.bound >= old(gpu.bound) && |trail| == i + 1 && trail[0] == old(Holdings()) && trail[i] == Holdings()
        invariant blockTables.Keys == old(blockTables).Keys && texts.Keys == old(texts).Keys
        invariant forall k: nat | k < i :: ids[k] in texts && texts[ids[k]] == ts[k]
        invariant forall k: nat | i <= k < |ids| :: Longer(ids[k], ts[k])
        invariant forall id | id in blockTables && id !in ids :: blockTables[id] == old(blockTables)[id]
        invariant SoFar(trail, ids, ts, copies, i, gpu.numBlocks, blockSize)
        invariant old(Lawful(Holdings(), blockSize)) ==> Lawful(Holdings(), blockSize)
      {
        HasText(ids[i]);
        OneLonger(ids[i], ts[i]);
        ContinuedSteady(texts[ids[i]], ts[i], blockSize);
        var cows := AppendSlots(ids[i], ts[i]);
        assert cows.Ok?;
        HoldingsLocated();
        SoFarNext(trail, ids, ts, copies, i, gpu.numBlocks, blockSize, Holdings(), cows.value);
        copies, trail := copies + [cows.value], trail + [Holdings()];
      }
      forall i: nat | i < |ids| ensures |blockTables[ids[i]]| == NumBlocks(|ts[i].tokens|, blockSize) {
        CoversAt(blockTables, texts, blockSize, ids[i]);
      }
      SoFarEnds(trail, ids, ts, copies, gpu.numBlocks, blockSize);
      TurnCount(trail, ids, ts, copies, blockSize);
      return Ok(copies), trail;
    }

    lemma TrailStarts(s: Shelf<PhysicalTokenBlock>, ids: seq<int>, ts: seq<Text>, n: nat, blockSize: nat)
      requires blockSize > 0 && |ids| == |ts| && Located(s, n, blockSize)
      ensures SoFar([s], ids, ts, [], 0, n, blockSize)
    {
      hide Located;
    }

    lemma TurnCount(trail: seq<Shelf<PhysicalTokenBlock>>, ids: seq<int>, ts: seq<Text>, copies: seq<map<int, seq<int>>>, blockSize: nat)
      requires Turns(trail, ids, ts, blockSize) && Asked(trail, ids, copies, |ids|)
      ensures |trail| == |ids| + 1 && |copies| == |ids|
    {
    }

    /** A sequence has got a token since its table was last changed. */
    ghost predicate Longer(id: int, t: Text)
      reads this`blockTables, this`texts
    {
      id in blockTables && id in texts && Continued(texts[id], t)
    }

    lemma OneLonger(id: int, t: Text)
      requires Valid() && Longer(id, t)
      ensures |blockTables[id]| <= NumBlocks(|t.tokens|, blockSize) <= |blockTables[id]| + 1 && NumBlocks(|t.tokens|, blockSize) > 0
    {
      OneMoreBlock(|texts[id].tokens|, blockSize);
      NumBlocksPositive(|t.tokens|, blockSize);
    }

    /** `fork` (420-431): the child starts with the tokens and the blocks of its parent. */
    method Fork(parent: int, child: int) returns (r: Result<()>)
      requires Valid() && child !in blockTables
      modifies this`blockTables, this`texts, gpu`info, gpu.info.Keys
      ensures Valid()
      ensures r.Ok? <==> parent in old(blockTables)
      ensures r.Err? ==> r.error == KeyError && unchanged(this)
      ensures r.Ok? ==>
        && blockTables == old(blockTables)[child := old(blockTables)[parent]] && parent in old(texts)
        && texts == old(texts)[child := old(texts)[parent]]
        && gpu.info.Keys == old(gpu.info).Keys && (forall b | b in gpu.info :: gpu.info[b].hash == old(gpu.info)[b].hash)
        && (old(Lawful(Holdings(), blockSize)) ==> Lawful(Holdings(), blockSize))
    {
      hide Sharing, Counts, HashFits, FilesOk, Numbered, Covers, Lawful, HashesStay;
      if parent !in blockTables {
        return Err(KeyError);
      }
      HasText(parent);
      ghost var s := Holdings();
      HoldingsOk();
      ghost var tables, texts' := blockTables, texts[child := texts[parent]];
      EmptyTable(tables, gpu.info, texts, blockSize, child, texts[parent]);
      var table := blockTables[parent];
      for k := 0 to |table|
        invariant unchanged(this) && gpu.Valid() && gpu.info.Keys == old(gpu.info).Keys
        invariant forall b | b in gpu.info :: gpu.info[b].hash == old(gpu.info)[b].hash
        invariant Sharing(tables[child := table[..k]], gpu.info, texts', blockSize) && Counts(tables[child := table[..k]], gpu.info, {})
      {
        ForkNext(gpu.Books(), tables[child := table[..k]], texts', blockSize, parent, child, k);
        gpu.AddReference(table[k]);
        assert tables[child := table[..k]][child := table[..k + 1]] == tables[child := table[..k + 1]];
      }
      assert table[..|table|] == table;
      blockTables, texts := blockTables[child := table], texts';
      CoversMore(tables, old(texts), blockSize, parent, child);
      HoldingsOk();
      SameHashes(s, Holdings().info, blockSize);
      if Lawful(s, blockSize) {
        LawfulForked(s, Holdings(), parent, child, blockSize);
      }
      return Ok(());
    }

    lemma HasText(id: int)
      requires Valid() && id in blockTables
      ensures id in texts
    {
    }

    /** `free` (534-540): each block of the table loses one reference, in any order (528). */
    method Free(id: int)
      requires Valid()
      modifies this`blockTables, this`texts, gpu`cachedBlocks, gpu`info, gpu.evictor, gpu.info.Keys
      ensures Valid() && blockTables == old(blockTables) - {id} && texts == old(texts) - {id}
      ensures gpu.info.Keys == old(gpu.info).Keys && forall b | b in gpu.info :: gpu.info[b].hash == old(gpu.info)[b].hash
      ensures old(Lawful(Holdings(), blockSize)) ==> Lawful(Holdings(), blockSize)
    {
      hide Sharing, Counts, HashFits, CachedBlockAllocator.Valid, Covers, Lawful, HashesStay;
      ghost var s := Holdings();
      HoldingsOk();
      if id !in blockTables {
        assert blockTables - {id} == blockTables && texts - {id} == texts by { SameKeys(); }
        return;
      }
      TableOwed(blockTables, gpu.info, texts, blockSize, id);
      CoversFewer(blockTables, texts, blockSize, id);
      ghost var tables, before := blockTables - {id}, texts - {id};
      var rest := Elements(blockTables[id]);
      blockTables, texts := blockTables - {id}, before;
      while rest != {}
        invariant gpu.Valid() && rest <= gpu.info.Keys && gpu.info.Keys == old(gpu.info).Keys
        invariant blockTables == tables && texts == before
        invariant forall b | b in gpu.info :: gpu.info[b].hash == old(gpu.info)[b].hash
        invariant Sharing(tables, gpu.info, before, blockSize) && Counts(tables, gpu.info, rest)
        decreases |rest|
      {
        var block :| block in rest;
        DropOwed(block, rest);
        rest := rest - {block};
      }
      SameHashes(s, gpu.info, blockSize);
      if Lawful(s, blockSize) {
        LawfulFewer(s, Holdings(), {id}, blockSize);
      }
    }

    /** `access_all_blocks_in_seq` (557-567): blocks in use are not in the evictor's table, so its order stands. */
    method AccessAllBlocksInSeq(id: int, accessTime: int) returns (r: Result<()>)
      requires Valid()
      modifies gpu.info.Keys`lastAccessed
      ensures Valid() && (r.Ok? <==> id in blockTables) && (r.Err? ==> r.error == KeyError)
      ensures r.Ok? ==> forall b | b in blockTables[id] :: b.lastAccessed == accessTime
      ensures forall b | b in gpu.info && (r.Ok? ==> b !in blockTables[id]) :: b.lastAccessed == old(b.lastAccessed)
      ensures gpu.evictor.Contenders() == old(gpu.evictor.Contenders())
    {
      hide Sharing, Counts, HashFits, FilesOk, Covers;
      if id !in blockTables {
        return Err(KeyError);
      }
      var table := blockTables[id];
      UsedNotEvictable(id);
      for i := 0 to |table|
        invariant forall k | 0 <= k < i :: table[k].lastAccessed == accessTime
        invariant forall b | b in gpu.info && b !in table :: b.lastAccessed == old(b.lastAccessed)
      {
        table[i].lastAccessed := accessTime;
      }
      return Ok(());
    }

    lemma UsedNotEvictable(id: int)
      requires Valid() && id in blockTables
      ensures forall i: nat | i < |blockTables[id]| :: blockTables[id][i] in gpu.info && blockTables[id][i] !in gpu.evictor.table
      ensures forall i: nat | i < |gpu.evictor.table| :: gpu.evictor.table[i] in gpu.info
    {
      assert TableFits(blockTables[id], gpu.info, texts[id], blockSize);
      forall i: nat | i < |blockTables[id]| ensures blockTables[id][i] !in gpu.evictor.table {
        assert id in Holders(blockTables, blockTables[id][i]);
      }
    }

    lemma SameKeys()
      requires Valid()
      ensures texts.Keys == blockTables.Keys
    {
    }
  }

  /** The hashes of the first `n` blocks of a sequence. */
  ghost function Hashes(t: Text, n: nat, blockSize: nat): set<Hash> {
    if n == 0 then {} else Hashes(t, n - 1, blockSize) + {HashOfBlock(t, n - 1, blockSize)}
  }

  /** How many of the first `n` blocks have no block in use to share. */
  ghost function Lacking(t: Text, n: nat, used: set<Hash>, blockSize: nat): nat {
    if n == 0 then 0 else Lacking(t, n - 1, used, blockSize) + if HashOfBlock(t, n - 1, blockSize) in used then 0 else 1
  }

  lemma NoHashes(t: Text, used: set<Hash>, blockSize: nat)
    ensures Hashes(t, 0, blockSize) == {} && Lacking(t, 0, used, blockSize) == 0
  {
  }

  lemma {:induction false} LackingAtMost(t: Text, n: nat, used: set<Hash>, blockSize: nat)
    ensures Lacking(t, n, used, blockSize) <= n
  {
    if n > 0 {
      LackingAtMost(t, n - 1, used, blockSize);
    }
  }

  lemma {:induction false} LackingMore(t: Text, i: nat, n: nat, used: set<Hash>, blockSize: nat)
    requires i <= n
    ensures Lacking(t, i, used, blockSize) <= Lacking(t, n, used, blockSize)
  {
    if i < n {
      LackingMore(t, i, n - 1, used, blockSize);
    }
  }

  /** The blocks of one sequence have different hashes. */
  lemma {:induction false} NotYetHashed(t: Text, k: nat, i: nat, blockSize: nat)
    requires blockSize > 0 && k <= i && i * blockSize < |t.tokens|
    ensures HashOfBlock(t, i, blockSize) !in Hashes(t, k, blockSize)
  {
    if k > 0 {
      MulAtLeast(k, i, blockSize);
      NotYetHashed(t, k - 1, i, blockSize);
      HashOfBlockFits(t, i, blockSize);
      assert |HashOfBlock(t, k - 1, blockSize).tokens| <= k * blockSize;
    }
  }

  lemma LackingNext(t: Text, i: nat, n: nat, used: set<Hash>, blockSize: nat)
    requires blockSize > 0 && i < n && i * blockSize < |t.tokens|
    ensures HashOfBlock(t, i, blockSize) in used + Hashes(t, i, blockSize) <==> HashOfBlock(t, i, blockSize) in used
    ensures Hashes(t, i + 1, blockSize) == Hashes(t, i, blockSize) + {HashOfBlock(t, i, blockSize)}
    ensures Lacking(t, i + 1, used, blockSize) ==
            Lacking(t, i, used, blockSize) + if HashOfBlock(t, i, blockSize) in used then 0 else 1
    ensures Lacking(t, i + 1, used, blockSize) <= Lacking(t, n, used, blockSize)
  {
    NotYetHashed(t, i, i, blockSize);
    LackingMore(t, i + 1, n, used, blockSize);
  }

  /** The hash that is asked for covers the prompt's tokens up to the end of the block. */
  lemma PromptHashIs(t: Text, i: nat, blockSize: nat)
    ensures PromptHash(HashOfBlock(t, i, blockSize), t, i, blockSize)
  {
  }

  lemma AllStay<B>(s: Shelf<B>, blockSize: nat)
    requires ShelfOk(s, blockSize)
    ensures HashesStay(s.tables, s.info, s.info)
  {
    hide HashFits, Counts, Covers;
    forall p, i: nat | p in s.tables && i < |s.tables[p]| ensures s.tables[p][i] in s.info {
      assert TableFits(s.tables[p], s.info, s.texts[p], blockSize);
    }
  }

  lemma SameHashes<B>(s: Shelf<B>, info: map<B, Info>, blockSize: nat)
    requires ShelfOk(s, blockSize) && info.Keys == s.info.Keys && forall b | b in info :: info[b].hash == s.info[b].hash
    ensures HashesStay(s.tables, s.info, info)
  {
    AllStay(s, blockSize);
  }

  /** Blocks in the tables are in use, so that they still keep their hashes after the next allocation. */
  lemma StayNext<B>(tables: map<int, seq<B>>, id: int, table: seq<B>, info0: map<B, Info>, info: map<B, Info>, info': map<B, Info>,
                    texts: map<int, Text>, blockSize: nat)
    requires id !in tables && HashesStay(tables, info0, info) && Counts(tables[id := table], info, {}) && info.Keys <= info'.Keys
    requires forall b | b in info && info[b].refs > 0 :: info'[b].hash == info[b].hash
    ensures HashesStay(tables, info0, info')
  {
    forall p, i: nat | p in tables && i < |tables[p]|
      ensures tables[p][i] in info0 && tables[p][i] in info' && info'[tables[p][i]].hash == info0[tables[p][i]].hash
    {
      assert p in Holders(tables[id := table], tables[p][i]);
    }
  }

  /** Nothing has changed but the text, and the last block is the sequence's own. */
  lemma InPlace<B>(s: Shelf<B>, s': Shelf<B>, id: int, t: Text, blockSize: nat)
    requires blockSize > 0 && id in s.tables && id in s.texts && s' == Shelf(s.tables, s.info, s.texts[id := t])
    requires |s.tables[id]| == NumBlocks(|t.tokens|, blockSize) > 0 && !FillsUp(t, blockSize)
    requires Last(s.tables[id]) in s.info && s.info[Last(s.tables[id])].refs == 1
    ensures Appended(s, s', id, t, blockSize)
  {
    assert s.tables[id := s.tables[id]] == s.tables;
  }

  /** A block of a prompt bears its number of tokens, or is one that bore its hash before. */
  ghost predicate MadeFor<B>(b: B, k: nat, info: map<B, Info>, numbers: map<B, nat>, info': map<B, Info>, numbers': map<B, nat>,
                             blockSize: nat)
  {
    && b in info' && b in numbers'
    && (numbers'[b] == k * blockSize + blockSize
        || (b in info && b in numbers && info'[b].hash == info[b].hash && numbers'[b] == numbers[b]))
  }

  /** The first blocks of a prompt are in `table`, and other blocks are what they were. */
  ghost predicate FilledBy<B>(s: Shelf<B>, numbers: map<B, nat>, info: map<B, Info>, now: map<B, nat>, table: seq<B>, t: Text,
                              blockSize: nat)
  {
    && s.info.Keys == numbers.Keys <= info.Keys == now.Keys && HashesStay(s.tables, s.info, info)
    && (forall b | b in info && b !in table :: b in s.info && info[b].hash == s.info[b].hash && now[b] == numbers[b])
    && forall k: nat | k < |table| ::
         && table[k] in info && info[table[k]].hash == HashOfBlock(t, k, blockSize)
         && MadeFor(table[k], k, s.info, numbers, info, now, blockSize)
  }

  /** One block more. */
  lemma FillNext<B>(s: Shelf<B>, numbers: map<B, nat>, info: map<B, Info>, now: map<B, nat>, info': map<B, Info>, now': map<B, nat>,
                    id: int, table: seq<B>, b: B, t: Text, texts: map<int, Text>, blockSize: nat)
    requires FilledBy(s, numbers, info, now, table, t, blockSize) && info'.Keys == now'.Keys && info.Keys <= info'.Keys
    requires id !in s.tables && Counts(s.tables[id := table], info, {}) && b !in table && b in info'
    requires forall c | c in info && info[c].refs > 0 :: info'[c].hash == info[c].hash
    requires forall c | c in info' && c != b :: c in info && info'[c] == info[c] && now'[c] == now[c]
    requires info'[b].hash == HashOfBlock(t, |table|, blockSize)
    requires now'[b] == |table| * blockSize + blockSize || (b in info && info[b].hash == info'[b].hash && now'[b] == now[b])
    ensures FilledBy(s, numbers, info', now', table + [b], t, blockSize)
  {
    hide HashesStay, HashOfBlock, Counts;
    StayNext(s.tables, id, table, s.info, info, info', texts, blockSize);
    var all := table + [b];
    forall k: nat | k < |all|
      ensures all[k] in info' && info'[all[k]].hash == HashOfBlock(t, k, blockSize)
      ensures MadeFor(all[k], k, s.info, numbers, info', now', blockSize)
    {
      if k < |table| {
        assert all[k] == table[k] && table[k] in table;
      }
    }
    assert forall c | c !in all :: c !in table && c != b by {
      assert forall c | c in table || c == b :: c in all by {
        assert all[|table|] == b;
      }
    }
  }

  /** The last block has been replaced, `between` being the blocks before the reference to the old one was dropped. */
  lemma AppendedShared<B>(s: Shelf<B>, between: map<B, Info>, s': Shelf<B>, id: int, t: Text, blockSize: nat)
    requires blockSize > 0 && id in s.tables && id in s.texts && id in s'.tables && |s.tables[id]| == NumBlocks(|t.tokens|, blockSize) > 0
    requires s'.texts == s.texts[id := t] && s'.tables == s.tables[id := s'.tables[id]] && |s'.tables[id]| == |s.tables[id]|
    requires s'.tables[id][..|s.tables[id]| - 1] == s.tables[id][..|s.tables[id]| - 1]
    requires var was, last := Last(s.tables[id]), Last(s'.tables[id]);
      && was in s.info && s.info[was].refs > 1 && last in between
      && s.info.Keys <= between.Keys == s'.info.Keys
      && (forall b | b in between && b != last :: b in s.info && between[b] == s.info[b])
      && (forall b | b in between :: s'.info[b].hash == between[b].hash)
      && (forall b | b in between && b != was :: s'.info[b] == between[b])
      && (FillsUp(t, blockSize) ==> between[last].hash == Content(t.tokens, t.lora))
      && (!FillsUp(t, blockSize) ==> between[last].hash.Fresh? && between[last].refs == 1)
      && (Found(s.info, last, t, blockSize) || (last in s.info ==> s.info[last].refs <= 0))
    ensures Appended(s, s', id, t, blockSize)
  {
    hide FillsUp;
  }

  /** What `NextBlock` did, on values. */
  lemma NextBlockIs<B>(hash: Option<Hash>, f: Files<B>, room: bool, r: Result<B>, after: Files<B>,
                       tables: map<int, seq<B>>, texts: map<int, Text>, owed: set<B>, blockSize: nat, id: int)
    requires FilesOk(f) && Sharing(tables, f.info, texts, blockSize) && Counts(tables, f.info, owed) && owed <= f.info.Keys
    requires id in tables && id in texts
    requires hash.Some? ==> hash.value.Content? && HashFits(hash.value, texts[id], |tables[id]|, blockSize)
    requires r.Ok? ==> Allotted(BooksFor(hash, f), HashFor(hash, f), room, r.value, after)
    requires r.Err? ==> after == BooksFor(hash, f)
    ensures Known(BooksFor(hash, f), HashFor(hash, f)) <==> hash.Some? && (hash.value in f.cached || hash.value in f.keys)
    ensures hash.Some? ==> BooksFor(hash, f) == f
    ensures hash.None? ==> HashFor(hash, f) !in f.cached
    ensures r.Err? ==> after.info == f.info
    ensures r.Ok? ==>
      && r.value in after.info && after.info[r.value].hash == HashFor(hash, f) && (hash.None? ==> after.info[r.value].refs == 1)
      && Sharing(tables[id := tables[id] + [r.value]], after.info, texts, blockSize)
      && Counts(tables[id := tables[id] + [r.value]], after.info, owed) && f.info.Keys <= after.info.Keys
      && r.value !in tables[id] && (hash.None? ==> after.info[r.value].hash.Fresh?)
      && (forall b | b in after.info && b != r.value :: b in f.info && after.info[b] == f.info[b])
      && (forall b | b in f.info && f.info[b].refs > 0 :: after.info[b].hash == f.info[b].hash)
      && (if Known(BooksFor(hash, f), HashFor(hash, f)) then r.value in f.info && f.info[r.value].hash == HashFor(hash, f)
          else r.value in f.info ==> f.info[r.value].refs <= 0)
      && forall i: nat | i < |tables[id]| ::
           tables[id][i] in f.info && tables[id][i] in after.info && after.info[tables[id][i]].hash == f.info[tables[id][i]].hash
  {
    hide FilesOk, Sharing, Counts, Allotted, HashFits;
    var g, h := BooksFor(hash, f), HashFor(hash, f);
    if hash.None? {
      NextDrawn(f);
      FreshFits(h, texts[id], |tables[id]|, blockSize);
    }
    WidenedOk(hash, f);
    if r.Ok? {
      EndNotAmong(g, h, tables, texts, blockSize, id);
      AllotAppends(g, h, room, r.value, after, tables, texts, owed, blockSize, id);
      AllottedIs(g, h, room, r.value, after);
      AllottedFound(g, h, room, r.value, after);
      GrantedElsewhere(g, h, room, r.value, after, tables, texts, owed, blockSize, id);
      StillHashed(g, after, tables, texts, owed, blockSize, id, h, r.value);
      if hash.None? {
        AllottedFresh(g, h, room, r.value, after);
      }
    }
  }

  lemma WidenedOk<B>(hash: Option<Hash>, f: Files<B>)
    requires FilesOk(f) && (hash.Some? ==> hash.value.Content?)
    ensures FilesOk(BooksFor(hash, f)) && (hash.Some? ==> BooksFor(hash, f) == f)
    ensures hash.None? ==> !Known(f, HashFor(hash, f)) && !Known(BooksFor(hash, f), HashFor(hash, f))
  {
    if hash.None? {
      NextDrawn(f);
    }
  }

  lemma FreshFits(h: Hash, t: Text, i: nat, blockSize: nat)
    requires h.Fresh?
    ensures HashFits(h, t, i, blockSize)
  {
  }

  lemma IsContent(t: Text, i: nat, blockSize: nat)
    ensures HashOfBlock(t, i, blockSize).Content?
  {
  }

  /** A block for an unknown hash has one reference (368-371). */
  lemma AllottedFresh<B>(f: Files<B>, h: Hash, room: bool, b: B, after: Files<B>)
    requires FilesOk(f) && Allotted(f, h, room, b, after) && !Known(f, h)
    ensures b in after.info && after.info[b].refs == 1
  {
  }

  lemma EmptyTable<B>(tables: map<int, seq<B>>, info: map<B, Info>, texts: map<int, Text>, blockSize: nat, id: int, t: Text)
    requires Sharing(tables, info, texts, blockSize) && Counts(tables, info, {}) && id !in tables
    ensures Sharing(tables[id := []], info, texts[id := t], blockSize) && Counts(tables[id := []], info, {})
  {
    var tables', texts' := tables[id := []], texts[id := t];
    forall b | b in info ensures info[b].refs == |Holders(tables', b)| {
      assert Holders(tables', b) == Holders(tables, b);
    }
    forall other | other in tables' ensures TableFits(tables'[other], info, texts'[other], blockSize) {
      assert other != id ==> TableFits(tables[other], info, texts[other], blockSize);
    }
  }

  lemma PromptBlock(length: nat, i: nat, blockSize: nat)
    requires blockSize > 0 && i < NumBlocks(length, blockSize)
    ensures i * blockSize < length
  {
    var n := NumBlocks(length, blockSize);
    DivModOf(length + blockSize - 1, blockSize);
    MulAtLeast(i + 1, n, blockSize);
    assert (i + 1) * blockSize == i * blockSize + blockSize;
  }

  /** An allocation changes no hash in a table. */
  lemma StillHashed<B>(f: Files<B>, after: Files<B>, tables: map<int, seq<B>>, texts: map<int, Text>, owed: set<B>, blockSize: nat,
                       id: int, h: Hash, b: B)
    requires Sharing(tables, f.info, texts, blockSize) && Counts(tables, f.info, owed) && id in tables
    requires after.info == f.info[b := Info(h, (if b in f.info then f.info[b].refs else 0) + 1)]
    requires b in f.info ==> f.info[b].refs >= 0 && (f.info[b].refs > 0 ==> f.info[b].hash == h)
    ensures forall i: nat | i < |tables[id]| ::
      tables[id][i] in f.info && tables[id][i] in after.info && after.info[tables[id][i]].hash == f.info[tables[id][i]].hash
  {
    hide HashFits, Holders, Distinct;
    assert TableFits(tables[id], f.info, texts[id], blockSize);
    if b in f.info && f.info[b].refs == 0 {
      UnusedUnheld(tables, f.info, owed, b, id);
    }
  }

  lemma NumBlocksPositive(length: nat, blockSize: nat)
    requires blockSize > 0 && length > 0
    ensures NumBlocks(length, blockSize) > 0
  {
    DivModOf(length + blockSize - 1, blockSize);
    LessFactor(0, NumBlocks(length, blockSize), blockSize);
  }

  lemma MoreTokens(length: nat, length': nat, blockSize: nat)
    requires blockSize > 0 && length <= length'
    ensures NumBlocks(length, blockSize) <= NumBlocks(length', blockSize)
  {
    var a, b := NumBlocks(length, blockSize), NumBlocks(length', blockSize);
    DivModOf(length + blockSize - 1, blockSize);
    DivModOf(length' + blockSize - 1, blockSize);
    assert (b + 1) * blockSize == b * blockSize + blockSize;
    LessFactor(a, b + 1, blockSize);
  }

  lemma CoversAt<B>(tables: map<int, seq<B>>, texts: map<int, Text>, blockSize: nat, id: int)
    requires Covers(tables, texts, blockSize) && id in tables && id in texts
    ensures |tables[id]| == NumBlocks(|texts[id].tokens|, blockSize)
  {
  }

  lemma CoversOne<B>(tables: map<int, seq<B>>, texts: map<int, Text>, blockSize: nat, id: int, table: seq<B>, t: Text)
    requires Covers(tables, texts, blockSize) && |table| == NumBlocks(|t.tokens|, blockSize)
    ensures Covers(tables[id := table], texts[id := t], blockSize)
  {
  }

  lemma CoversMore<B>(tables: map<int, seq<B>>, texts: map<int, Text>, blockSize: nat, parent: int, child: int)
    requires Covers(tables, texts, blockSize) && parent in tables && parent in texts
    ensures Covers(tables[child := tables[parent]], texts[child := texts[parent]], blockSize)
  {
  }

  lemma CoversFewer<B>(tables: map<int, seq<B>>, texts: map<int, Text>, blockSize: nat, id: int)
    requires Covers(tables, texts, blockSize)
    ensures Covers(tables - {id}, texts - {id}, blockSize)
  {
  }
}
