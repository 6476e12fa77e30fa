/** Two requests of different texts that come to share a block of the CPU (vllm/core/block_manager_v1.py:500-508). */
module SwappedPrefixes {
  import opened Wrappers
  import opened Blocks
  import opened Paging
  import opened Swapping
  import opened Sequences
  import opened Evictors
  import opened CachedAllocator
  import opened PrefixSharing
  import opened PrefixLaws
  import opened CachedBlockManager
  import opened CachedSwapping

  /** The prompt, and what it has become a token later. */
  const PROMPT: Text := Text([7], 0)

  function Grown(token: int): Text { Text([7, token], 0) }

  /** The sequence `id` is alone on the GPU with one block, which bears the hash of the prompt. */
  ghost predicate Alone(s: Shelf<PhysicalTokenBlock>, id: int, t: Text) {
    && s.tables.Keys == {id} == s.texts.Keys && s.texts[id] == t && |s.tables[id]| == 1
    && s.tables[id][0] in s.info && s.info[s.tables[id][0]].hash == Content([7], 0)
  }

  lemma OneHolder(s: Shelf<PhysicalTokenBlock>, id: int)
    requires ShelfOk(s, 3) && s.tables.Keys == {id} && |s.tables[id]| == 1
    ensures s.tables[id][0] in s.info && s.info[s.tables[id][0]].refs == 1
  {
    HeldCounted(s, 3, id, s.tables[id][0]);
    assert Holders(s.tables, s.tables[id][0]) == {id};
  }

  lemma PromptAlone(s: Shelf<PhysicalTokenBlock>, s': Shelf<PhysicalTokenBlock>, id: int)
    requires s.tables == map[] && s.texts == map[] && Admitted(s, s', id, PROMPT, 3) && ShelfOk(s', 3)
    ensures Alone(s', id, PROMPT)
  {
    hide Sharing, Counts;
    assert |s'.tables[id]| == NumBlocks(1, 3) == 1;
    assert PromptHash(s'.info[s'.tables[id][0]].hash, PROMPT, 0, 3);
  }

  lemma StaysInPlace(s: Shelf<PhysicalTokenBlock>, s': Shelf<PhysicalTokenBlock>, id: int, token: int)
    requires Alone(s, id, PROMPT) && ShelfOk(s, 3) && Appended(s, s', id, Grown(token), 3)
    ensures Alone(s', id, Grown(token))
  {
    hide ShelfOk;
    OneHolder(s, id);
    assert !FillsUp(Grown(token), 3) && NumBlocks(2, 3) == 1;
  }

  /** A request with that prompt starts and gets a token. */
  method Sample(manager: PrefixCachingManager, id: int, token: int)
    requires manager.Valid() && manager.blockSize == 3 && manager.blockTables == map[] && manager.gpu.NumFreeBlocks() >= 1
    modifies manager, manager.gpu, manager.gpu.evictor, manager.gpu.info.Keys
    ensures manager.Valid() && Alone(manager.Holdings(), id, Grown(token))
    ensures manager.gpu.bound >= old(manager.gpu.bound) && fresh(manager.gpu.info.Keys - old(manager.gpu.info).Keys)
    ensures manager.gpu.NumFreeBlocks() >= old(manager.gpu.NumFreeBlocks()) - 2
  {
    hide PrefixCachingManager.Valid, CachedBlockAllocator.NumFreeBlocks, Appended, Admitted, Alone, Lacking, ShelfOk;
    NoText(manager);
    LackingAtMost(PROMPT, 1, manager.gpu.cachedBlocks.Keys, 3);
    assert NumBlocks(1, 3) == 1 && NumBlocks(2, 3) == 1;
    ghost var s := manager.Holdings();
    var started := manager.Allocate(id, PROMPT);
    assert started.Ok?;
    manager.HoldingsOk();
    ghost var mid := manager.Holdings();
    PromptAlone(s, mid, id);
    Counted(manager, id, PROMPT);
    var grown := manager.AppendSlots(id, Grown(token));
    assert grown.Ok?;
    StaysInPlace(mid, manager.Holdings(), id, token);
  }

  lemma NoText(manager: PrefixCachingManager)
    requires manager.Valid() && manager.blockTables == map[]
    ensures manager.texts == map[]
  {
    manager.SameKeys();
  }

  lemma Counted(manager: PrefixCachingManager, id: int, t: Text)
    requires manager.Valid() && manager.blockSize == 3 && Alone(manager.Holdings(), id, t)
    ensures id in manager.blockTables && id in manager.texts && manager.texts[id] == t && |manager.blockTables[id]| == 1
    ensures Last(manager.blockTables[id]).refCount == 1
  {
    hide PrefixCachingManager.Valid;
    manager.HoldingsOk();
    OneHolder(manager.Holdings(), id);
    manager.LastMirrored(id);
  }

  /** The swapped sequence `id` has one block, which bears the hash of the prompt. */
  ghost predicate Parked(s: Shelf<PhysicalTokenBlock>, id: int, t: Text) {
    && id in s.tables && id in s.texts && s.texts[id] == t && |s.tables[id]| == 1
    && s.tables[id][0] in s.info && s.info[s.tables[id][0]].hash == Content([7], 0)
  }

  lemma SwapParks(g: Shelf<PhysicalTokenBlock>, c: Shelf<PhysicalTokenBlock>, c': Shelf<PhysicalTokenBlock>, id: int, t: Text,
                  moved: map<PhysicalTokenBlock, PhysicalTokenBlock>)
    requires Alone(g, id, t) && Brought(g, c, c', Elements([id]), moved)
    ensures Parked(c', id, t) && c'.tables.Keys == c.tables.Keys + {id}
    ensures forall p, u | p != id && Parked(c, p, u) :: Parked(c', p, u)
  {
    assert id in Elements([id]) && Elements([id]) == {id};
    assert g.tables[id][0] in moved;
    forall p, u | p != id && Parked(c, p, u) ensures Parked(c', p, u) {
      assert p in c'.tables.Keys && c.tables[p][0] in c.info;
    }
  }

  lemma OneBlock(g: Shelf<PhysicalTokenBlock>, id: int, t: Text)
    requires Alone(g, id, t)
    ensures |BlocksOf(g.tables, [id])| <= 1
  {
    hide BlocksOf;
    BlocksOfNone(g.tables);
    BlocksOfPrefix(g.tables, [id], 0);
    assert [id][..1] == [id] && [id][..0] == [];
    assert Elements(g.tables[id]) == {g.tables[id][0]};
  }

  /** The only sequence on the GPU is swapped out. */
  method SwapAlone(m: SwapManager, id: int, ghost t: Text)
    requires m.Valid() && Alone(m.onGpu.Holdings(), id, t) && id in m.onGpu.blockTables && m.cpu.NumFreeBlocks() >= 1
    modifies m, m.onGpu`blockTables, m.onGpu`texts
    modifies m.onGpu.gpu`cachedBlocks, m.onGpu.gpu`info, m.onGpu.gpu.evictor, m.onGpu.gpu.info.Keys
    modifies m.cpu`currentNumBlocks, m.cpu`cachedBlocks, m.cpu`defaultHashCtr, m.cpu`bound, m.cpu`info, m.cpu.evictor, m.cpu.info.Keys
    ensures m.Valid() && m.onGpu.blockTables == map[] && m.swapped.Keys == old(m.swapped).Keys + {id}
    ensures Parked(m.Away(), id, t) && forall p, u | p != id && Parked(old(m.Away()), p, u) :: Parked(m.Away(), p, u)
    ensures m.onGpu.gpu.NumFreeBlocks() >= old(m.onGpu.gpu.NumFreeBlocks())
    ensures m.cpu.NumFreeBlocks() >= old(m.cpu.NumFreeBlocks()) - 1
    ensures m.onGpu.gpu.info.Keys == old(m.onGpu.gpu.info).Keys && fresh(m.cpu.info.Keys - old(m.cpu.info).Keys)
  {
    hide SwapManager.Valid, SwapManager.OnCpu, PrefixCachingManager.Valid, CachedBlockAllocator.NumFreeBlocks, Alone, Brought, Parked;
    hide Needed, BlocksOf, Numbers, Joins, HashesAsBefore, Lawful, FullBears, Agree, NoClash, Crossed;
    ghost var g, c := m.onGpu.Holdings(), m.Away();
    OnGpu(g, id, t);
    OneBlock(g, id, t);
    NeededWithin([id], m.onGpu.blockTables, m.onGpu.gpu, m.cpu);
    ghost var moved;
    var swap;
    swap, moved := m.SwapOut([id]);
    assert swap.Ok?;
    SwapParks(g, c, m.Away(), id, t, moved);
    NoneLeft([id], Side(g.tables, g.texts), Side(m.onGpu.blockTables, m.onGpu.texts), Side(c.tables, c.texts),
             Side(m.swapped, m.swappedTexts), moved, id);
  }

  /** A request with that prompt starts, gets a token and is swapped out. */
  method SampleAndSwap(m: SwapManager, id: int, token: int)
    requires m.Valid() && m.onGpu.blockSize == 3 && m.onGpu.blockTables == map[] && id !in m.swapped
    requires m.onGpu.gpu.NumFreeBlocks() >= 1 && m.cpu.NumFreeBlocks() >= 1
    modifies m, m.onGpu, m.onGpu.gpu, m.onGpu.gpu.evictor, m.onGpu.gpu.info.Keys, m.cpu, m.cpu.evictor, m.cpu.info.Keys
    ensures m.Valid() && m.onGpu.blockTables == map[] && m.swapped.Keys == old(m.swapped).Keys + {id}
    ensures Parked(m.Away(), id, Grown(token))
    ensures forall p, t | p != id && Parked(old(m.Away()), p, t) :: Parked(m.Away(), p, t)
    ensures m.onGpu.gpu.NumFreeBlocks() >= old(m.onGpu.gpu.NumFreeBlocks()) - 2
    ensures m.cpu.NumFreeBlocks() >= old(m.cpu.NumFreeBlocks()) - 1
    ensures fresh(m.onGpu.gpu.info.Keys - old(m.onGpu.gpu.info).Keys) && fresh(m.cpu.info.Keys - old(m.cpu.info).Keys)
  {
    hide SwapManager.Valid, SwapManager.OnCpu, PrefixCachingManager.Valid, CachedBlockAllocator.NumFreeBlocks, Alone, Parked;
    m.Parts();
    Sample(m.onGpu, id, token);
    OnGpu(m.onGpu.Holdings(), id, Grown(token));
    m.Whole();
    SwapAlone(m, id, Grown(token));
  }

  lemma OnGpu(g: Shelf<PhysicalTokenBlock>, id: int, t: Text)
    requires Alone(g, id, t)
    ensures g.tables.Keys == {id}
  {
  }

  lemma NoneLeft(ids: seq<int>, from0: Side<PhysicalTokenBlock>, from: Side<PhysicalTokenBlock>, to0: Side<PhysicalTokenBlock>,
                 to: Side<PhysicalTokenBlock>, moved: map<PhysicalTokenBlock, PhysicalTokenBlock>, id: int)
    requires Crossed(ids, |ids|, from0, from, to0, to, moved) && ids == [id] && from0.tables.Keys == {id}
    ensures from.tables == map[]
  {
    CrossedAway(ids, from0, from, to0, to, moved);
    assert id in ids;
  }

  /** The first request is swapped out after the prompt's block has got its token; its block on the GPU is still found under
      the hash of the prompt by the second, which adds a token of its own and is swapped out to the block of the first. */
  method MixedUp() returns (m: SwapManager)
    ensures m.Valid() && m.swapped.Keys == {1, 2} && 1 in m.swappedTexts && 2 in m.swappedTexts
    ensures m.swappedTexts[1] == Text([7, 1], 0) && m.swappedTexts[2] == Text([7, 2], 0) && m.swapped[1] == m.swapped[2] != []
    ensures !Agree(m.Away(), m.onGpu.blockSize)
  {
    hide SwapManager.Valid, Parked, CachedBlockAllocator.NumFreeBlocks, SwapManager.BothLawful, Agree;
    m := new SwapManager(3, 4, 4, 0);
    BothFree(m);
    SampleAndSwap(m, 1, 1);
    SampleAndSwap(m, 2, 2);
    m.BooksAreInOrder();
    SameBlock(m.cpu.Books(), m.Away());
  }

  lemma AllFree(a: CachedBlockAllocator)
    requires a.Valid() && a.info == map[]
    ensures a.NumFreeBlocks() == a.numBlocks
  {
    assert |a.info.Keys| == a.currentNumBlocks == 0;
    AllBlocks(a.Books());
  }

  lemma BothFree(m: SwapManager)
    requires m.Valid() && m.onGpu.gpu.info == map[] == m.cpu.info
    ensures m.onGpu.gpu.NumFreeBlocks() == m.onGpu.gpu.numBlocks && m.cpu.NumFreeBlocks() == m.cpu.numBlocks
  {
    hide CachedBlockAllocator.Valid, CachedBlockAllocator.NumFreeBlocks;
    AllFree(m.onGpu.gpu);
    AllFree(m.cpu);
  }

  lemma SameBlock(f: Files<PhysicalTokenBlock>, c: Shelf<PhysicalTokenBlock>)
    requires FilesOk(f) && f.info == c.info && Parked(c, 1, Grown(1)) && Parked(c, 2, Grown(2))
    ensures c.tables[1] == c.tables[2] != [] && !Agree(c, 3) && 1 in c.texts && 2 in c.texts
    ensures c.texts[1] == Text([7, 1], 0) && c.texts[2] == Text([7, 2], 0)
  {
    hide FilesOk;
    OneBlockPerHash(f, c.tables[1][0]);
    OneBlockPerHash(f, c.tables[2][0]);
    assert !AgreeUpTo(c.texts[1], c.texts[2], 3) by {
      assert c.texts[1].tokens[1] != c.texts[2].tokens[1];
    }
  }
}
