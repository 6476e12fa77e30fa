/** A swapped group of two live members that has room to return: the case in which the scheduler's assertion that a returning
    group has one new token (vllm/core/scheduler.py:548) fails. */
module SwappedPairs {
  import opened Wrappers
  import opened Blocks
  import opened Paging
  import opened Swapping
  import opened Sequences
  import opened GroupStates
  import opened Rosters
  import opened UncachedAllocator
  import opened BlockManager
  import opened Budget
  import opened Queues
  import opened Transfers
  import opened Forecasts
  import opened Scheduling
  import opened Steps
  import Policy

  /** Two samples of one prompt, each with a token more. */
  function Pair(status: Status): SequenceGroup {
    SequenceGroup(7, 0.0, 2, false, [Sequence(1, status, [5, 6], 1, Decode), Sequence(2, status, [5, 8], 1, Decode)])
  }

  function Prompt(): SequenceGroup {
    SequenceGroup(7, 0.0, 2, false, [Sequence(1, Waiting, [5], 0, Prefill)])
  }

  lemma PairIs(status: Status)
    requires !status.IsFinished()
    ensures var g := Pair(status);
      && g.WithStatus(status) == Unfinished(g.seqs) == g.seqs && Ids(g.seqs) == [1, 2] && DistinctIds(g.seqs)
      && GroupOk(g) && AllLive(g, status) && Decoding(g) && g.MaxNumRunningSeqs() == 2
  {
    var a, b := Sequence(1, status, [5, 6], 1, Decode), Sequence(2, status, [5, 8], 1, Decode);
    assert [a, b][1..] == [b] && [b][1..] == [];
    assert Unfinished([b]) == [b] && Select([b], status) == [b];
  }

  lemma PromptIs()
    ensures Prompt().WithStatus(Waiting) == Prompt().seqs && Ids(Prompt().seqs) == [1]
  {
    assert Prompt().seqs[1..] == [];
  }

  lemma GrantedAlone(l: Ledger<PhysicalTokenBlock>, table: BlockTable, gpu: set<PhysicalTokenBlock>, cpu: set<PhysicalTokenBlock>)
    requires Sound(l, gpu, cpu) && Exact(l) && l.tables == map[] && |table| == 1 && table[0] in FreeSet(l)
    ensures Exact(Granted(l, [1], table, 1)) && Granted(l, [1], table, 1).tables == map[1 := table]
  {
    hide Covered, Slack, WellFormed;
    assert table == [table[0]] && forall b | b in table :: b == table[0];
    GrantExactIff(l, gpu, cpu, [1], table, 1);
  }

  lemma RecountedExact(l: Ledger<PhysicalTokenBlock>, tables: map<int, BlockTable>)
    requires Covered(l) && Exact(l)
    ensures Exact(Recounted(l, tables))
  {
    hide Slack;
    var r := Recounted(l, tables);
    assert forall b | b in l.refs :: Slack(r, b) == Slack(l, b) == 0;
  }

  /** The pair shares one block wherever it is. */
  lemma PairMoved(l: Ledger<PhysicalTokenBlock>, now: Ledger<PhysicalTokenBlock>, block: PhysicalTokenBlock,
                  mapping: map<PhysicalTokenBlock, PhysicalTokenBlock>, gpu: set<PhysicalTokenBlock>, cpu: set<PhysicalTokenBlock>)
    requires Covered(l) && Exact(l) && l.tables == map[1 := [block], 2 := [block]]
    requires MovedTables(l, now, [1, 2], mapping, gpu, cpu)
    ensures now.tables.Keys == {1, 2} && |now.tables[1]| == 1 && now.tables[2] == now.tables[1] && now.tables[1][0] in cpu
    ensures now.refs.Keys == l.refs.Keys && Exact(now)
  {
    hide Covered, Slack, Holders, Exact, BlocksOf, Recounted;
    assert 1 in [1, 2] && 2 in [1, 2];
    assert 1 in l.tables && Remapped(mapping, l.tables[1], now.tables[1]);
    assert 2 in l.tables && Remapped(mapping, l.tables[2], now.tables[2]);
    RecountedExact(l, now.tables);
  }

  /** Blocks that no table holds are not referenced. */
  lemma Unreferenced(l: Ledger<PhysicalTokenBlock>, gpu: set<PhysicalTokenBlock>)
    requires Exact(l) && gpu <= l.refs.Keys && forall id, b | id in l.tables && b in gpu :: b !in l.tables[id]
    ensures forall b | b in gpu :: l.refs[b] == 0
  {
    forall b | b in gpu ensures l.refs[b] == 0 {
      assert Slack(l, b) == 0;
      assert forall id :: id !in Holders(l.tables, b);
      assert Holders(l.tables, b) == {};
    }
  }

  lemma ManagerIs(bm: BlockSpaceManager)
    requires bm.Valid()
    ensures bm.ledger.tables == bm.blockTables && Covered(bm.ledger) && Sound(bm.ledger, bm.gpu.blocks, bm.cpu.blocks)
    ensures bm.blockSize > 0 && bm.gpu != bm.cpu && bm.gpu.blocks !! bm.cpu.blocks
    ensures forall b | b in bm.gpu.freeBlocks :: b in FreeSet(bm.ledger) && b in bm.gpu.blocks
    ensures forall b | b in bm.gpu.blocks :: b.refCount == bm.ledger.refs[b]
    ensures bm.gpu.Valid()
  {
    hide Covered;
  }

  /** The prompt gets its block. */
  method GrantPrompt(bm: BlockSpaceManager) returns (ghost block: PhysicalTokenBlock)
    requires bm.Valid() && Exact(bm.ledger) && bm.blockTables == map[] && bm.blockSize == 16 && bm.gpu.freeBlocks != []
    modifies bm, bm.gpu, bm.gpu.blocks
    ensures bm.Valid() && Exact(bm.ledger) && bm.blockTables == map[1 := [block]] && block in bm.gpu.blocks
    ensures |bm.gpu.freeBlocks| == |old(bm.gpu.freeBlocks)| - 1
  {
    hide Covered, Slack, Granted, Exact, BlockSpaceManager.Valid;
    PromptIs();
    ManagerIs(bm);
    ghost var l, free := bm.ledger, bm.gpu.freeBlocks;
    assert Prompt().WithStatus(Waiting) == [Sequence(1, Waiting, [5], 0, Prefill)];
    assert bm.NumPromptBlocks(Prompt()) == 1;
    var granted := bm.Allocate(Prompt());
    assert granted.Ok?;
    block := free[|free| - 1];
    assert block in free;
    assert bm.blockTables[1] == [block];
    GrantedAlone(l, [block], bm.gpu.blocks, bm.cpu.blocks);
    ManagerIs(bm);
  }

  lemma ForkedTables(l: Ledger<PhysicalTokenBlock>, parent: int, child: int)
    requires parent in l.tables
    ensures ForkedLedger(l, parent, child).tables == l.tables[child := l.tables[parent]]
  {
  }

  /** Its one member is forked. */
  method ForkPrompt(bm: BlockSpaceManager, ghost block: PhysicalTokenBlock)
    requires bm.Valid() && Exact(bm.ledger) && bm.blockTables == map[1 := [block]]
    modifies bm`blockTables, bm`ledger, bm.gpu.blocks, bm.cpu.blocks
    ensures bm.Valid() && Exact(bm.ledger) && bm.blockTables == map[1 := [block], 2 := [block]]
  {
    hide Covered, Slack, ForkedLedger, Exact, BlockSpaceManager.Valid;
    ManagerIs(bm);
    ghost var l := bm.ledger;
    ForkExactIff(l, bm.gpu.blocks, bm.cpu.blocks, 1, 2);
    var forked := bm.Fork(1, 2);
    assert forked.Ok?;
    ManagerIs(bm);
    ForkedTables(l, 1, 2);
  }

  lemma OneBlock(tables: map<int, BlockTable>, block: PhysicalTokenBlock)
    requires tables == map[1 := [block], 2 := [block]]
    ensures BlocksOf(tables, [1, 2]) == {block}
  {
    assert 1 in [1, 2] && block in tables[1];
  }

  /** The pair is swapped out, which leaves the GPU empty. */
  method SwapOutPair(bm: BlockSpaceManager, ghost block: PhysicalTokenBlock)
    requires bm.Valid() && Exact(bm.ledger) && bm.blockTables == map[1 := [block], 2 := [block]] && block in bm.gpu.blocks
    requires bm.gpu.Numbered() && |bm.cpu.freeBlocks| >= 1
    modifies bm, bm.gpu, bm.cpu, bm.gpu.blocks, bm.cpu.blocks
    ensures bm.Valid() && bm.blockTables.Keys == {1, 2}
    ensures |bm.blockTables[1]| == 1 && bm.blockTables[2] == bm.blockTables[1] && bm.blockTables[1][0] in bm.cpu.blocks
    ensures |bm.gpu.freeBlocks| == bm.gpu.numBlocks
  {
    hide Covered, Slack, Holders, Recounted, Exact, BlockSpaceManager.Valid, MovedTables, UncachedBlockAllocator.Valid;
    hide UncachedBlockAllocator.Numbered;
    ManagerIs(bm);
    PairIs(Running);
    ghost var l := bm.ledger;
    OneBlock(bm.blockTables, block);
    ghost var moved;
    var mapping;
    mapping, moved := bm.SwapOut(Pair(Running));
    assert mapping.Ok?;
    ManagerIs(bm);
    PairMoved(l, bm.ledger, block, moved, bm.gpu.blocks, bm.cpu.blocks);
    Unreferenced(bm.ledger, bm.gpu.blocks);
    bm.gpu.FullFreeListIff();
  }

  lemma PairHeld(tables: map<int, BlockTable>)
    requires tables.Keys == {1, 2} && |tables[1]| == 1 && tables[2] == tables[1]
    ensures Held(tables, Pair(Status.Swapped)) == 1
  {
    PairIs(Status.Swapped);
    assert tables[1] == [tables[1][0]] && tables[1][0] in tables[1] && 1 in [1, 2];
    assert BlocksOf(tables, [1, 2]) == {tables[1][0]};
  }

  lemma PairSwapped(tables: map<int, BlockTable>, cpu: set<PhysicalTokenBlock>)
    requires tables.Keys == {1, 2} && |tables[1]| == 1 && tables[2] == tables[1] && tables[1][0] in cpu
    ensures SwappedOk(Pair(Status.Swapped), tables, cpu, 16)
  {
    hide GroupOk, AllLive, Decoding;
    PairIs(Status.Swapped);
    assert tables[1] == [tables[1][0]];
    assert NumBlocks(2, 16) == 1;
    var g := Pair(Status.Swapped);
    assert g.seqs == [g.seqs[0], g.seqs[1]] && !g.seqs[0].IsFinished() && !g.seqs[1].IsFinished();
    assert Housed(g.seqs[0], tables, cpu, 16) && Housed(g.seqs[1], tables, cpu, 16);
  }

  /** Everything the scheduler asks of the pair in its swapped queue. */
  lemma PairInOrder(tables: map<int, BlockTable>, gpu: set<PhysicalTokenBlock>, cpu: set<PhysicalTokenBlock>)
    requires tables.Keys == {1, 2} && SwappedOk(Pair(Status.Swapped), tables, cpu, 16)
    ensures EntriesOk(multiset{} + Tagged([Pair(Status.Swapped)], InSwapped), tables, gpu, cpu, 16, map[1 := 7, 2 := 7])
    ensures Unshared(tables, map[1 := 7, 2 := 7])
  {
    hide SwappedOk;
    var g := Pair(Status.Swapped);
    var e := Entry(g, InSwapped);
    TaggedOne(g, InSwapped);
    assert multiset{} + Tagged([g], InSwapped) == multiset{e};
    assert g.seqs[0] in g.seqs && g.seqs[1] in g.seqs;
    assert HasMember(g, 1) && HasMember(g, 2) && e in multiset{e};
  }

  /** A scheduler whose swapped queue may hold the pair, and a fresh budget. */
  method ReadyPair() returns (s: Scheduler, budget: SchedulingBudget)
    ensures fresh(s) && fresh(s.blockManager) && fresh(s.blockManager.gpu) && fresh(s.blockManager.cpu) && fresh(budget)
    ensures fresh(s.blockManager.gpu.blocks) && fresh(s.blockManager.cpu.blocks)
    ensures s.blockManager.blockSize > 0 && s.ManagerOk() && s.InOrder(multiset{} + Tagged([Pair(Status.Swapped)], InSwapped))
    ensures SwappedOk(Pair(Status.Swapped), s.blockManager.blockTables, s.blockManager.cpu.blocks, s.blockManager.blockSize)
    ensures budget.requestIdsNumBatchedTokens == {} == budget.requestIdsNumCurrSeqs && s.CanReturn(Pair(Status.Swapped), budget)
  {
    hide BlockSpaceManager.Valid, UncachedBlockAllocator.Valid, UncachedBlockAllocator.Numbered, Exact, EntriesOk, SwappedOk;
    hide Scheduler.Valid;
    hide Held, Unshared, Tagged, Pair, SequenceGroup.WithStatus, SequenceGroup.MaxNumRunningSeqs, NewTokens, Roster, SumMax;
    var bm := new BlockSpaceManager(16, 4, 4, 0);
    s := new Scheduler(bm, 2048, 256, 2048);
    budget := new SchedulingBudget(2048, 256);
    ghost var block := GrantPrompt(bm);
    ForkPrompt(bm, block);
    SwapOutPair(bm, block);
    PairHeld(bm.blockTables);
    PairSwapped(bm.blockTables, bm.cpu.blocks);
    PairInOrder(bm.blockTables, bm.gpu.blocks, bm.cpu.blocks);
    PairTokens();
    s.owner := map[1 := 7, 2 := 7];
  }

  lemma PairTokens()
    ensures var g := Pair(Status.Swapped);
      NewTokens(g.WithStatus(Status.Swapped)) == 2 == |g.WithStatus(Status.Swapped)| && g.MaxNumRunningSeqs() == 2
  {
    PairIs(Status.Swapped);
    LiveTokens(Pair(Status.Swapped), Status.Swapped);
  }

  lemma PairStumbles(s: Scheduler, budget: SchedulingBudget, now: real)
    requires s.blockManager.blockSize > 0 && s.CanReturn(Pair(Status.Swapped), budget)
    ensures Stumbles(Policy.SortByPriority(now, [Pair(Status.Swapped)]), s.blockManager.blockTables, s.RoomNow(budget),
                     s.blockManager.blockSize)
    ensures RequestIds([Pair(Status.Swapped)]) == {7}
  {
    hide Held;
    var g := Pair(Status.Swapped);
    PairTokens();
    PairIs(Status.Swapped);
    assert [g][1..] == [] && Policy.SortByPriority(now, []) == [];
    assert Policy.SortByPriority(now, [g]) == [g];
    assert g in [g];
  }

  /** The pair may return, and the assertion fails: the loop over the swapped groups raises its error. */
  method PairFails(now: real) returns (r: Result<SwappedInOutputs>)
    ensures r == Err(AssertionError)
  {
    hide Scheduler.ManagerOk, Scheduler.InOrder, SwappedOk, Scheduler.CanReturn, Stumbles, Pair, Scheduler.RoomNow, Policy.SortByPriority;
    hide Tagged, Requests, BackSoFar, Scheduler.Underway, Scheduler.Fetches, Groups, SumMax;
    var s, budget := ReadyPair();
    PairStumbles(s, budget, now);
    var left;
    ghost var back, landed;
    r, left, back, landed := s.ScheduleSwapped([Pair(Status.Swapped)], budget, now, multiset{});
  }
}
