/** A running group of two members that takes the room of another: the case in which the scheduler's count of running sequences
    (vllm/core/scheduler.py:401-405) is too low. */
module DisplacedGroups {
  import opened Wrappers
  import opened Blocks
  import opened Paging
  import opened Sequences
  import opened GroupStates
  import opened Rosters
  import opened UncachedAllocator
  import opened BlockManager
  import opened Budget
  import opened Queues
  import opened Transfers
  import opened Forecasts
  import opened Preemptions
  import opened Scheduling
  import opened Steps
  import opened SwappedPairs
  import Policy

  /** A later request for one sample. */
  function Later(): SequenceGroup {
    SequenceGroup(8, 1.0, 1, false, [Sequence(3, Running, [5, 9], 1, Decode)])
  }

  function LaterPrompt(): SequenceGroup {
    SequenceGroup(8, 1.0, 1, false, [Sequence(3, Waiting, [5], 0, Prefill)])
  }

  lemma LaterIs()
    ensures var g := Later();
      && g.WithStatus(Running) == Unfinished(g.seqs) == g.seqs && Ids(g.seqs) == [3] && DistinctIds(g.seqs)
      && GroupOk(g) && AllLive(g, Running) && Decoding(g) && g.MaxNumRunningSeqs() == 1
    ensures LaterPrompt().WithStatus(Waiting) == LaterPrompt().seqs && Ids(LaterPrompt().seqs) == [3]
  {
    assert Later().seqs[1..] == [] == LaterPrompt().seqs[1..];
  }

  lemma GrantedThird(l: Ledger<PhysicalTokenBlock>, block: PhysicalTokenBlock, other: PhysicalTokenBlock,
                     gpu: set<PhysicalTokenBlock>, cpu: set<PhysicalTokenBlock>)
    requires Sound(l, gpu, cpu) && Exact(l) && l.tables == map[1 := [block], 2 := [block]] && other in FreeSet(l)
    ensures Exact(Granted(l, [3], [other], 1)) && other != block
    ensures Granted(l, [3], [other], 1).tables == map[1 := [block], 2 := [block], 3 := [other]]
  {
    hide Slack, WellFormed;
    assert forall b | b in [other] :: b == other;
    GrantExactIff(l, gpu, cpu, [3], [other], 1);
    FreeBlockHasNoHolder(l, other);
    assert block in l.tables[1];
  }

  /** The later prompt gets its block. */
  method GrantLater(bm: BlockSpaceManager, ghost block: PhysicalTokenBlock) returns (ghost other: PhysicalTokenBlock)
    requires bm.Valid() && Exact(bm.ledger) && bm.blockTables == map[1 := [block], 2 := [block]] && bm.blockSize == 16
    requires bm.gpu.freeBlocks != []
    modifies bm, bm.gpu, bm.gpu.blocks
    ensures bm.Valid() && Exact(bm.ledger) && bm.blockTables == map[1 := [block], 2 := [block], 3 := [other]]
    ensures other in bm.gpu.blocks && other != block && |bm.gpu.freeBlocks| == |old(bm.gpu.freeBlocks)| - 1
  {
    hide Covered, Slack, Granted, Exact, BlockSpaceManager.Valid;
    LaterIs();
    ManagerIs(bm);
    ghost var l, free := bm.ledger, bm.gpu.freeBlocks;
    assert LaterPrompt().WithStatus(Waiting) == [Sequence(3, Waiting, [5], 0, Prefill)];
    assert bm.NumPromptBlocks(LaterPrompt()) == 1;
    var granted := bm.Allocate(LaterPrompt());
    assert granted.Ok?;
    other := free[|free| - 1];
    assert other in free;
    assert bm.blockTables[3] == [other];
    GrantedThird(l, block, other, bm.gpu.blocks, bm.cpu.blocks);
    ManagerIs(bm);
  }

  lemma BothRun(tables: map<int, BlockTable>, block: PhysicalTokenBlock, other: PhysicalTokenBlock, gpu: set<PhysicalTokenBlock>)
    requires tables == map[1 := [block], 2 := [block], 3 := [other]] && block in gpu && other in gpu
    ensures RunningOk(Pair(Running), tables, gpu, 16) && RunningOk(Later(), tables, gpu, 16)
  {
    hide GroupOk, AllLive, Decoding;
    PairIs(Running);
    LaterIs();
    assert NumBlocks(2, 16) == 1;
    var g := Pair(Running);
    assert g.seqs == [g.seqs[0], g.seqs[1]] && !g.seqs[0].IsFinished() && !g.seqs[1].IsFinished();
    assert Housed(g.seqs[0], tables, gpu, 16) && Housed(g.seqs[1], tables, gpu, 16) && Housed(Later().seqs[0], tables, gpu, 16);
  }

  lemma BothInOrder(tables: map<int, BlockTable>, block: PhysicalTokenBlock, other: PhysicalTokenBlock,
                    gpu: set<PhysicalTokenBlock>, cpu: set<PhysicalTokenBlock>)
    requires tables == map[1 := [block], 2 := [block], 3 := [other]] && block in gpu && other in gpu && block != other
    ensures var owner := map[1 := 7, 2 := 7, 3 := 8];
      Unshared(tables, owner) && EntriesOk(multiset{} + Tagged([Pair(Running), Later()], InRunning), tables, gpu, cpu, 16, owner)
  {
    hide RunningOk;
    BothRun(tables, block, other, gpu);
    var g, h := Pair(Running), Later();
    var e, f := Entry(g, InRunning), Entry(h, InRunning);
    TaggedOne(g, InRunning);
    TaggedOne(h, InRunning);
    TaggedConcat([g], [h], InRunning);
    assert [g] + [h] == [g, h] && multiset{} + Tagged([g, h], InRunning) == multiset{e, f};
    assert g.seqs[0] in g.seqs && g.seqs[1] in g.seqs && h.seqs[0] in h.seqs;
    assert HasMember(g, 1) && HasMember(g, 2) && HasMember(h, 3) && e in multiset{e, f} && f in multiset{e, f};
  }

  /** A prompt is granted and forked, and another one granted. */
  method FillBoth(bm: BlockSpaceManager) returns (ghost block: PhysicalTokenBlock, ghost other: PhysicalTokenBlock)
    requires bm.Valid() && Exact(bm.ledger) && bm.blockTables == map[] && bm.blockSize == 16 && |bm.gpu.freeBlocks| == 3
    modifies bm, bm.gpu, bm.gpu.blocks, bm.cpu.blocks
    ensures bm.Valid() && Exact(bm.ledger) && bm.ledger.tables == bm.blockTables == map[1 := [block], 2 := [block], 3 := [other]]
    ensures other in bm.ledger.refs && |bm.gpu.freeBlocks| == 1 && Unshared(bm.blockTables, map[1 := 7, 2 := 7, 3 := 8])
    ensures EntriesOk(multiset{} + Tagged([Pair(Running), Later()], InRunning), bm.blockTables, bm.gpu.blocks, bm.cpu.blocks, 16,
                      map[1 := 7, 2 := 7, 3 := 8])
  {
    hide BlockSpaceManager.Valid, Exact, EntriesOk, Unshared, Pair, Later, Tagged;
    block := GrantPrompt(bm);
    ForkPrompt(bm, block);
    other := GrantLater(bm, block);
    ManagerIs(bm);
    BothInOrder(bm.blockTables, block, other, bm.gpu.blocks, bm.cpu.blocks);
  }

  /** A scheduler that runs both, with one block free, and a budget in which both are counted. */
  method ReadyBoth() returns (s: Scheduler, budget: SchedulingBudget, ghost block: PhysicalTokenBlock, ghost other: PhysicalTokenBlock)
    ensures fresh(s) && fresh(s.blockManager) && fresh(s.blockManager.gpu) && fresh(s.blockManager.cpu) && fresh(budget)
    ensures fresh(s.blockManager.gpu.blocks) && fresh(s.blockManager.cpu.blocks)
    ensures s.ManagerOk() && s.InOrder(multiset{} + Tagged([Pair(Running), Later()], InRunning)) && s.blockManager.blockSize > 0
    ensures Exact(s.blockManager.ledger) && s.blockManager.ledger.tables == map[1 := [block], 2 := [block], 3 := [other]]
    ensures other in s.blockManager.ledger.refs && |s.blockManager.gpu.freeBlocks| == 1
    ensures budget.requestIdsNumBatchedTokens == {} && budget.numBatchedTokens == 0
    ensures budget.requestIdsNumCurrSeqs == {7, 8} && budget.numCurrSeqs == 3
  {
    hide BlockSpaceManager.Valid, UncachedBlockAllocator.Valid, UncachedBlockAllocator.Numbered, Exact, Scheduler.ManagerOk;
    hide Scheduler.InOrder, Tagged, Pair, Later, Scheduler.Valid, EntriesOk, Unshared;
    var bm := new BlockSpaceManager(16, 3, 4, 0);
    s := new Scheduler(bm, 2048, 256, 2048);
    budget := CountBoth();
    block, other := FillBoth(bm);
    s.owner := map[1 := 7, 2 := 7, 3 := 8];
    RunsBoth(s);
  }

  method CountBoth() returns (budget: SchedulingBudget)
    ensures fresh(budget) && budget.requestIdsNumBatchedTokens == {} && budget.numBatchedTokens == 0
    ensures budget.requestIdsNumCurrSeqs == {7, 8} && budget.numCurrSeqs == 3
  {
    budget := new SchedulingBudget(2048, 256);
    budget.AddNumSeqs(7, 2);
    budget.AddNumSeqs(8, 1);
  }

  lemma RunsBoth(s: Scheduler)
    requires s.blockManager.Valid() && s.blockManager.blockSize == 16 && s.blockManager.gpu.Numbered() && s.blockManager.cpu.Numbered()
    requires Unshared(s.blockManager.blockTables, s.owner)
    requires EntriesOk(multiset{} + Tagged([Pair(Running), Later()], InRunning), s.blockManager.blockTables,
                       s.blockManager.gpu.blocks, s.blockManager.cpu.blocks, 16, s.owner)
    ensures s.ManagerOk() && s.InOrder(multiset{} + Tagged([Pair(Running), Later()], InRunning))
  {
    hide BlockSpaceManager.Valid, EntriesOk, Unshared, UncachedBlockAllocator.Numbered;
  }

  lemma LaterGives(l: Ledger<PhysicalTokenBlock>, block: PhysicalTokenBlock, other: PhysicalTokenBlock)
    requires Exact(l) && l.tables == map[1 := [block], 2 := [block], 3 := [other]] && other in l.refs
    ensures |Given(l, Later())| == 1
  {
    hide Slack;
    LaterIs();
    assert 3 in [3] && other in l.tables[3];
    assert BlocksOf(l.tables, [3]) == {other};
    assert Slack(l, other) == 0;
    assert Given(l, Later()) == {other};
  }

  lemma BothSorted(now: real)
    ensures Policy.SortByPriority(now, [Pair(Running), Later()]) == [Pair(Running), Later()]
    ensures RequestIds([Pair(Running), Later()]) == {7, 8} && SumMax([Pair(Running), Later()]) == 3
    ensures |Pair(Running).WithStatus(Running)| == 2
  {
    var g, h := Pair(Running), Later();
    PairIs(Running);
    LaterIs();
    Policy.SortKeepsOrder(now, [g, h]);
    assert g in [g, h] && h in [g, h];
    assert [g, h] == [g] + [h];
    SumsConcat([g], [h]);
    SumsOne(g);
    SumsOne(h);
  }

  lemma LaterCostsNothing(tables: map<int, BlockTable>)
    ensures SwapCosts(tables, [Later()]) == 0
  {
    LaterIs();
    assert [Later()][1..] == [] && SwapCosts(tables, []) == 0;
  }

  /** The pair lacks room and takes that of the later request.  Two sequences go on, and one is counted. */
  method CountsOne(now: real) returns (r: Result<RunningOutputs>, count: int)
    ensures r.Ok? && Groups(r.value.decode) == [Pair(Running)] && SumMax(Groups(r.value.decode)) == 2 && count == 1
  {
    hide Scheduler.ManagerOk, Scheduler.InOrder, Exact, Pair, Later, TurnsOf, Given, Policy.SortByPriority, Tagged, Requests, Decoded;
    hide Groups, SumMax, SwapCosts, Stayed, Gone, Pressed, HoldsVictims, Scheduler.Ships, Roomy, RequestIds, SequenceGroup.WithStatus;
    var s, budget;
    ghost var block, other;
    s, budget, block, other := ReadyBoth();
    ghost var l := s.blockManager.ledger;
    LaterGives(l, block, other);
    BothSorted(now);
    CountOfTwo(l, Pair(Running), Later(), 1, s.blockManager.blockSize);
    LaterCostsNothing(s.blockManager.blockTables);
    PairIs(Running);
    LaterIs();
    assert multiset{} + Tagged([Pair(Running), Later()], InRunning) == Tagged([Pair(Running), Later()], InRunning) + multiset{};
    ghost var kept, victims;
    r, kept, victims := s.ScheduleRunning([Pair(Running), Later()], budget, now, multiset{});
    count := budget.numCurrSeqs;
  }
}
