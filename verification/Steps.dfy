/** The outputs of the scheduler's methods as values, and what one step makes of the queues (vllm/core/scheduler.py:104-213). */
module Steps {
  import opened Blocks
  import opened Paging
  import opened Swapping
  import opened Sequences
  import opened GroupStates
  import opened Rosters
  import opened Queues
  import opened Transfers
  import opened Forecasts
  import opened Preemptions
  import opened Footprints
  import Policy

  datatype PreemptionMode = SwapMode | RecomputeMode

  /** `SchedulerRunningOutputs` (151-183). */
  datatype RunningOutputs = RunningOutputs(
    decode: seq<ScheduledGroup>, preempted: seq<SequenceGroup>, swappedOut: seq<SequenceGroup>,
    blocksToSwapOut: map<int, int>, blocksToCopy: map<int, seq<int>>)

  /** `SchedulerSwappedInOutputs` (187-213). */
  datatype SwappedInOutputs = SwappedInOutputs(
    decode: seq<ScheduledGroup>, blocksToSwapIn: map<int, int>, blocksToCopy: map<int, seq<int>>)

  /** `SchedulerOutputs` (104-129). */
  datatype SchedulerOutputs = SchedulerOutputs(
    scheduled: seq<ScheduledGroup>, numPrefillGroups: nat, numBatchedTokens: int,
    blocksToSwapIn: map<int, int>, blocksToSwapOut: map<int, int>, blocksToCopy: map<int, seq<int>>,
    ignored: seq<SequenceGroup>)

  /** What the loop over waiting prompts does with the next one. */
  datatype Verdict = Ignore | Stop | Go

  /** `out` with the victim `v` in the list that its preemption mode selects. */
  ghost function WithVictim(out: RunningOutputs, v: SequenceGroup, moves: map<int, int>): RunningOutputs {
    if v.MaxNumRunningSeqs() == 1 then out.(preempted := out.preempted + [Preempted(v)])
    else out.(swappedOut := out.swappedOut + [Restated(v, Running, Status.Swapped)],
              blocksToSwapOut := out.blocksToSwapOut + moves)
  }

  lemma WithVictimIs(out: RunningOutputs, v: SequenceGroup, moves: map<int, int>)
    requires v.MaxNumRunningSeqs() == 1 ==> moves == map[]
    ensures WithVictim(out, v, moves).blocksToSwapOut == out.blocksToSwapOut + moves
    ensures WithVictim(out, v, moves).blocksToCopy == out.blocksToCopy
  {
    assert out.blocksToSwapOut + map[] == out.blocksToSwapOut;
  }

  /** The lists of `out` are those of `out0` and after them, in the order they were preempted, the groups of
      `victims`: the last group of the queue was preempted first. */
  ghost predicate HoldsVictims(out0: RunningOutputs, out: RunningOutputs, victims: seq<SequenceGroup>) {
    && out.decode == out0.decode && out.blocksToCopy == out0.blocksToCopy
    && Reversed(out.preempted) == Recomputed(victims) + Reversed(out0.preempted)
    && Reversed(out.swappedOut) == SwappedAway(victims) + Reversed(out0.swappedOut)
    && (victims == [] ==> out == out0)
  }

  lemma VictimHeld(out0: RunningOutputs, out: RunningOutputs, victims: seq<SequenceGroup>, v: SequenceGroup, moves: map<int, int>)
    requires HoldsVictims(out0, out, victims)
    ensures HoldsVictims(out0, WithVictim(out, v, moves), [v] + victims)
  {
    hide Preempted, Restated, Reversed, SequenceGroup.MaxNumRunningSeqs;
    var out', all := WithVictim(out, v, moves), [v] + victims;
    assert all[1..] == victims && all[0] == v;
    if v.MaxNumRunningSeqs() == 1 {
      ReversedGrows(out.preempted, Preempted(v));
      assert Recomputed(all) == [Preempted(v)] + Recomputed(victims) && SwappedAway(all) == SwappedAway(victims);
    } else {
      ReversedGrows(out.swappedOut, Restated(v, Running, Status.Swapped));
      assert SwappedAway(all) == [Restated(v, Running, Status.Swapped)] + SwappedAway(victims) && Recomputed(all) == Recomputed(victims);
    }
  }

  /** Only decoding groups so far. */
  ghost function EmptyOutputs(decode: seq<ScheduledGroup>, copies: map<int, seq<int>>): RunningOutputs {
    RunningOutputs(decode, [], [], map[], copies)
  }

  /** The running queue in order of arrival is split: `kept` decode, `left` have not had their turn, `victims` are
      preempted. */
  ghost predicate Split(sorted: seq<SequenceGroup>, kept: seq<SequenceGroup>, left: seq<SequenceGroup>,
                        victims: seq<SequenceGroup>, out: RunningOutputs) {
    && sorted == kept + left + victims && Groups(out.decode) == kept
    && (forall s | s in out.decode :: s.chunk == 1)
    && HoldsVictims(EmptyOutputs(out.decode, out.blocksToCopy), out, victims)
  }

  lemma SplitMore(sorted: seq<SequenceGroup>, kept: seq<SequenceGroup>, left: seq<SequenceGroup>, victims: seq<SequenceGroup>,
                  out: RunningOutputs, left': seq<SequenceGroup>, more: seq<SequenceGroup>, out': RunningOutputs)
    requires Split(sorted, kept, left, victims, out) && HoldsVictims(out, out', more) && left == left' + more
    ensures Split(sorted, kept, left', more + victims, out')
  {
    hide Recomputed, SwappedAway, Reversed, Groups;
    RecomputedConcat(more, victims);
    SwappedConcat(more, victims);
    assert kept + left + victims == kept + left' + (more + victims);
    VictimsHeldTwice(EmptyOutputs(out.decode, out.blocksToCopy), out, out', victims, more);
  }

  lemma VictimsHeldTwice(out0: RunningOutputs, out: RunningOutputs, out': RunningOutputs, victims: seq<SequenceGroup>,
                         more: seq<SequenceGroup>)
    requires HoldsVictims(out0, out, victims) && HoldsVictims(out, out', more)
    ensures HoldsVictims(out0, out', more + victims)
  {
    hide Recomputed, SwappedAway, Reversed;
    RecomputedConcat(more, victims);
    SwappedConcat(more, victims);
    var p, q := Reversed(out0.preempted), Reversed(out0.swappedOut);
    assert Recomputed(more) + (Recomputed(victims) + p) == Recomputed(more) + Recomputed(victims) + p;
    assert SwappedAway(more) + (SwappedAway(victims) + q) == SwappedAway(more) + SwappedAway(victims) + q;
  }

  lemma SplitDecode(sorted: seq<SequenceGroup>, kept: seq<SequenceGroup>, g: SequenceGroup, left: seq<SequenceGroup>,
                    victims: seq<SequenceGroup>, out: RunningOutputs, copies: map<int, seq<int>>)
    requires Split(sorted, kept, [g] + left, victims, out)
    ensures Split(sorted, kept + [g], left, victims,
                  out.(decode := out.decode + [ScheduledGroup(g, 1)], blocksToCopy := copies))
    ensures SumLive(kept + [g]) == SumLive(kept) + |Unfinished(g.seqs)|
    ensures RequestIds(kept + [g]) == RequestIds(kept) + {g.requestId}
  {
    hide Reversed, Recomputed, SwappedAway, Groups, SequenceGroup.MaxNumRunningSeqs, Unfinished;
    assert kept + ([g] + left) + victims == kept + [g] + left + victims;
    GroupsGrow(out.decode, ScheduledGroup(g, 1));
    SumsConcat(kept, [g]);
    SumsOne(g);
    assert g in kept + [g];
  }

  lemma DecodedStart(now: real, queue: seq<SequenceGroup>, rest: multiset<Entry>)
    ensures Decoded(rest, [], Policy.SortByPriority(now, queue), [], []) == rest + Tagged(queue, InRunning)
    ensures Groups([]) == [] && SumLive([]) == 0 && RequestIds([]) == {}
    ensures Split(Policy.SortByPriority(now, queue), [], Policy.SortByPriority(now, queue), [], RunningOutputs([], [], [], map[], map[]))
  {
    NoVictims(RunningOutputs([], [], [], map[], map[]));
    SortKeepsTagged(now, queue, InRunning);
  }

  /** Every group of the sorted queue is one of the queue. */
  lemma FromQueue(now: real, queue: seq<SequenceGroup>, kept: seq<SequenceGroup>, left: seq<SequenceGroup>,
                  victims: seq<SequenceGroup>, out: RunningOutputs)
    requires Split(Policy.SortByPriority(now, queue), kept, left, victims, out)
    ensures forall v | v in left || v in victims :: v in queue
  {
    Policy.SortIsStable(now, queue, now);
    forall v | v in left || v in victims ensures v in queue {
      assert v in kept + left + victims;
      assert v in multiset(queue);
    }
  }

  lemma SplitGroups(sorted: seq<SequenceGroup>, kept: seq<SequenceGroup>, left: seq<SequenceGroup>,
                    victims: seq<SequenceGroup>, out: RunningOutputs)
    requires Split(sorted, kept, left, victims, out)
    ensures Groups(out.decode) == kept
  {
  }

  lemma SplitEnds(sorted: seq<SequenceGroup>, kept: seq<SequenceGroup>, victims: seq<SequenceGroup>, out: RunningOutputs)
    requires Split(sorted, kept, [], victims, out)
    ensures sorted == kept + victims && Groups(out.decode) == kept && forall s | s in out.decode :: s.chunk == 1
    ensures HoldsVictims(EmptyOutputs(out.decode, out.blocksToCopy), out, victims)
  {
    assert kept + [] + victims == kept + victims;
  }

  lemma NoVictims(out: RunningOutputs)
    ensures HoldsVictims(out, out, [])
  {
    assert Recomputed([]) == [] == SwappedAway([]);
    assert [] + Reversed(out.preempted) == Reversed(out.preempted);
    assert [] + Reversed(out.swappedOut) == Reversed(out.swappedOut);
  }

  lemma GrewStart(live: seq<Sequence>, l0: Ledger<PhysicalTokenBlock>)
    ensures GrewAlone(0, live, l0, l0.tables, l0)
    ensures forall copies :: CopiesMade(copies, live[..0], l0.tables, l0.tables) == copies
  {
  }

  lemma GrewEnd(live: seq<Sequence>, l0: Ledger<PhysicalTokenBlock>, now: map<int, BlockTable>, l: Ledger<PhysicalTokenBlock>)
    requires GrewAlone(|live|, live, l0, now, l)
    ensures |live| == 1 && AllOnceHeld(live, l0) ==> Extends(live, l0.tables, now)
  {
  }

  lemma NextMember<B>(g: SequenceGroup, i: nat, owner: map<int, int>, tables: map<int, seq<B>>, gpu: set<B>, blockSize: nat)
    requires Owned(g, owner) && i < |Unfinished(g.seqs)| && blockSize > 0 && RunningOk(g, tables, gpu, blockSize)
    ensures Unfinished(g.seqs)[i].id in owner && Unfinished(g.seqs)[i].id !in Ids(Unfinished(g.seqs)[..i])
    ensures Unfinished(g.seqs)[i].id in tables
  {
    LiveMember(g, i);
  }

  lemma NothingYet<B>(gpu: set<B>, cpu: set<B>, blockSize: nat)
    ensures EntriesOk<B>(Roster([], [], []), map[], gpu, cpu, blockSize, map[]) && SumMax([]) == 0
    ensures Unshared<B>(map[], map[])
  {
  }

  lemma SwappedGrounds(g: SequenceGroup, tables: map<int, BlockTable>, cpu: set<PhysicalTokenBlock>, blockSize: nat)
    requires blockSize > 0 && SwappedOk(g, tables, cpu, blockSize)
    ensures Grounding(g, tables, cpu)
  {
  }

  /** The live members are the same before and after a change of status. */
  lemma SameLive(g: SequenceGroup, before: Ledger<PhysicalTokenBlock>, now: Ledger<PhysicalTokenBlock>,
                 mapping: map<PhysicalTokenBlock, PhysicalTokenBlock>, src: set<PhysicalTokenBlock>, dst: set<PhysicalTokenBlock>)
    requires Covered(before) && MovedTables(before, now, Ids(Unfinished(g.seqs)), mapping, src, dst)
    requires AllOn(before.tables, Ids(Unfinished(g.seqs)), src)
    ensures var g' := Restated(g, Status.Swapped, Running);
      && |Unfinished(g'.seqs)| == |Unfinished(g.seqs)| && Ids(Unfinished(g'.seqs)) == Ids(Unfinished(g.seqs))
      && (|Unfinished(g.seqs)| == 1 ==> AllOnceHeld(Unfinished(g'.seqs), now))
  {
    hide Covered, MovedTables, OnceHeld;
    var g' := Restated(g, Status.Swapped, Running);
    SameLiveIds(g.seqs, g'.seqs);
    if |Unfinished(g.seqs)| == 1 {
      var ids := Ids(Unfinished(g.seqs));
      AllOnAt(before.tables, ids, src, 0);
      assert ids == [ids[0]];
      SoleHolder(before, now, ids[0], mapping, src, dst);
      assert Unfinished(g'.seqs)[0].id == Ids(Unfinished(g'.seqs))[0];
    }
  }

  lemma SameExtends(g: SequenceGroup, between: map<int, BlockTable>, after: map<int, BlockTable>)
    requires Extends(Unfinished(Restated(g, Status.Swapped, Running).seqs), between, after)
    ensures Extends(Unfinished(g.seqs), between, after)
  {
    var a, b := Unfinished(g.seqs), Unfinished(Restated(g, Status.Swapped, Running).seqs);
    SameLiveIds(g.seqs, Restated(g, Status.Swapped, Running).seqs);
    forall s | s in a ensures s.id in between && s.id in after && between[s.id] <= after[s.id] {
      var k :| 0 <= k < |a| && a[k] == s;
      assert Ids(a)[k] == Ids(b)[k];
      assert b[k] in b && b[k].id == s.id;
    }
  }

  lemma {:induction false} SameLiveIds(a: seq<Sequence>, b: seq<Sequence>)
    requires |a| == |b| && forall i | 0 <= i < |a| :: a[i].id == b[i].id && (a[i].IsFinished() <==> b[i].IsFinished())
    ensures Ids(Unfinished(a)) == Ids(Unfinished(b)) && |Unfinished(a)| == |Unfinished(b)|
  {
    if a != [] {
      SameLiveIds(a[1..], b[1..]);
      LiveHead(a);
      LiveHead(b);
    }
  }

  lemma LiveHead(a: seq<Sequence>)
    requires a != []
    ensures Ids(Unfinished(a)) == (if a[0].IsFinished() then [] else [a[0].id]) + Ids(Unfinished(a[1..]))
  {
    if !a[0].IsFinished() {
      assert Unfinished(a)[1..] == Unfinished(a[1..]);
    } else {
      assert Unfinished(a) == Unfinished(a[1..]);
    }
  }

  lemma RunningGrounds(g: SequenceGroup, tables: map<int, BlockTable>, gpu: set<PhysicalTokenBlock>, blockSize: nat)
    requires blockSize > 0 && RunningOk(g, tables, gpu, blockSize)
    ensures Grounding(g, tables, gpu)
  {
  }

  lemma LiveOwned(g: SequenceGroup, status: Status, owner: map<int, int>)
    requires Owned(g, owner)
    ensures forall id | id in Elements(Ids(g.WithStatus(status))) :: id in owner && owner[id] == g.requestId
  {
    var live := g.WithStatus(status);
    SelectIsSubsequence(g.seqs, status);
    forall id | id in Elements(Ids(live)) ensures id in owner && owner[id] == g.requestId {
      var k :| 0 <= k < |live| && live[k].id == id;
      assert live[k] in live;
    }
  }

  lemma MovedUnshared(g: SequenceGroup, from: Status, before: Ledger<PhysicalTokenBlock>, now: Ledger<PhysicalTokenBlock>,
                      mapping: map<PhysicalTokenBlock, PhysicalTokenBlock>, src: set<PhysicalTokenBlock>,
                      dst: set<PhysicalTokenBlock>, owner: map<int, int>)
    requires Covered(before) && MovedTables(before, now, Ids(g.WithStatus(from)), mapping, src, dst)
    requires Owned(g, owner) && Unshared(before.tables, owner)
    ensures Unshared(now.tables, owner)
  {
    hide Covered, MovedTables, Renewed, Unshared, Owned;
    LiveOwned(g, from, owner);
    MoveRenews(before, now, Ids(g.WithStatus(from)), mapping, src, dst);
    UnsharedStep(Elements(Ids(g.WithStatus(from))), g.requestId, before.tables, now.tables, owner);
  }

  lemma GrantedExact(g: SequenceGroup, l: Ledger<PhysicalTokenBlock>, table: BlockTable, gpu: set<PhysicalTokenBlock>,
                     cpu: set<PhysicalTokenBlock>)
    requires Sound(l, gpu, cpu) && WaitingOk(g, l.tables) && forall b | b in table :: b in FreeSet(l)
    ensures Granting(l, Granted(l, Ids(g.WithStatus(Waiting)), table, |g.seqs|), [g])
  {
    hide WellFormed, Covered, Exact, Slack;
    var ids := Ids(g.WithStatus(Waiting));
    OnePrompt(g, l.tables);
    SelectedIdsDistinct(g.seqs, Waiting);
    assert g.WithStatus(Waiting)[0] in g.seqs;
    assert forall id | id in ids :: id == g.WithStatus(Waiting)[0].id && id !in l.tables;
    assert g in [g];
    if Exact(l) && |g.seqs| == 1 {
      GrantExactIff(l, gpu, cpu, ids, table, 1);
    }
  }

  lemma ForkedExact(l: Ledger<PhysicalTokenBlock>, gpu: set<PhysicalTokenBlock>, cpu: set<PhysicalTokenBlock>, parent: int, child: int)
    requires Sound(l, gpu, cpu) && parent in l.tables && child !in l.tables
    ensures Exact(l) ==> Exact(ForkedLedger(l, parent, child))
  {
    hide WellFormed, Covered, Exact, Slack;
    if Exact(l) {
      ForkExactIff(l, gpu, cpu, parent, child);
    }
  }

  lemma GrantedUnshared(g: SequenceGroup, l: Ledger<PhysicalTokenBlock>, table: BlockTable, owner: map<int, int>)
    requires Covered(l) && Owned(g, owner) && Unshared(l.tables, owner) && forall b | b in table :: b in FreeSet(l)
    ensures Unshared(Share(l.tables, Ids(g.WithStatus(Waiting)), table), owner)
  {
    hide Covered, Renewed, Unshared, Owned, Share;
    var ids := Ids(g.WithStatus(Waiting));
    LiveOwned(g, Waiting, owner);
    ShareRenews(l, ids, table);
    UnsharedStep(Elements(ids), g.requestId, l.tables, Share(l.tables, ids, table), owner);
  }

  /** What the decoding groups use, and may come to use. */
  lemma StepSums(now: real, running: seq<SequenceGroup>, kept: seq<SequenceGroup>, victims: seq<SequenceGroup>,
                 out: RunningOutputs, back: seq<ScheduledGroup>)
    requires Split(Policy.SortByPriority(now, running), kept, [], victims, out)
    requires forall g | g in running :: GroupOk(g)
    ensures SumLive(kept) <= SumMax(kept) <= SumMax(running)
    ensures SumMax(Groups(out.decode) + Groups(back)) == SumMax(kept) + SumMax(Groups(back))
    ensures back == [] ==> SumMax(Groups(back)) == 0
    ensures victims == [] ==> out.blocksToSwapOut == map[]
  {
    SplitEnds(Policy.SortByPriority(now, running), kept, victims, out);
    KeptOnes(now, running, kept, victims);
    Policy.SortIsStable(now, running, now);
    forall g | g in kept ensures GroupOk(g) {
      assert g in kept + victims;
      assert g in multiset(running);
    }
    LiveWithinMax(kept);
    SumsConcat(Groups(out.decode), Groups(back));
  }

  /** Each live sequence of a decoding group is one token of the step. */
  lemma StepTokens(now: real, running: seq<SequenceGroup>, kept: seq<SequenceGroup>, victims: seq<SequenceGroup>,
                   out: RunningOutputs, back: seq<ScheduledGroup>)
    requires Split(Policy.SortByPriority(now, running), kept, [], victims, out)
    ensures SumLive(Groups(out.decode + back)) == SumLive(kept) + SumLive(Groups(back))
    ensures back == [] ==> SumLive(Groups(back)) == 0
    ensures victims == [] ==> SumMax(kept) == SumMax(running) && out.swappedOut == []
  {
    SplitEnds(Policy.SortByPriority(now, running), kept, victims, out);
    GroupsConcat(out.decode, back);
    SumsConcat(kept, Groups(back));
    if victims == [] {
      assert kept + victims == kept;
      SortKeepsSums(now, running);
    }
  }

  lemma StepWorked(waitingLeft: seq<SequenceGroup>, running: seq<SequenceGroup>, swapped: seq<SequenceGroup>, now: real, now': real,
                   kept: seq<SequenceGroup>, victims: seq<SequenceGroup>, back: nat,
                   out: RunningOutputs, swappedLeft: seq<SequenceGroup>, swappedIn: SwappedInOutputs)
    requires Split(Policy.SortByPriority(now, running), kept, [], victims, out)
    requires if victims == [] then BackSoFar(Policy.SortByPriority(now', swapped), back, swappedLeft, swappedIn.decode)
             else swappedLeft == swapped && swappedIn == SwappedInOutputs([], map[], map[]) && back == 0
    ensures forall s | s in out.decode + swappedIn.decode :: s.chunk == 1
    ensures Worked(Queues(waitingLeft, running, swapped),
                   Queues(Reversed(out.preempted) + waitingLeft, Groups(out.decode) + Groups(swappedIn.decode),
                          swappedLeft + out.swappedOut),
                   now, now', kept, victims, back)
  {
    hide Policy.SortByPriority, Reversed, Recomputed, SwappedAway, Returned, Groups;
    SplitEnds(Policy.SortByPriority(now, running), kept, victims, out);
    var emptied := EmptyOutputs(out.decode, out.blocksToCopy);
    NothingReversed(emptied);
    ReversedTwice(out.swappedOut);
    assert Reversed(out.preempted) == Recomputed(victims) && Reversed(out.swappedOut) == SwappedAway(victims);
    if victims != [] {
      NoneReturned(swapped);
    }
  }

  lemma NothingReversed(out: RunningOutputs)
    ensures out.preempted == [] ==> Reversed(out.preempted) == []
    ensures out.swappedOut == [] ==> Reversed(out.swappedOut) == []
  {
  }

  lemma NoneReturned(swapped: seq<SequenceGroup>)
    ensures Returned(swapped[..0]) == [] == Groups([]) && swapped[0..] == swapped
  {
  }

  /** `extendleft`: preempted groups go in front of the waiting ones, the last one preempted first. */
  lemma PutBack(preempted: seq<SequenceGroup>, waiting: seq<SequenceGroup>, a: seq<ScheduledGroup>, b: seq<ScheduledGroup>,
                swapped: seq<SequenceGroup>)
    ensures Executing(Reversed(preempted) + waiting, [], a + b, swapped) == Executing(preempted + waiting, [], a + b, swapped)
    ensures [] + Groups(a + b) == Groups(a) + Groups(b)
  {
    TaggedConcat(preempted, waiting, InWaiting);
    TaggedConcat(Reversed(preempted), waiting, InWaiting);
    TaggedReversed(preempted, InWaiting);
    GroupsConcat(a, b);
  }

  ghost function Owners(g: SequenceGroup): map<int, int> {
    map s | s in g.seqs :: s.id := g.requestId
  }

  lemma RosterGrows(waiting: seq<SequenceGroup>, running: seq<SequenceGroup>, swapped: seq<SequenceGroup>, g: SequenceGroup)
    ensures Roster(waiting + [g], running, swapped) == Roster(waiting, running, swapped) + multiset{Entry(g, InWaiting)}
  {
    TaggedConcat(waiting, [g], InWaiting);
    TaggedOne(g, InWaiting);
  }

  lemma NoRequests()
    ensures RequestIds([]) == {}
  {
  }

  lemma AmongNothing(ids: set<int>)
    ensures Among([], ids) == []
  {
  }

  lemma NothingMore(rest: multiset<Entry>, queue: seq<SequenceGroup>, place: Place, i: nat, ids: set<int>)
    requires i <= |queue| && ids - RequestIds(queue[..i]) == {} && Unique(rest + Tagged(queue, place))
    ensures Among(queue, ids) == Among(queue[..i], ids) && ids - RequestIds(queue) == {}
  {
    UniqueDistinct(rest, queue, place);
    var more, found := queue[i..], RequestIds(queue[..i]);
    assert queue == queue[..i] + more;
    forall g | g in more ensures g.requestId !in ids {
      var j :| 0 <= j < |more| && more[j] == g;
      forall h | h in queue[..i] ensures h.requestId != g.requestId {
        var k :| 0 <= k < i && queue[k] == h;
        DistinctAt(queue, k, i + j);
      }
      assert g.requestId in ids ==> g.requestId in ids - found;
    }
    AmongRest(queue[..i], ids, more);
    assert forall g | g in queue[..i] :: g in queue;
  }

  /** The next aborted group is still in the queue. */
  lemma AbortedNext(queue: seq<SequenceGroup>, ids: set<int>, k: nat)
    requires DistinctRequests(queue) && k < |Among(queue, ids)|
    ensures var aborted := Among(queue, ids);
      && aborted[k] in Without(queue, RequestIds(aborted[..k]))
      && RemoveFirst(Without(queue, RequestIds(aborted[..k])), aborted[k]) == Without(queue, RequestIds(aborted[..k + 1]))
      && RequestIds(aborted[..k + 1]) == RequestIds(aborted[..k]) + {aborted[k].requestId}
  {
    hide Without, Among, RemoveFirst, DistinctRequests;
    var aborted := Among(queue, ids);
    var g := aborted[k];
    AmongIs(queue, ids);
    AmongDistinct(queue, ids);
    assert g in queue by { assert g in aborted; }
    EarlierDiffer(aborted, k);
    AmongIs(queue, RequestIds(aborted[..k]));
    RemoveOne(queue, RequestIds(aborted[..k]), g);
  }

  lemma EarlierDiffer(groups: seq<SequenceGroup>, k: nat)
    requires DistinctRequests(groups) && k < |groups|
    ensures groups[k].requestId !in RequestIds(groups[..k])
    ensures RequestIds(groups[..k + 1]) == RequestIds(groups[..k]) + {groups[k].requestId}
  {
    forall h | h in groups[..k] ensures h.requestId != groups[k].requestId {
      var j :| 0 <= j < k && groups[j] == h;
      DistinctAt(groups, j, k);
    }
    assert groups[..k + 1] == groups[..k] + [groups[k]];
    assert forall h :: h in groups[..k + 1] <==> h in groups[..k] || h == groups[k];
  }

  lemma RosterSplits(waiting: seq<SequenceGroup>, running: seq<SequenceGroup>, swapped: seq<SequenceGroup>)
    ensures Roster(waiting, running, swapped) == Tagged(running, InRunning) + Tagged(swapped, InSwapped) + Tagged(waiting, InWaiting)
    ensures Roster(waiting, running, swapped) == Tagged(waiting, InWaiting) + Tagged(swapped, InSwapped) + Tagged(running, InRunning)
    ensures Roster(waiting, running, swapped) == Tagged(waiting, InWaiting) + Tagged(running, InRunning) + Tagged(swapped, InSwapped)
  {
  }

  /** A request that was found in one queue need not be looked for in the next. */
  lemma AbortEachOnce(q: Queues, ids: set<int>)
    requires RequestIds(q.waiting) !! RequestIds(q.running) && RequestIds(q.waiting) !! RequestIds(q.swapped)
    requires RequestIds(q.swapped) !! RequestIds(q.running)
    ensures Without(q.running, ids - RequestIds(q.waiting)) == Without(q.running, ids)
    ensures Without(q.swapped, ids - RequestIds(q.waiting) - RequestIds(q.running)) == Without(q.swapped, ids)
    ensures SumMax(Without(q.running, ids)) <= SumMax(q.running)
    ensures Requests(Roster(Without(q.waiting, ids), Without(q.running, ids), Without(q.swapped, ids)))
            == Requests(Roster(q.waiting, q.running, q.swapped)) - ids
  {
    hide Requests, Roster;
    WithoutSame(q.running, ids, ids - RequestIds(q.waiting));
    WithoutSame(q.swapped, ids, ids - RequestIds(q.waiting) - RequestIds(q.running));
    WithoutThins(q.running, ids);
    RosterRequests(q.waiting, q.running, q.swapped);
    RosterRequests(Without(q.waiting, ids), Without(q.running, ids), Without(q.swapped, ids));
    WithoutIds(q.waiting, ids);
    WithoutIds(q.running, ids);
    WithoutIds(q.swapped, ids);
  }

  lemma TaggedAt(front: seq<SequenceGroup>, g: SequenceGroup, back: seq<SequenceGroup>, place: Place)
    ensures Tagged(front + ([g] + back), place) == Tagged(front, place) + multiset{Entry(g, place)} + Tagged(back, place)
    ensures SumMax(front + ([g] + back)) == SumMax(front) + g.MaxNumRunningSeqs() + SumMax(back)
  {
    hide Tagged, SumMax, SequenceGroup.MaxNumRunningSeqs;
    TaggedConcat(front, [g] + back, place);
    TaggedConcat([g], back, place);
    TaggedOne(g, place);
    SumsConcat(front, [g] + back);
    SumsConcat([g], back);
    SumsOne(g);
  }

  lemma RosterReplaced(waiting: seq<SequenceGroup>, running: seq<SequenceGroup>, swapped: seq<SequenceGroup>, k: nat, h: SequenceGroup)
    requires k < |running|
    ensures Roster(waiting, running[k := h], swapped)
            == Roster(waiting, running, swapped) - multiset{Entry(running[k], InRunning)} + multiset{Entry(h, InRunning)}
    ensures SumMax(running[k := h]) == SumMax(running) - running[k].MaxNumRunningSeqs() + h.MaxNumRunningSeqs()
  {
    hide Tagged, SumMax, SequenceGroup.MaxNumRunningSeqs;
    var front, g, back := running[..k], running[k], running[k + 1..];
    assert running == front + ([g] + back) && running[k := h] == front + ([h] + back);
    TaggedAt(front, g, back, InRunning);
    TaggedAt(front, h, back, InRunning);
    OneReplaced(Tagged(waiting, InWaiting), Tagged(front, InRunning), Tagged(back, InRunning), Tagged(swapped, InSwapped),
                Entry(g, InRunning), Entry(h, InRunning));
  }

  lemma OneReplaced(a: multiset<Entry>, b: multiset<Entry>, c: multiset<Entry>, d: multiset<Entry>, x: Entry, y: Entry)
    ensures a + (b + multiset{y} + c) + d == a + (b + multiset{x} + c) + d - multiset{x} + multiset{y}
  {
    var others := a + b + c + d;
    assert a + (b + multiset{x} + c) + d == others + multiset{x};
    assert a + (b + multiset{y} + c) + d == others + multiset{y};
  }

  lemma ForkedEntry(entries: multiset<Entry>, g: SequenceGroup, parent: Sequence, id: int, token: int, tables: map<int, BlockTable>,
                    gpu: set<PhysicalTokenBlock>, cpu: set<PhysicalTokenBlock>, blockSize: nat, owner: map<int, int>)
    requires blockSize > 0 && EntriesOk(entries, tables, gpu, cpu, blockSize, owner) && Entry(g, InRunning) in entries
    requires parent.tokens != [] && parent.id in tables && Owned(g, owner) && id !in owner
    requires RunningOk(Forked(g, Child(parent, id, token)), tables[id := tables[parent.id]], gpu, blockSize)
    ensures var f := Entry(Forked(g, Child(parent, id, token)), InRunning);
      && EntriesOk(entries - multiset{Entry(g, InRunning)} + multiset{f}, tables[id := tables[parent.id]], gpu, cpu, blockSize,
                   owner[id := g.requestId])
      && Requests(entries - multiset{Entry(g, InRunning)} + multiset{f}) == Requests(entries)
  {
    hide EntriesOk, RunningOk, Requests;
    var c := Child(parent, id, token);
    var f := Forked(g, c);
    forall i | HasMember(g, i) ensures HasMember(f, i) {
      var s :| s in g.seqs && s.id == i;
      assert s in f.seqs;
    }
    forall s | s in f.seqs ensures s.id in owner ==> owner[s.id] == g.requestId {
      assert s == c || s in g.seqs;
    }
    assert c in f.seqs;
    GrowKeeps(entries, Entry(g, InRunning), Entry(f, InRunning), tables, tables[id := tables[parent.id]], gpu, cpu, blockSize,
              owner, owner[id := g.requestId]);
  }

  lemma PrefillRoster(waiting: seq<SequenceGroup>, running: seq<SequenceGroup>, swapped: seq<SequenceGroup>, scheduled: seq<ScheduledGroup>)
    ensures Tagged(running, InRunning) + Tagged(swapped, InSwapped) + Tagged(waiting, InWaiting) + InThisStep(scheduled)
            == Executing(waiting, running, scheduled, swapped)
    ensures Tagged(running, InRunning) + Tagged(swapped, InSwapped) + Tagged(waiting, InWaiting) == Roster(waiting, running, swapped)
    ensures scheduled == [] ==> Executing(waiting, running, scheduled, swapped) == Roster(waiting, running, swapped)
  {
  }

  /** Before any prompt is looked at. */
  lemma NoneTaken(l: Limits, waiting: seq<SequenceGroup>, running: seq<SequenceGroup>, swapped: seq<SequenceGroup>)
    requires l.blockSize > 0
    ensures TakenSoFar(l, waiting, 0, waiting, [], []) && RequestIds([]) == {} && SumMax(Groups([])) == 0
    ensures Executing(waiting, running, [], swapped) == Roster(waiting, running, swapped)
  {
  }

  lemma DecodeStepIs(l: Limits, q: Queues, q': Queues, taken: nat, now: real, now': real,
                     kept: seq<SequenceGroup>, victims: seq<SequenceGroup>, back: nat,
                     left: seq<SequenceGroup>, ignored: seq<SequenceGroup>)
    requires l.blockSize > 0 && TakenSoFar(l, q.waiting, taken, left, [], ignored) && (q.swapped != [] ==> taken == 0)
    requires Worked(Queues(left, q.running, q.swapped), q', now, now', kept, victims, back)
    ensures DecodeStep(l, q, q', taken, now, now', kept, victims, back)
  {
    hide Worked;
  }

  lemma AdmitStepIs(l: Limits, q: Queues, taken: nat, left: seq<SequenceGroup>, prefills: seq<ScheduledGroup>, ignored: seq<SequenceGroup>)
    requires l.blockSize > 0 && TakenSoFar(l, q.waiting, taken, left, prefills, ignored) && q.swapped == [] && prefills != []
    ensures AdmitStep(l, q, Queues(left, q.running + Groups(prefills), []), taken) && taken <= |q.waiting|
    ensures prefills == Started(l, q.waiting[..taken])
    ensures SumMax(q.running + Groups(prefills)) == SumMax(q.running) + SumMax(Groups(prefills))
  {
    SumsConcat(q.running, Groups(prefills));
  }

  lemma RunningFirst(waiting: seq<SequenceGroup>, running: seq<SequenceGroup>, swapped: seq<SequenceGroup>)
    ensures Roster(waiting, running, swapped) == Tagged(waiting, InWaiting) + Tagged(swapped, InSwapped) + Tagged(running, InRunning)
  {
  }

  /** The groups after the running queue has been worked off, the preempted ones in front of the waiting ones. */
  lemma AfterRunning(waiting: seq<SequenceGroup>, out: RunningOutputs, swapped: seq<SequenceGroup>)
    ensures Decoded(Tagged(waiting, InWaiting) + Tagged(swapped, InSwapped), out.decode, [], out.preempted, out.swappedOut)
            == Executing(out.preempted + waiting, [], out.decode, swapped + out.swappedOut)
  {
    TaggedConcat(out.preempted, waiting, InWaiting);
    TaggedConcat(swapped, out.swappedOut, InSwapped);
  }

  lemma AfterSwapped(waiting: seq<SequenceGroup>, out: RunningOutputs, left: seq<SequenceGroup>, back: seq<ScheduledGroup>)
    requires out.preempted == [] == out.swappedOut
    ensures Tagged(waiting, InWaiting) + InThisStep(out.decode) + Tagged(left, InSwapped) + InThisStep(back)
            == Executing(out.preempted + waiting, [], out.decode + back, left + out.swappedOut)
  {
    InThisStepConcat(out.decode, back);
    assert out.preempted + waiting == waiting && left + out.swappedOut == left;
  }

  lemma SwappedNext(waiting: seq<SequenceGroup>, out: RunningOutputs, swapped: seq<SequenceGroup>)
    requires out.preempted == [] == out.swappedOut
    ensures Decoded(Tagged(waiting, InWaiting) + Tagged(swapped, InSwapped), out.decode, [], out.preempted, out.swappedOut)
            == Tagged(waiting, InWaiting) + InThisStep(out.decode) + Tagged(swapped, InSwapped)
  {
  }

  lemma AfterNone(waiting: seq<SequenceGroup>, decode: seq<ScheduledGroup>, swapped: seq<SequenceGroup>)
    ensures Executing(waiting, [], decode + [], swapped) == Executing(waiting, [], decode, swapped)
    ensures SumMax(Groups([])) == 0 == SumLive(Groups([]))
  {
    assert decode + [] == decode;
  }

  lemma SplitAll(sorted: seq<SequenceGroup>, kept: seq<SequenceGroup>, victims: seq<SequenceGroup>, out: RunningOutputs)
    requires sorted == kept + victims && Groups(out.decode) == kept && forall s | s in out.decode :: s.chunk == 1
    requires HoldsVictims(EmptyOutputs(out.decode, out.blocksToCopy), out, victims)
    ensures Split(sorted, kept, [], victims, out)
  {
    hide HoldsVictims;
    assert kept + [] + victims == kept + victims;
  }

  lemma KeptOnes(now: real, running: seq<SequenceGroup>, kept: seq<SequenceGroup>, victims: seq<SequenceGroup>)
    requires Policy.SortByPriority(now, running) == kept + victims
    ensures SumMax(running) == SumMax(kept) + SumMax(victims) && RequestIds(kept) <= RequestIds(running)
  {
    Policy.SortIsStable(now, running, now);
    forall g | g in kept ensures g in running {
      assert g in kept + victims;
      assert g in multiset(running);
    }
    SortKeepsSums(now, running);
    SumsConcat(kept, victims);
  }

  lemma {:induction false} EvictedSizes(victims: seq<SequenceGroup>)
    ensures |Recomputed(victims)| + |SwappedAway(victims)| == |victims|
  {
    if victims != [] {
      EvictedSizes(victims[1..]);
    }
  }

  lemma VictimCount(kept: seq<SequenceGroup>, victims: seq<SequenceGroup>, out: RunningOutputs)
    requires HoldsVictims(EmptyOutputs(out.decode, out.blocksToCopy), out, victims)
    ensures |out.preempted| + |out.swappedOut| == |victims|
  {
    EvictedSizes(victims);
    ReversedTwice(out.preempted);
    ReversedTwice(out.swappedOut);
  }

  lemma NoneEvicted(kept: seq<SequenceGroup>, victims: seq<SequenceGroup>, out: RunningOutputs)
    requires HoldsVictims(EmptyOutputs(out.decode, out.blocksToCopy), out, victims)
    requires |out.preempted| + |out.swappedOut| == 0
    ensures victims == [] && out.preempted == [] == out.swappedOut && out.blocksToSwapOut == map[]
  {
    VictimCount(kept, victims, out);
  }

  lemma SomeEvicted(kept: seq<SequenceGroup>, victims: seq<SequenceGroup>, out: RunningOutputs)
    requires HoldsVictims(EmptyOutputs(out.decode, out.blocksToCopy), out, victims)
    requires |out.preempted| + |out.swappedOut| != 0
    ensures victims != []
  {
    VictimCount(kept, victims, out);
  }

  lemma PrefillStart(l: Limits, queue: seq<SequenceGroup>, rest: multiset<Entry>)
    requires l.blockSize > 0
    ensures TakenSoFar(l, queue, 0, queue, [], [])
    ensures rest + Tagged(queue, InWaiting) + InThisStep([]) == rest + Tagged(queue, InWaiting)
    ensures RequestIds([]) == {} && SumMax(Groups([])) == 0 && SumTokens(Groups([])) == 0
  {
  }

  lemma RefusedMore(ignored: seq<SequenceGroup>, g: SequenceGroup)
    ensures RequestIds(ignored + [Refusal(g)]) == RequestIds(ignored) + {g.requestId}
  {
    assert Refusal(g) in ignored + [Refusal(g)];
  }

  lemma SwappedStart(now: real, queue: seq<SequenceGroup>, rest: multiset<Entry>)
    ensures rest + Tagged(Policy.SortByPriority(now, queue), InSwapped) + InThisStep([]) == rest + Tagged(queue, InSwapped)
    ensures Groups([]) == [] == Returned([]) && SumMax([]) == 0 == SumLive([])
    ensures RequestIds(Policy.SortByPriority(now, queue)) == RequestIds(queue)
    ensures BackSoFar(Policy.SortByPriority(now, queue), 0, Policy.SortByPriority(now, queue), [])
  {
    SortKeepsTagged(now, queue, InSwapped);
    Policy.SortIsStable(now, queue, now);
    assert forall g :: g in Policy.SortByPriority(now, queue) <==> g in multiset(queue);
  }

  lemma SortKeepsIds(now: real, queue: seq<SequenceGroup>)
    ensures RequestIds(Policy.SortByPriority(now, queue)) == RequestIds(queue)
  {
    Policy.SortIsStable(now, queue, now);
    assert forall g :: g in Policy.SortByPriority(now, queue) <==> g in multiset(queue);
  }

  lemma SortedMember(now: real, queue: seq<SequenceGroup>, back: nat, left: seq<SequenceGroup>, decode: seq<ScheduledGroup>)
    requires BackSoFar(Policy.SortByPriority(now, queue), back, left, decode) && left != []
    ensures left[0] in queue
  {
    Policy.SortIsStable(now, queue, now);
    assert Policy.SortByPriority(now, queue)[back] in multiset(queue);
  }
}
