/** What the decoding half of a scheduling step will run into, told from the state before it. */
module Forecasts {
  import opened Blocks
  import opened Paging
  import opened Sequences
  import opened GroupStates
  import opened Rosters
  import opened Queues
  import opened Transfers

  // ---- swap space ---------------------------------------------------------------------------------------------

  /** The distinct blocks of a group's live members. */
  ghost function Held(tables: map<int, BlockTable>, g: SequenceGroup): nat {
    |BlocksOf(tables, Ids(Unfinished(g.seqs)))|
  }

  /** The CPU blocks that the preemption of a group takes: none if it is to be recomputed. */
  ghost function SwapCost(tables: map<int, BlockTable>, g: SequenceGroup): nat {
    if g.MaxNumRunningSeqs() == 1 then 0 else Held(tables, g)
  }

  ghost function SwapCosts(tables: map<int, BlockTable>, groups: seq<SequenceGroup>): nat {
    if groups == [] then 0 else SwapCost(tables, groups[0]) + SwapCosts(tables, groups[1..])
  }

  lemma {:induction false} CostsConcat(tables: map<int, BlockTable>, a: seq<SequenceGroup>, b: seq<SequenceGroup>)
    ensures SwapCosts(tables, a + b) == SwapCosts(tables, a) + SwapCosts(tables, b)
  {
    if a == [] {
      assert a + b == b;
    } else {
      assert (a + b)[1..] == a[1..] + b;
      CostsConcat(tables, a[1..], b);
    }
  }

  lemma CostsOne(tables: map<int, BlockTable>, g: SequenceGroup, groups: seq<SequenceGroup>)
    ensures SwapCosts(tables, [g] + groups) == SwapCost(tables, g) + SwapCosts(tables, groups)
    ensures SwapCosts(tables, []) == 0
  {
    assert ([g] + groups)[1..] == groups;
  }

  /** A lone member holds the blocks of its table. */
  lemma HeldAlone(tables: map<int, BlockTable>, g: SequenceGroup, gpu: set<PhysicalTokenBlock>, cpu: set<PhysicalTokenBlock>)
    requires |Unfinished(g.seqs)| == 1 && Unfinished(g.seqs)[0].id in tables && WellFormed(tables, gpu, cpu)
    ensures Held(tables, g) == |tables[Unfinished(g.seqs)[0].id]|
  {
    var id := Unfinished(g.seqs)[0].id;
    assert Ids(Unfinished(g.seqs)) == [id];
    assert TableOk(tables[id], gpu, cpu);
    DistinctSize(tables[id]);
    assert BlocksOf(tables, [id]) == Elements(tables[id]) by {
      assert id in [id];
    }
  }

  /** A lone member that has come back has as many blocks as the group held. */
  lemma LandedSize(g: SequenceGroup, moves: map<int, int>, before: map<int, BlockTable>, between: map<int, BlockTable>,
                   gpu: set<PhysicalTokenBlock>, cpu: set<PhysicalTokenBlock>)
    requires |Unfinished(g.seqs)| == 1 && WellFormed(before, gpu, cpu)
    requires Relocated(moves, Unfinished(g.seqs), before, between, gpu)
    ensures var live := Unfinished(Restated(g, Status.Swapped, Running).seqs);
      && |live| == 1 && live[0].id in between && |between[live[0].id]| == Held(before, g)
      && live[0].tokens == Unfinished(g.seqs)[0].tokens
  {
    hide Held, WellFormed;
    var s := Unfinished(g.seqs)[0];
    assert s in Unfinished(g.seqs);
    assert Carries(moves, before[s.id], between[s.id]);
    LiveKeep(g.seqs, Restated(g, Status.Swapped, Running).seqs);
    HeldAlone(before, g, gpu, cpu);
  }

  /** Groups of other requests than those touched hold what they held. */
  lemma HeldStill(g: SequenceGroup, requests: set<int>, owner: map<int, int>, start: map<int, BlockTable>, now: map<int, BlockTable>)
    requires Untouched(requests, owner, start, now) && Owned(g, owner) && g.requestId !in requests
    ensures Held(now, g) == Held(start, g) && SwapCost(now, g) == SwapCost(start, g)
  {
    var live := Unfinished(g.seqs);
    UnfinishedIsSubsequence(g.seqs);
    forall id | id in Ids(live) ensures (id in start <==> id in now) && (id in start ==> now[id] == start[id]) {
      var k :| 0 <= k < |live| && Ids(live)[k] == id;
      assert live[k] in live;
    }
    assert BlocksOf(now, Ids(live)) == BlocksOf(start, Ids(live));
  }

  // ---- slots for the running groups ---------------------------------------------------------------------------

  /** The ledger and the free GPU blocks. */
  datatype Memory = Memory(ledger: Ledger<PhysicalTokenBlock>, free: BlockTable)

  /** Memory after `append_slots` for one sequence. */
  ghost function Slot(m: Memory, s: Sequence, blockSize: nat): Memory
    requires blockSize > 0
  {
    var l, n := m.ledger, NumBlocks(|s.tokens|, blockSize);
    if Covered(l) && m.free != [] && s.id in l.tables
       && (n <= |l.tables[s.id]| ==> l.tables[s.id] != [] && Last(l.tables[s.id]) in l.refs) && NeedsBlock(l, s.id, n)
    then Memory(Recounted(l, l.tables[s.id := AppendedTable(l, s.id, n, Last(m.free))]), m.free[..|m.free| - 1])
    else m
  }

  ghost function Slots(m: Memory, live: seq<Sequence>, blockSize: nat): Memory
    requires blockSize > 0
  {
    if live == [] then m else Slot(Slots(m, live[..|live| - 1], blockSize), Last(live), blockSize)
  }

  lemma SlotsNext(m: Memory, live: seq<Sequence>, i: nat, blockSize: nat)
    requires blockSize > 0 && i < |live|
    ensures Slots(m, live[..i + 1], blockSize) == Slot(Slots(m, live[..i], blockSize), live[i], blockSize)
  {
    hide Slot;
    assert live[..i + 1][..i] == live[..i] && Last(live[..i + 1]) == live[i];
  }

  /** Memory after each of the groups got its slots. */
  ghost function AllSlots(m: Memory, groups: seq<SequenceGroup>, blockSize: nat): Memory
    requires blockSize > 0
  {
    if groups == [] then m
    else Slots(AllSlots(m, groups[..|groups| - 1], blockSize), Unfinished(Last(groups).seqs), blockSize)
  }

  lemma AllSlotsNext(m: Memory, groups: seq<SequenceGroup>, g: SequenceGroup, blockSize: nat)
    requires blockSize > 0
    ensures AllSlots(m, groups + [g], blockSize) == Slots(AllSlots(m, groups, blockSize), Unfinished(g.seqs), blockSize)
  {
    hide Slots;
    assert (groups + [g])[..|groups|] == groups && Last(groups + [g]) == g;
  }

  /** The first `k` groups find room for a slot for each of their members. */
  ghost predicate RoomyTo(m: Memory, groups: seq<SequenceGroup>, k: nat, blockSize: nat)
    requires blockSize > 0 && k <= |groups|
  {
    forall i | 0 <= i < k :: |groups[i].WithStatus(Running)| <= |AllSlots(m, groups[..i], blockSize).free|
  }

  /** All groups do. */
  ghost predicate Roomy(m: Memory, groups: seq<SequenceGroup>, blockSize: nat)
    requires blockSize > 0
  {
    RoomyTo(m, groups, |groups|, blockSize)
  }

  lemma RoomyNext(m: Memory, groups: seq<SequenceGroup>, kept: seq<SequenceGroup>, left: seq<SequenceGroup>, blockSize: nat)
    requires blockSize > 0 && groups == kept + left + [] && left != [] && RoomyTo(m, groups, |kept|, blockSize)
    ensures if |left[0].WithStatus(Running)| <= |AllSlots(m, kept, blockSize).free| then RoomyTo(m, groups, |kept| + 1, blockSize)
            else !Roomy(m, groups, blockSize)
  {
    hide AllSlots, SequenceGroup.WithStatus;
    assert groups[..|kept|] == kept && groups[|kept|] == left[0];
  }

  /** Preemption takes swap space only for groups that may run several sequences. */
  lemma {:induction false} CostsSome(tables: map<int, BlockTable>, groups: seq<SequenceGroup>)
    ensures SwapCosts(tables, groups) > 0 ==> exists v | v in groups :: v.MaxNumRunningSeqs() != 1
  {
    if groups != [] {
      CostsSome(tables, groups[1..]);
      assert groups[0] in groups;
    }
  }

  /** Half-way through the running queue, against the state `m` before it and the swap space `cpu` then. */
  ghost predicate Foreseen(m: Memory, cpu: int, start: map<int, BlockTable>, queue: seq<SequenceGroup>, kept: seq<SequenceGroup>,
                           victims: seq<SequenceGroup>, now: Memory, cpuNow: int, blockSize: nat)
    requires blockSize > 0
  {
    && cpuNow == cpu - SwapCosts(start, victims)
    && if victims == [] then |kept| <= |queue| && RoomyTo(m, queue, |kept|, blockSize) && now == AllSlots(m, kept, blockSize)
       else !Roomy(m, queue, blockSize)
  }

  lemma ForeseenStart(m: Memory, cpu: int, start: map<int, BlockTable>, queue: seq<SequenceGroup>, blockSize: nat)
    requires blockSize > 0
    ensures Foreseen(m, cpu, start, queue, [], [], m, cpu, blockSize)
  {
  }

  /** The next turn: `now'` is memory after it, if nobody was preempted in it or before. */
  lemma ForeseenNext(m: Memory, cpu: int, start: map<int, BlockTable>, queue: seq<SequenceGroup>, kept: seq<SequenceGroup>,
                     left: seq<SequenceGroup>, victims: seq<SequenceGroup>, now: Memory, cpuNow: int, blockSize: nat,
                     more: seq<SequenceGroup>)
    requires blockSize > 0 && Foreseen(m, cpu, start, queue, kept, victims, now, cpuNow, blockSize)
    requires queue == kept + left + victims && left != []
    requires more == [] <==> |left[0].WithStatus(Running)| <= |now.free|
    ensures SwapCosts(start, more + victims) == SwapCosts(start, more) + cpu - cpuNow && cpuNow == cpu - SwapCosts(start, victims)
    ensures more + victims != [] ==> !Roomy(m, queue, blockSize)
    ensures more + victims == [] ==>
      && |kept| + 1 <= |queue| && RoomyTo(m, queue, |kept| + 1, blockSize)
      && Slots(now, Unfinished(left[0].seqs), blockSize) == AllSlots(m, kept + [left[0]], blockSize)
  {
    hide AllSlots, SequenceGroup.WithStatus, RoomyTo, SwapCosts, Slots;
    CostsConcat(start, more, victims);
    if victims == [] {
      RoomyNext(m, queue, kept, left, blockSize);
      AllSlotsNext(m, kept, left[0], blockSize);
    }
  }

  lemma ForeseenIs(m: Memory, cpu: int, start: map<int, BlockTable>, queue: seq<SequenceGroup>, kept: seq<SequenceGroup>,
                   victims: seq<SequenceGroup>, now: Memory, cpuNow: int, blockSize: nat)
    requires blockSize > 0 && cpuNow == cpu - SwapCosts(start, victims)
    requires if victims == [] then |kept| <= |queue| && RoomyTo(m, queue, |kept|, blockSize) && now == AllSlots(m, kept, blockSize)
             else !Roomy(m, queue, blockSize)
    ensures Foreseen(m, cpu, start, queue, kept, victims, now, cpuNow, blockSize)
  {
  }

  lemma ForeseenEnds(m: Memory, cpu: int, start: map<int, BlockTable>, queue: seq<SequenceGroup>, kept: seq<SequenceGroup>,
                     victims: seq<SequenceGroup>, now: Memory, cpuNow: int, blockSize: nat)
    requires blockSize > 0 && Foreseen(m, cpu, start, queue, kept, victims, now, cpuNow, blockSize)
    requires queue == kept + victims && cpuNow >= 0
    ensures SwapCosts(start, victims) <= cpu
    ensures victims == [] <==> Roomy(m, queue, blockSize)
    ensures victims == [] ==> now == AllSlots(m, kept, blockSize)
  {
  }

  /** A table whose last block is counted once takes a block exactly when it is too short. */
  lemma SlotAlone(m: Memory, s: Sequence, blockSize: nat)
    requires blockSize > 0 && Covered(m.ledger) && m.free != [] && s.id in m.ledger.tables && s.tokens != []
    requires OnceHeld(m.ledger.tables[s.id], m.ledger)
    requires |m.ledger.tables[s.id]| <= NumBlocks(|s.tokens|, blockSize) <= |m.ledger.tables[s.id]| + 1
    ensures |Slots(m, [s], blockSize).free| == |m.free| - (NumBlocks(|s.tokens|, blockSize) - |m.ledger.tables[s.id]|)
  {
    assert [s][..0] == [] && Last([s]) == s;
    assert Slots(m, [s], blockSize) == Slot(m, s, blockSize);
  }

  // ---- swapped groups that return -----------------------------------------------------------------------------

  /** What is left for groups that return: blocks above the watermark, tokens and sequences. */
  datatype Room = Room(blocks: int, tokens: int, seqs: int)

  /** `can_swap_in` and `can_schedule` (508-535). */
  ghost predicate Returnable(g: SequenceGroup, tables: map<int, BlockTable>, room: Room) {
    && Held(tables, g) + |Unfinished(g.seqs)| <= room.blocks
    && |Unfinished(g.seqs)| <= room.tokens && g.MaxNumRunningSeqs() <= room.seqs
  }

  /** What is left when a group with one live member is back. */
  ghost function Settled(g: SequenceGroup, room: Room, blockSize: nat): Room
    requires blockSize > 0 && Unfinished(g.seqs) != []
  {
    Room(room.blocks - NumBlocks(|Unfinished(g.seqs)[0].tokens|, blockSize), room.tokens - 1, room.seqs - g.MaxNumRunningSeqs())
  }

  /** Of the groups in their order, first some with one live member can return, each after the other, and after them comes
      one that can return as well, but has several live members. */
  ghost predicate Stumbles(groups: seq<SequenceGroup>, tables: map<int, BlockTable>, room: Room, blockSize: nat)
    requires blockSize > 0
  {
    && groups != [] && Unfinished(groups[0].seqs) != [] && Returnable(groups[0], tables, room)
    && (|Unfinished(groups[0].seqs)| >= 2 || Stumbles(groups[1..], tables, Settled(groups[0], room, blockSize), blockSize))
  }

  /** It only matters what the groups hold. */
  lemma {:induction false} StumblesSame(groups: seq<SequenceGroup>, tables: map<int, BlockTable>, tables': map<int, BlockTable>,
                                        room: Room, blockSize: nat)
    requires blockSize > 0 && forall g | g in groups :: Held(tables', g) == Held(tables, g)
    ensures Stumbles(groups, tables', room, blockSize) <==> Stumbles(groups, tables, room, blockSize)
  {
    hide Held, SequenceGroup.MaxNumRunningSeqs;
    if groups != [] {
      assert groups[0] in groups;
      if Unfinished(groups[0].seqs) != [] {
        StumblesSame(groups[1..], tables, tables', Settled(groups[0], room, blockSize), blockSize);
      }
    }
  }

  /** Such a group is among them. */
  lemma {:induction false} StumblesOver(groups: seq<SequenceGroup>, tables: map<int, BlockTable>, room: Room, blockSize: nat)
    requires blockSize > 0 && Stumbles(groups, tables, room, blockSize)
    ensures exists g | g in groups :: |Unfinished(g.seqs)| >= 2
  {
    if |Unfinished(groups[0].seqs)| >= 2 {
      assert groups[0] in groups;
    } else {
      StumblesOver(groups[1..], tables, Settled(groups[0], room, blockSize), blockSize);
    }
  }

  /** Nobody is preempted, and then the loop over the swapped groups comes to a group that it cannot take back: settled by
      the state before the step, where `running` and `swapped` are in the order of the two loops. */
  ghost predicate StepStumbles(m: Memory, tables: map<int, BlockTable>, running: seq<SequenceGroup>, swapped: seq<SequenceGroup>,
                               watermark: int, tokens: int, seqs: int, blockSize: nat)
    requires blockSize > 0
  {
    && Roomy(m, running, blockSize)
    && Stumbles(swapped, tables,
                Room(|AllSlots(m, running, blockSize).free| - watermark, tokens - SumLive(running), seqs - SumMax(running)),
                blockSize)
  }

  /** After the running groups have got their slots, it is the question for the swapped ones. */
  lemma StumblesThen(m: Memory, start: map<int, BlockTable>, running: seq<SequenceGroup>, swapped: seq<SequenceGroup>,
                     watermark: int, tokens: int, seqs: int, blockSize: nat, owner: map<int, int>, now: map<int, BlockTable>, room: Room)
    requires blockSize > 0 && Roomy(m, running, blockSize)
    requires Untouched(RequestIds(running), owner, start, now) && RequestIds(running) !! RequestIds(swapped)
    requires forall g | g in swapped :: Owned(g, owner)
    requires room == Room(|AllSlots(m, running, blockSize).free| - watermark, tokens - SumLive(running), seqs - SumMax(running))
    ensures StepStumbles(m, start, running, swapped, watermark, tokens, seqs, blockSize) <==> Stumbles(swapped, now, room, blockSize)
  {
    hide Held, Roomy, AllSlots, SumLive, SumMax, Owned, Untouched;
    forall g | g in swapped ensures Held(now, g) == Held(start, g) {
      assert g.requestId in RequestIds(swapped);
      HeldStill(g, RequestIds(running), owner, start, now);
    }
    StumblesSame(swapped, start, now, room, blockSize);
  }

  lemma NobodyReturns(m: Memory, tables: map<int, BlockTable>, running: seq<SequenceGroup>, swapped: seq<SequenceGroup>,
                      watermark: int, tokens: int, seqs: int, blockSize: nat)
    requires blockSize > 0 && !Roomy(m, running, blockSize)
    ensures !StepStumbles(m, tables, running, swapped, watermark, tokens, seqs, blockSize)
  {
  }

  lemma NoSwapped(m: Memory, tables: map<int, BlockTable>, running: seq<SequenceGroup>, watermark: int, tokens: int, seqs: int,
                  blockSize: nat)
    requires blockSize > 0
    ensures !StepStumbles(m, tables, running, [], watermark, tokens, seqs, blockSize)
  {
  }
}
