/** What a step leaves of the blocks of the running groups: nobody writes over what another sequence still reads. */
module Footprints {
  import opened Blocks
  import opened Paging
  import opened Swapping
  import opened Sequences
  import opened GroupStates
  import opened Rosters
  import opened Transfers
  import opened Forecasts
  import opened Preemptions
  import opened Queues

  /** A table has grown by a block, or its last block has been replaced, or neither. */
  ghost predicate Grew<B>(t: seq<B>, t': seq<B>) {
    && |t| <= |t'| <= |t| + 1
    && (|t'| > |t| ==> t <= t')
    && (|t'| == |t| > 0 ==> t'[..|t| - 1] == t[..|t| - 1])
  }

  /** The blocks that tables gain were free, and blocks in use stay in use. */
  ghost predicate TakesFree<B>(l: Ledger<B>, l': Ledger<B>) {
    forall id, b | id in l'.tables && b in l'.tables[id] :: (id in l.tables && b in l.tables[id]) || b in FreeSet(l)
  }

  ghost predicate NoneFreed<B>(l: Ledger<B>, l': Ledger<B>) {
    l'.refs.Keys == l.refs.Keys && forall b | b in l.refs && l.refs[b] > 0 :: l'.refs[b] > 0
  }

  /** A sequence may write to its last block, because nobody else holds it. */
  ghost predicate Writable<B>(tables: map<int, seq<B>>, id: int) {
    id in tables && tables[id] != [] && Holders(tables, Last(tables[id])) == {id}
  }

  ghost predicate TablesKept<B>(before: map<int, seq<B>>, after: map<int, seq<B>>) {
    forall id | id in before :: id in after && after[id] == before[id]
  }

  /** Groups of one sequence each. */
  ghost predicate OneEach(groups: seq<SequenceGroup>) {
    forall g | g in groups :: |g.seqs| == 1
  }

  /** Prompts have been granted tables: no other table has changed, and with one sequence a group counts stay exact. */
  ghost predicate Granting<B>(l0: Ledger<B>, l: Ledger<B>, queue: seq<SequenceGroup>) {
    TablesKept(l0.tables, l.tables) && (OneEach(queue) && Exact(l0) ==> Exact(l))
  }

  lemma GrantingStarts<B>(l: Ledger<B>, queue: seq<SequenceGroup>)
    ensures Granting(l, l, queue)
  {
  }

  lemma GrantingNext<B>(l0: Ledger<B>, l: Ledger<B>, l': Ledger<B>, queue: seq<SequenceGroup>, g: SequenceGroup)
    requires Granting(l0, l, queue) && g in queue && Granting(l, l', [g])
    ensures Granting(l0, l', queue)
  {
    hide Exact;
    assert g in [g];
  }

  lemma RecountExact<B>(l: Ledger<B>, l': Ledger<B>)
    requires Covered(l) && l' == Recounted(l, l'.tables) && Exact(l)
    ensures Exact(l')
  {
    assert forall b | b in l'.refs :: Slack(l', b) == Slack(l, b);
  }

  // ---- slots --------------------------------------------------------------------------------------------------

  /** What slots for the members `live` have done. */
  ghost predicate Shaped(l: Ledger<PhysicalTokenBlock>, l': Ledger<PhysicalTokenBlock>, live: seq<Sequence>) {
    && TakesFree(l, l') && NoneFreed(l, l')
    && (forall id | id in l.tables && id !in Ids(live) :: id in l'.tables && l'.tables[id] == l.tables[id])
    && (forall s | s in live :: s.id in l.tables && s.id in l'.tables && Grew(l.tables[s.id], l'.tables[s.id]) && Writable(l'.tables, s.id))
  }

  /** One slot. */
  lemma SlotShapes(m: Memory, s: Sequence, gpu: set<PhysicalTokenBlock>, cpu: set<PhysicalTokenBlock>, blockSize: nat)
    requires blockSize > 0 && Sound(m.ledger, gpu, cpu) && m.free != [] && Last(m.free) in gpu && Last(m.free) in FreeSet(m.ledger)
    requires s.id in m.ledger.tables && LiesIn(m.ledger.tables[s.id], gpu) && s.tokens != []
    requires |m.ledger.tables[s.id]| <= NumBlocks(|s.tokens|, blockSize) <= |m.ledger.tables[s.id]| + 1
    ensures var l, l' := m.ledger, Slot(m, s, blockSize).ledger;
      && TakesFree(l, l') && NoneFreed(l, l') && FreeSet(l') <= FreeSet(l)
      && l'.tables.Keys == l.tables.Keys && (forall id | id in l.tables && id != s.id :: l'.tables[id] == l.tables[id])
      && Grew(l.tables[s.id], l'.tables[s.id]) && Writable(l'.tables, s.id)
  {
    hide WellFormed, Recounted;
    var l, t, n := m.ledger, m.ledger.tables[s.id], NumBlocks(|s.tokens|, blockSize);
    assert t != [] ==> Last(t) in t && Last(t) in l.refs;
    if NeedsBlock(l, s.id, n) {
      var nb := Last(m.free);
      AppendRecounts(l, gpu, cpu, s.id, n, nb);
      FreeBlockHasNoHolder(l, nb);
      HoldersAfterAppend(l, gpu, cpu, s.id, n, nb, nb);
      assert Last(AppendedTable(l, s.id, n, nb)) == nb;
    } else {
      OnlyHolder(l, s.id);
    }
  }

  lemma OnlyHolder<B>(l: Ledger<B>, id: int)
    requires Covered(l) && id in l.tables && l.tables[id] != [] && Last(l.tables[id]) in l.refs && l.refs[Last(l.tables[id])] == 1
    ensures Writable(l.tables, id)
  {
    var holders := Holders(l.tables, Last(l.tables[id]));
    assert id in holders && Slack(l, Last(l.tables[id])) >= 0 && |holders| == 1;
    forall p | p in holders ensures p == id {
      if p != id {
        SubsetSize({p, id}, holders);
      }
    }
    assert holders == {id};
  }

  /** Each member lacks at most the slot of its newest token. */
  ghost predicate Sized(m: Memory, live: seq<Sequence>, blockSize: nat)
    requires blockSize > 0
  {
    forall s | s in live ::
      s.id in m.ledger.tables
      && |m.ledger.tables[s.id]| <= NumBlocks(|s.tokens|, blockSize) <= |m.ledger.tables[s.id]| + 1
  }

  /** A block that a sequence may write to stays its own while others take free blocks. */
  lemma WritableStill<B>(l: Ledger<B>, l': Ledger<B>, id: int)
    requires Covered(l) && Writable(l.tables, id) && TakesFree(l, l') && id in l'.tables && l'.tables[id] == l.tables[id]
    ensures Writable(l'.tables, id)
  {
    var b := Last(l.tables[id]);
    assert id in Holders(l.tables, b) && b in l.tables[id];
    if b in FreeSet(l) {
      FreeBlockHasNoHolder(l, b);
    }
    forall p | p in Holders(l'.tables, b) ensures p in Holders(l.tables, b) {
      assert p in l'.tables && b in l'.tables[p];
    }
  }

  lemma ShapedFirst(l: Ledger<PhysicalTokenBlock>, l': Ledger<PhysicalTokenBlock>, l'': Ledger<PhysicalTokenBlock>, s: Sequence,
                    rest: seq<Sequence>)
    requires Covered(l') && TakesFree(l, l') && NoneFreed(l, l') && FreeSet(l') <= FreeSet(l) && Shaped(l', l'', rest)
    requires l'.tables.Keys == l.tables.Keys && s.id in l.tables && s.id !in Ids(rest)
    requires forall id | id in l.tables && id != s.id :: l'.tables[id] == l.tables[id]
    requires Grew(l.tables[s.id], l'.tables[s.id]) && Writable(l'.tables, s.id)
    requires forall p | p in rest :: p.id != s.id
    ensures Shaped(l, l'', [s] + rest)
  {
    hide Grew, Writable, FreeSet;
    WritableStill(l', l'', s.id);
    IdsFirst(s, rest);
    forall id, b | id in l''.tables && b in l''.tables[id] ensures (id in l.tables && b in l.tables[id]) || b in FreeSet(l) {
      assert (id in l'.tables && b in l'.tables[id]) || b in FreeSet(l');
    }
    forall p | p in [s] + rest
      ensures p.id in l.tables && p.id in l''.tables && Grew(l.tables[p.id], l''.tables[p.id]) && Writable(l''.tables, p.id)
    {
      assert p == s || p in rest;
    }
  }

  lemma IdsFirst(s: Sequence, rest: seq<Sequence>)
    ensures Ids([s] + rest) == [s.id] + Ids(rest)
  {
  }

  lemma {:induction false} SlotsShape(m: Memory, live: seq<Sequence>, gpu: set<PhysicalTokenBlock>, cpu: set<PhysicalTokenBlock>,
                                      blockSize: nat)
    requires blockSize > 0 && Spare(m, live, gpu, cpu) && Sized(m, live, blockSize)
    ensures Shaped(m.ledger, Slots(m, live, blockSize).ledger, live)
    decreases live
  {
    if live == [] {
    } else {
      hide Spare, Slot, Slots, Shaped, TakesFree, NoneFreed, FreeSet, Grew, Writable, NumBlocks, SameCounts;
      var s, rest := live[0], live[1..];
      assert live == [s] + rest;
      var m' := Slot(m, s, blockSize);
      SlotsFirst(m, s, rest, blockSize);
      RestSpare(m, s, rest, gpu, cpu);
      FirstTakes(m, s, rest, gpu, cpu, blockSize);
      SpareSound(m, live, gpu, cpu);
      SpareSound(m', rest, gpu, cpu);
      SlotShapes(m, s, gpu, cpu, blockSize);
      assert Sized(m', rest, blockSize) by {
        assert forall p | p in rest :: p in live;
      }
      SlotsShape(m', rest, gpu, cpu, blockSize);
      NotInRest(s, rest);
      ShapedFirst(m.ledger, m'.ledger, Slots(m', rest, blockSize).ledger, s, rest);
    }
  }

  lemma GroupSized(m: Memory, g: SequenceGroup, gpu: set<PhysicalTokenBlock>, blockSize: nat)
    requires blockSize > 0 && RunningOk(g, m.ledger.tables, gpu, blockSize)
    ensures Sized(m, Unfinished(g.seqs), blockSize)
  {
    UnfinishedIsSubsequence(g.seqs);
    forall s | s in Unfinished(g.seqs)
      ensures s.id in m.ledger.tables
      ensures |m.ledger.tables[s.id]| <= NumBlocks(|s.tokens|, blockSize) <= |m.ledger.tables[s.id]| + 1
    {
      assert Housed(s, m.ledger.tables, gpu, blockSize);
    }
  }

  lemma NotInRest(s: Sequence, rest: seq<Sequence>)
    requires forall p | p in rest :: p.id != s.id
    ensures s.id !in Ids(rest)
  {
    forall k | 0 <= k < |rest| ensures Ids(rest)[k] != s.id {
      assert rest[k] in rest;
    }
  }

  lemma SpareSound(m: Memory, live: seq<Sequence>, gpu: set<PhysicalTokenBlock>, cpu: set<PhysicalTokenBlock>)
    requires Spare(m, live, gpu, cpu)
    ensures Sound(m.ledger, gpu, cpu) && Covered(m.ledger)
  {
  }

  // ---- the running groups half-way through a step ---------------------------------------------------------------

  /** The groups that go on: their tables have grown, and each member may write to its last block. */
  ghost predicate WellGrown<B>(groups: seq<SequenceGroup>, start: map<int, seq<B>>, tables: map<int, seq<B>>) {
    forall g, s | g in groups && s in Unfinished(g.seqs) ::
      s.id in start && s.id in tables && Grew(start[s.id], tables[s.id]) && Writable(tables, s.id)
  }

  /** The blocks that these groups had are still in use, by nobody who did not hold them. */
  ghost predicate InUse<B>(groups: seq<SequenceGroup>, start: map<int, seq<B>>, l: Ledger<B>) {
    forall g, s, b | g in groups && s in Unfinished(g.seqs) && s.id in start && b in start[s.id] ::
      b in l.refs && l.refs[b] > 0 && Holders(l.tables, b) <= Holders(start, b)
  }

  lemma InUseAtFirst<B>(groups: seq<SequenceGroup>, l: Ledger<B>, gpu: set<B>, cpu: set<B>)
    requires Sound(l, gpu, cpu)
    ensures InUse(groups, l.tables, l)
  {
    forall g, s, b | g in groups && s in Unfinished(g.seqs) && s.id in l.tables && b in l.tables[s.id]
      ensures b in l.refs && l.refs[b] > 0
    {
      assert TableOk(l.tables[s.id], gpu, cpu);
      assert s.id in Holders(l.tables, b) && Slack(l, b) >= 0;
    }
  }

  /** Other requests change their tables, and what these gain was free. */
  lemma OthersMove<B>(groups: seq<SequenceGroup>, requests: set<int>, start: map<int, seq<B>>, l: Ledger<B>, l': Ledger<B>,
                      owner: map<int, int>)
    requires Covered(l) && l' == Recounted(l, l'.tables) && TakesFree(l, l') && Untouched(requests, owner, l.tables, l'.tables)
    requires Housing(start, owner) && forall g | g in groups :: Owned(g, owner) && g.requestId !in requests
    requires InUse(groups, start, l)
    ensures InUse(groups, start, l')
    ensures WellGrown(groups, start, l.tables) ==> WellGrown(groups, start, l'.tables)
  {
    hide Recounted;
    forall g, s, b | g in groups && s in Unfinished(g.seqs) && s.id in start && b in start[s.id]
      ensures b in l'.refs && l'.refs[b] > 0 && Holders(l'.tables, b) <= Holders(start, b)
    {
      OtherHolders(g, requests, start, l, l', owner, s, b);
    }
    if WellGrown(groups, start, l.tables) {
      forall g, s | g in groups && s in Unfinished(g.seqs)
        ensures s.id in l'.tables && l'.tables[s.id] == l.tables[s.id] && Writable(l'.tables, s.id)
      {
        UnfinishedIsSubsequence(g.seqs);
        WritableStill(l, l', s.id);
      }
    }
  }

  lemma OtherHolders<B>(g: SequenceGroup, requests: set<int>, start: map<int, seq<B>>, l: Ledger<B>, l': Ledger<B>,
                        owner: map<int, int>, s: Sequence, b: B)
    requires Covered(l) && l' == Recounted(l, l'.tables) && TakesFree(l, l') && Untouched(requests, owner, l.tables, l'.tables)
    requires Housing(start, owner) && Owned(g, owner) && g.requestId !in requests
    requires s in Unfinished(g.seqs) && s.id in start && b in start[s.id]
    requires b in l.refs && l.refs[b] > 0 && Holders(l.tables, b) <= Holders(start, b)
    ensures b in l'.refs && l'.refs[b] > 0 && Holders(l'.tables, b) == Holders(l.tables, b)
  {
    UnfinishedIsSubsequence(g.seqs);
    forall p | p in Holders(l.tables, b) ensures p in Holders(l'.tables, b) {
      assert p in start && b in start[p];
      assert owner[p] == owner[s.id] == g.requestId;
      assert p in l.tables && l'.tables[p] == l.tables[p];
    }
    forall p | p in Holders(l'.tables, b) ensures p in Holders(l.tables, b) {
      assert p in l'.tables && b in l'.tables[p];
      assert b !in FreeSet(l);
    }
    assert Holders(l'.tables, b) == Holders(l.tables, b);
    assert Slack(l', b) == Slack(l, b);
  }

  lemma OffIsUntouched<B>(v: SequenceGroup, owner: map<int, int>, tables: map<int, seq<B>>, tables': map<int, seq<B>>)
    requires Owned(v, owner) && AgreeOff(v, tables, tables')
    ensures Untouched({v.requestId}, owner, tables, tables')
  {
    forall id | id in owner && owner[id] != v.requestId
      ensures (id in tables <==> id in tables') && (id in tables ==> tables'[id] == tables[id])
    {
      assert forall s | s in v.seqs :: s.id != id;
    }
  }

  /** What the slots do to the group itself. */
  lemma OwnMoves(g: SequenceGroup, start: map<int, BlockTable>, l: Ledger<PhysicalTokenBlock>, l': Ledger<PhysicalTokenBlock>)
    requires Shaped(l, l', Unfinished(g.seqs)) && SameOn(Unfinished(g.seqs), start, l.tables) && InUse([g], start, l)
    ensures WellGrown([g], start, l'.tables) && InUse([g], start, l')
  {
    hide Grew, Writable, TakesFree, NoneFreed, Holders, Unfinished, Shaped, SameOn;
    assert g in [g];
    forall s | s in Unfinished(g.seqs)
      ensures s.id in start && s.id in l'.tables && Grew(start[s.id], l'.tables[s.id]) && Writable(l'.tables, s.id)
    {
      OwnMember(Unfinished(g.seqs), start, l, l', s);
    }
    ShapedIs(l, l', Unfinished(g.seqs));
    forall s, b | s in Unfinished(g.seqs) && s.id in start && b in start[s.id]
      ensures b in l'.refs && l'.refs[b] > 0 && Holders(l'.tables, b) <= Holders(start, b)
    {
      StillHeld(l, l', b);
    }
  }

  lemma OwnMember(live: seq<Sequence>, start: map<int, BlockTable>, l: Ledger<PhysicalTokenBlock>, l': Ledger<PhysicalTokenBlock>,
                  s: Sequence)
    requires Shaped(l, l', live) && SameOn(live, start, l.tables) && s in live
    ensures s.id in start && s.id in l'.tables && Grew(start[s.id], l'.tables[s.id]) && Writable(l'.tables, s.id)
  {
    hide Grew, Writable, TakesFree, NoneFreed;
  }

  lemma ShapedIs(l: Ledger<PhysicalTokenBlock>, l': Ledger<PhysicalTokenBlock>, live: seq<Sequence>)
    requires Shaped(l, l', live)
    ensures TakesFree(l, l') && NoneFreed(l, l')
  {
    hide TakesFree, NoneFreed;
  }

  lemma InUseAll<B>(a: seq<SequenceGroup>, b: seq<SequenceGroup>, start: map<int, seq<B>>, l: Ledger<B>)
    ensures InUse(a + b, start, l) <==> InUse(a, start, l) && InUse(b, start, l)
  {
    hide Holders, Unfinished;
    assert forall g :: g in a + b <==> g in a || g in b;
  }

  lemma WellGrownAll<B>(a: seq<SequenceGroup>, b: seq<SequenceGroup>, start: map<int, seq<B>>, tables: map<int, seq<B>>)
    ensures WellGrown(a + b, start, tables) <==> WellGrown(a, start, tables) && WellGrown(b, start, tables)
  {
    hide Grew, Writable, Unfinished;
    assert forall g :: g in a + b <==> g in a || g in b;
  }

  /** The group whose turn it is gets its slots. */
  lemma GroupMoves(kept: seq<SequenceGroup>, g: SequenceGroup, left: seq<SequenceGroup>, start: map<int, BlockTable>,
                   l: Ledger<PhysicalTokenBlock>, l': Ledger<PhysicalTokenBlock>, owner: map<int, int>)
    requires Covered(l) && l' == Recounted(l, l'.tables) && Shaped(l, l', Unfinished(g.seqs)) && AgreeOff(g, l.tables, l'.tables)
    requires Housing(start, owner) && Owned(g, owner) && SameOn(Unfinished(g.seqs), start, l.tables)
    requires forall h | h in kept + left :: Owned(h, owner) && h.requestId != g.requestId
    requires WellGrown(kept, start, l.tables) && InUse(kept + ([g] + left), start, l)
    ensures WellGrown(kept + [g], start, l'.tables) && InUse(kept + [g] + left, start, l')
  {
    hide Recounted, AgreeOff, Untouched, InUse, WellGrown, TakesFree, NoneFreed, SameOn, Housing, Owned;
    OffIsUntouched(g, owner, l.tables, l'.tables);
    InUseAll(kept, [g] + left, start, l);
    InUseAll([g], left, start, l);
    OthersMove(kept, {g.requestId}, start, l, l', owner);
    OthersMove(left, {g.requestId}, start, l, l', owner);
    OwnMoves(g, start, l, l');
    WellGrownAll(kept, [g], start, l'.tables);
    InUseAll(kept, [g], start, l');
    InUseAll(kept + [g], left, start, l');
  }

  lemma StillHeld<B>(l: Ledger<B>, l': Ledger<B>, b: B)
    requires TakesFree(l, l') && NoneFreed(l, l') && b in l.refs && l.refs[b] > 0
    ensures b in l'.refs && l'.refs[b] > 0 && Holders(l'.tables, b) <= Holders(l.tables, b)
  {
    assert b !in FreeSet(l);
    forall p | p in Holders(l'.tables, b) ensures p in Holders(l.tables, b) {
      assert p in l'.tables && b in l'.tables[p];
    }
  }

  // ---- groups that return ---------------------------------------------------------------------------------------

  /** The tables gain blocks of one device only, which were free, and no block of it becomes free. */
  ghost predicate TakesOn<B>(l: Ledger<B>, l': Ledger<B>, device: set<B>) {
    && (forall id, b | id in l'.tables && b in l'.tables[id] ::
          (id in l.tables && b in l.tables[id]) || (b in device && b in FreeSet(l)))
    && forall b | b in device && b in FreeSet(l') :: b in FreeSet(l)
  }

  lemma TakesNothing<B>(l: Ledger<B>, device: set<B>)
    ensures TakesOn(l, l, device)
  {
  }

  lemma TakesTwice<B>(a: Ledger<B>, b: Ledger<B>, c: Ledger<B>, device: set<B>)
    requires TakesOn(a, b, device) && TakesOn(b, c, device)
    ensures TakesOn(a, c, device)
  {
    hide FreeSet;
    forall id, x | id in c.tables && x in c.tables[id]
      ensures (id in a.tables && x in a.tables[id]) || (x in device && x in FreeSet(a))
    {
      assert (id in b.tables && x in b.tables[id]) || (x in device && x in FreeSet(b));
    }
  }

  lemma TakesOnIs<B>(l: Ledger<B>, l': Ledger<B>, device: set<B>)
    requires TakesOn(l, l', device)
    ensures TakesFree(l, l')
  {
  }

  lemma SwapTakesFree<B>(l: Ledger<B>, l': Ledger<B>, ids: seq<int>, mapping: map<B, B>, src: set<B>, dst: set<B>)
    requires Covered(l) && MovedTables(l, l', ids, mapping, src, dst) && AllOn(l.tables, ids, src)
    ensures TakesFree(l, l')
    ensures src !! dst ==> TakesOn(l, l', dst)
  {
    hide Recounted, Slack;
    forall id, b | id in l'.tables && b in l'.tables[id]
      ensures (id in l.tables && b in l.tables[id]) || (b in dst && b in FreeSet(l))
    {
      if id in ids {
        assert Remapped(mapping, l.tables[id], l'.tables[id]);
        var i :| 0 <= i < |l'.tables[id]| && l'.tables[id][i] == b;
        assert b == mapping[l.tables[id][i]];
      }
    }
    if src !! dst {
      forall b | b in dst && b in FreeSet(l') ensures b in FreeSet(l) {
        MoreHolders(l, l', ids, mapping, src, dst, b);
      }
    }
  }

  lemma MoreHolders<B>(l: Ledger<B>, l': Ledger<B>, ids: seq<int>, mapping: map<B, B>, src: set<B>, dst: set<B>, b: B)
    requires Covered(l) && MovedTables(l, l', ids, mapping, src, dst) && AllOn(l.tables, ids, src) && src !! dst
    requires b in dst && b in FreeSet(l')
    ensures b in FreeSet(l)
  {
    forall p | p in Holders(l.tables, b) ensures p in Holders(l'.tables, b) {
      if p in ids {
        assert LiesIn(l.tables[p], src);
      }
    }
    SubsetSize(Holders(l.tables, b), Holders(l'.tables, b));
    assert Slack(l', b) == Slack(l, b) >= 0;
  }

  // ---- the loop over the running queue ----------------------------------------------------------------------------

  /** Half-way through the running queue, the ledger was `start` before the step and is `l` now. */
  ghost predicate Onward(sorted: seq<SequenceGroup>, kept: seq<SequenceGroup>, left: seq<SequenceGroup>, victims: seq<SequenceGroup>,
                         swaps: map<int, int>, copies: map<int, seq<int>>, start: Ledger<PhysicalTokenBlock>,
                         l: Ledger<PhysicalTokenBlock>, owner: map<int, int>, gpu: set<PhysicalTokenBlock>, cpu: set<PhysicalTokenBlock>)
  {
    && Shipped(sorted, kept, left, victims, swaps, copies, start.tables, l.tables, owner, gpu, cpu)
    && Covered(start) && l == Recounted(start, l.tables) && start.tables.Keys <= owner.Keys
    && WellGrown(kept, start.tables, l.tables) && InUse(kept + left, start.tables, l)
  }

  lemma OnwardStarts(sorted: seq<SequenceGroup>, l: Ledger<PhysicalTokenBlock>, owner: map<int, int>, gpu: set<PhysicalTokenBlock>,
                     cpu: set<PhysicalTokenBlock>)
    requires Sound(l, gpu, cpu) && l.tables.Keys <= owner.Keys
    requires Shipped(sorted, [], sorted, [], map[], map[], l.tables, l.tables, owner, gpu, cpu)
    ensures Onward(sorted, [], sorted, [], map[], map[], l, l, owner, gpu, cpu)
  {
    hide Shipped, InUse, Recounted;
    RecountNothing(l);
    InUseAtFirst(sorted, l, gpu, cpu);
    assert [] + sorted == sorted;
  }

  /** The groups of the queue are different requests. */
  lemma OnwardApart(sorted: seq<SequenceGroup>, a: seq<SequenceGroup>, g: SequenceGroup, b: seq<SequenceGroup>,
                    start: map<int, BlockTable>, owner: map<int, int>, gpu: set<PhysicalTokenBlock>)
    requires Grounded(sorted, start, owner, gpu) && sorted == a + [g] + b
    ensures Owned(g, owner) && Unshared(start, owner)
    ensures forall h | h in a + b :: Owned(h, owner) && h.requestId != g.requestId
  {
    hide DistinctRequests, Grounding, Unshared, Owned;
    OthersDiffer(a, g, b);
    assert g in sorted && forall h | h in a + b :: h in sorted;
  }

  lemma OnwardVictim(sorted: seq<SequenceGroup>, kept: seq<SequenceGroup>, left: seq<SequenceGroup>, v: SequenceGroup,
                     victims: seq<SequenceGroup>, swaps: map<int, int>, copies: map<int, seq<int>>, moves: map<int, int>,
                     start: Ledger<PhysicalTokenBlock>, l: Ledger<PhysicalTokenBlock>, l': Ledger<PhysicalTokenBlock>,
                     owner: map<int, int>, gpu: set<PhysicalTokenBlock>, cpu: set<PhysicalTokenBlock>)
    requires Onward(sorted, kept, left + [v], victims, swaps, copies, start, l, owner, gpu, cpu)
    requires AgreeOff(v, l.tables, l'.tables) && Covered(l) && l' == Recounted(l, l'.tables) && TakesFree(l, l')
    requires if v.MaxNumRunningSeqs() == 1 then moves == map[] else Relocated(moves, Unfinished(v.seqs), l.tables, l'.tables, cpu)
    ensures Onward(sorted, kept, left, [v] + victims, swaps + moves, copies, start, l', owner, gpu, cpu)
  {
    hide Grounded, Untouched, Transit, CopiesMade, Relocated, AgreeOff, Recounted, Covered, InUse, WellGrown, TakesFree, Unshared;
    hide SequenceGroup.MaxNumRunningSeqs, Owned;
    ShipVictim(sorted, kept, left, v, victims, swaps, copies, moves, start.tables, l.tables, l'.tables, owner, gpu, cpu);
    RecountTwice(start, l.tables, l'.tables);
    assert sorted == (kept + left) + [v] + victims;
    OnwardApart(sorted, kept + left, v, victims, start.tables, owner, gpu);
    assert forall h | h in kept + left :: h in (kept + left) + victims;
    OffIsUntouched(v, owner, l.tables, l'.tables);
    assert kept + (left + [v]) == (kept + left) + [v];
    InUseAll(kept + left, [v], start.tables, l);
    InUseAll(kept, left, start.tables, l);
    OthersMove(kept + left, {v.requestId}, start.tables, l, l', owner);
    OthersMove(kept, {v.requestId}, start.tables, l, l', owner);
  }

  lemma OnwardDecode(sorted: seq<SequenceGroup>, kept: seq<SequenceGroup>, g: SequenceGroup, left: seq<SequenceGroup>,
                     victims: seq<SequenceGroup>, swaps: map<int, int>, copies: map<int, seq<int>>,
                     start: Ledger<PhysicalTokenBlock>, l: Ledger<PhysicalTokenBlock>, l': Ledger<PhysicalTokenBlock>,
                     owner: map<int, int>, gpu: set<PhysicalTokenBlock>, cpu: set<PhysicalTokenBlock>)
    requires Onward(sorted, kept, [g] + left, victims, swaps, copies, start, l, owner, gpu, cpu)
    requires AgreeOff(g, l.tables, l'.tables) && Covered(l) && l' == Recounted(l, l'.tables) && Shaped(l, l', Unfinished(g.seqs))
    ensures Onward(sorted, kept + [g], left, victims, swaps, CopiesMade(copies, Unfinished(g.seqs), l.tables, l'.tables),
                   start, l', owner, gpu, cpu)
  {
    hide Grounded, Untouched, Transit, CopiesMade, AgreeOff, Recounted, Covered, InUse, WellGrown, Shaped, Unshared, Owned, SameOn;
    hide RequestIds, Unfinished;
    ShipDecode(sorted, kept, g, left, victims, swaps, copies, start.tables, l.tables, l'.tables, owner, gpu, cpu);
    RecountTwice(start, l.tables, l'.tables);
    DecodeApart(sorted, kept, g, left, victims, start.tables, owner, gpu);
    NotYetTouched(g, RequestIds(kept) + RequestIds(victims), owner, start.tables, l.tables);
    GroupMoves(kept, g, left, start.tables, l, l', owner);
  }

  lemma DecodeApart(sorted: seq<SequenceGroup>, kept: seq<SequenceGroup>, g: SequenceGroup, left: seq<SequenceGroup>,
                    victims: seq<SequenceGroup>, start: map<int, BlockTable>, owner: map<int, int>, gpu: set<PhysicalTokenBlock>)
    requires Grounded(sorted, start, owner, gpu) && sorted == kept + ([g] + left) + victims
    ensures Owned(g, owner) && Unshared(start, owner) && g.requestId !in RequestIds(kept) + RequestIds(victims)
    ensures forall h | h in kept + left :: Owned(h, owner) && h.requestId != g.requestId
  {
    hide Grounded, Unshared, Owned, RequestIds;
    assert sorted == kept + [g] + (left + victims);
    OnwardApart(sorted, kept, g, left + victims, start, owner, gpu);
    assert forall h | h in kept + left :: h in kept + (left + victims);
    assert forall h | h in victims :: h in kept + (left + victims);
    NotAmong(g, kept, victims);
  }

  lemma OnwardOther(sorted: seq<SequenceGroup>, kept: seq<SequenceGroup>, left: seq<SequenceGroup>, g: SequenceGroup, i: nat,
                    victims: seq<SequenceGroup>, start: map<int, BlockTable>, owner: map<int, int>, gpu: set<PhysicalTokenBlock>)
    requires Grounded(sorted, start, owner, gpu) && sorted == kept + left + victims && i < |left| && left[i] == g
    ensures g.requestId !in RequestIds(kept) + RequestIds(victims) && Owned(g, owner) && Unshared(start, owner)
  {
    hide Grounded, Unshared, Owned, RequestIds;
    assert sorted == (kept + left[..i]) + [g] + (left[i + 1..] + victims);
    OnwardApart(sorted, kept + left[..i], g, left[i + 1..] + victims, start, owner, gpu);
    NotAmong(g, kept, victims);
  }

  /** A group that has not had its turn holds, gives up and takes what it would have at the start of the step. */
  lemma OnwardStill(sorted: seq<SequenceGroup>, kept: seq<SequenceGroup>, left: seq<SequenceGroup>, g: SequenceGroup, i: nat,
                    victims: seq<SequenceGroup>, swaps: map<int, int>, copies: map<int, seq<int>>,
                    start: Ledger<PhysicalTokenBlock>, l: Ledger<PhysicalTokenBlock>,
                    owner: map<int, int>, gpu: set<PhysicalTokenBlock>, cpu: set<PhysicalTokenBlock>, blockSize: nat)
    requires Onward(sorted, kept, left, victims, swaps, copies, start, l, owner, gpu, cpu)
    requires i < |left| && left[i] == g && blockSize > 0 && Housing(l.tables, owner)
    ensures SwapCost(l.tables, g) == SwapCost(start.tables, g) && Given(l, g) == Given(start, g)
    ensures Takes(l.tables, l.refs, Unfinished(g.seqs), blockSize) == Takes(start.tables, start.refs, Unfinished(g.seqs), blockSize)
  {
    hide Grounded, Untouched, Transit, CopiesMade, Recounted, Covered, InUse, WellGrown, Unshared, Owned, SwapCost, Given, Takes;
    hide RequestIds, Unfinished;
    var requests := RequestIds(kept) + RequestIds(victims);
    OnwardOther(sorted, kept, left, g, i, victims, start.tables, owner, gpu);
    HeldStill(g, requests, owner, start.tables, l.tables);
    StillAsBefore(start, l, g, requests, owner, blockSize);
  }

  // ---- the loop over the swapped queue ----------------------------------------------------------------------------

  lemma ShapedTakesOn(l: Ledger<PhysicalTokenBlock>, l': Ledger<PhysicalTokenBlock>, live: seq<Sequence>, gpu: set<PhysicalTokenBlock>)
    requires Covered(l) && Shaped(l, l', live) && l'.tables.Keys == l.tables.Keys
    requires forall id | id in Ids(live) && id in l'.tables :: LiesIn(l'.tables[id], gpu)
    ensures TakesOn(l, l', gpu)
  {
    hide Grew, Writable, Slack;
    forall id, b | id in l'.tables && b in l'.tables[id]
      ensures (id in l.tables && b in l.tables[id]) || (b in gpu && b in FreeSet(l))
    {
      if id in Ids(live) {
        assert LiesIn(l'.tables[id], gpu);
      }
    }
    forall b | b in gpu && b in FreeSet(l') ensures b in FreeSet(l) {
      CountedUp(l, b);
    }
  }

  lemma CountedUp<B>(l: Ledger<B>, b: B)
    requires Covered(l) && b in l.refs
    ensures l.refs[b] >= 0
  {
    assert Slack(l, b) >= 0;
  }

  lemma MembersOnGpu<B>(g: SequenceGroup, tables: map<int, seq<B>>, gpu: set<B>, blockSize: nat)
    requires blockSize > 0 && ScheduledOk(g, 1, tables, gpu, blockSize)
    ensures forall id | id in Ids(Unfinished(g.seqs)) && id in tables :: LiesIn(tables[id], gpu)
  {
    MembersOf(g);
    forall s | s in g.seqs ensures ScheduledMember(s, 1, tables, gpu, blockSize) {
    }
  }

  lemma {:induction false} SlotsTable(m: Memory, live: seq<Sequence>, blockSize: nat)
    requires blockSize > 0 && Covered(m.ledger)
    ensures var l := Slots(m, live, blockSize).ledger; Covered(l) && l.tables.Keys == m.ledger.tables.Keys
  {
    hide Recounted, Covered;
    if live != [] {
      SlotsTable(m, live[..|live| - 1], blockSize);
    }
  }

  ghost predicate AllWritable<B>(tables: map<int, seq<B>>, ids: seq<int>) {
    forall id | id in ids :: Writable(tables, id)
  }

  /** The groups that have come back may write to their last blocks. */
  ghost predicate ReturnedWritable<B>(groups: seq<SequenceGroup>, tables: map<int, seq<B>>) {
    forall g | g in groups :: AllWritable(tables, Ids(Unfinished(g.seqs)))
  }

  lemma ReturnedStill<B>(groups: seq<SequenceGroup>, g: SequenceGroup, l: Ledger<B>, l': Ledger<B>, owner: map<int, int>)
    requires Covered(l) && ReturnedWritable(groups, l.tables) && TakesFree(l, l') && AgreeOff(g, l.tables, l'.tables) && Owned(g, owner)
    requires forall h | h in groups :: Owned(h, owner) && h.requestId != g.requestId
    ensures ReturnedWritable(groups, l'.tables)
  {
    hide AgreeOff, TakesFree, Writable, Covered;
    OffIsUntouched(g, owner, l.tables, l'.tables);
    forall h, id | h in groups && id in Ids(Unfinished(h.seqs)) ensures Writable(l'.tables, id) {
      MembersOf(h);
      WritableIs(l.tables, id);
      WritableStill(l, l', id);
    }
  }

  lemma WritableIs<B>(tables: map<int, seq<B>>, id: int)
    requires Writable(tables, id)
    ensures id in tables
  {
  }

  lemma ShapedWritable(l: Ledger<PhysicalTokenBlock>, l': Ledger<PhysicalTokenBlock>, live: seq<Sequence>)
    requires Shaped(l, l', live)
    ensures AllWritable(l'.tables, Ids(live))
  {
    hide Writable, Grew, TakesFree, NoneFreed;
    forall id | id in Ids(live) ensures Writable(l'.tables, id) {
      var k :| 0 <= k < |live| && Ids(live)[k] == id;
      assert live[k] in live;
    }
  }

  /** Half-way through the swapped queue. */
  ghost predicate Inward(sorted: seq<SequenceGroup>, back: nat, swaps: map<int, int>, start: Ledger<PhysicalTokenBlock>,
                         l: Ledger<PhysicalTokenBlock>, landed: map<int, BlockTable>, owner: map<int, int>,
                         gpu: set<PhysicalTokenBlock>, cpu: set<PhysicalTokenBlock>)
  {
    && Fetched(sorted, back, swaps, start.tables, l.tables, landed, owner, gpu, cpu)
    && Covered(start) && l == Recounted(start, l.tables) && TakesOn(start, l, gpu)
    && ReturnedWritable(sorted[..back], l.tables)
  }

  lemma InwardStarts(sorted: seq<SequenceGroup>, l: Ledger<PhysicalTokenBlock>, owner: map<int, int>, gpu: set<PhysicalTokenBlock>,
                     cpu: set<PhysicalTokenBlock>)
    requires Covered(l) && Fetched(sorted, 0, map[], l.tables, l.tables, l.tables, owner, gpu, cpu)
    ensures Inward(sorted, 0, map[], l, l, l.tables, owner, gpu, cpu)
  {
    hide Fetched, Recounted, Covered;
    RecountNothing(l);
    TakesNothing(l, gpu);
  }

  lemma InwardMore(sorted: seq<SequenceGroup>, back: nat, swaps: map<int, int>, moves: map<int, int>,
                   start: Ledger<PhysicalTokenBlock>, l: Ledger<PhysicalTokenBlock>, between: map<int, BlockTable>,
                   l': Ledger<PhysicalTokenBlock>, landed: map<int, BlockTable>,
                   owner: map<int, int>, gpu: set<PhysicalTokenBlock>, cpu: set<PhysicalTokenBlock>)
    requires Inward(sorted, back, swaps, start, l, landed, owner, gpu, cpu) && back < |sorted|
    requires AgreeOff(sorted[back], l.tables, l'.tables) && Relocated(moves, Unfinished(sorted[back].seqs), l.tables, between, gpu)
    requires Extends(Unfinished(sorted[back].seqs), between, l'.tables)
    requires Covered(l) && l' == Recounted(l, l'.tables) && TakesOn(l, l', gpu)
    requires AllWritable(l'.tables, Ids(Unfinished(sorted[back].seqs)))
    ensures Inward(sorted, back + 1, swaps + moves, start, l', Placed(landed, Unfinished(sorted[back].seqs), between), owner, gpu, cpu)
  {
    hide Fetched, Recounted, Covered, TakesOn, AgreeOff, Relocated, Extends;
    hide ReturnedWritable, AllWritable;
    FetchMore(sorted, back, swaps, moves, start.tables, l.tables, between, l'.tables, landed, owner, gpu, cpu);
    RecountTwice(start, l.tables, l'.tables);
    TakesTwice(start, l, l', gpu);
    TakesOnIs(l, l', gpu);
    ReturnedApart(sorted, back, swaps, start.tables, l.tables, landed, owner, gpu, cpu);
    ReturnedStill(sorted[..back], sorted[back], l, l', owner);
    ReturnedMore(sorted, back, l'.tables);
  }

  lemma ReturnedApart(sorted: seq<SequenceGroup>, back: nat, swaps: map<int, int>, start: map<int, BlockTable>,
                      now: map<int, BlockTable>, landed: map<int, BlockTable>, owner: map<int, int>,
                      gpu: set<PhysicalTokenBlock>, cpu: set<PhysicalTokenBlock>)
    requires Fetched(sorted, back, swaps, start, now, landed, owner, gpu, cpu) && back < |sorted|
    ensures Owned(sorted[back], owner) && forall h | h in sorted[..back] :: Owned(h, owner) && h.requestId != sorted[back].requestId
  {
    hide Grounded, Untouched, Transit, Extends, Owned;
    assert sorted == sorted[..back] + [sorted[back]] + sorted[back + 1..];
    OnwardApart(sorted, sorted[..back], sorted[back], sorted[back + 1..], start, owner, cpu);
  }

  lemma ReturnedMore<B>(sorted: seq<SequenceGroup>, back: nat, tables: map<int, seq<B>>)
    requires back < |sorted| && ReturnedWritable(sorted[..back], tables) && AllWritable(tables, Ids(Unfinished(sorted[back].seqs)))
    ensures ReturnedWritable(sorted[..back + 1], tables)
  {
    hide AllWritable;
    assert sorted[..back + 1] == sorted[..back] + [sorted[back]];
  }

  /** What the groups that return do to those that have had their turn. */
  lemma InwardKeeps(kept: seq<SequenceGroup>, first: Ledger<PhysicalTokenBlock>, sorted: seq<SequenceGroup>, back: nat,
                    swaps: map<int, int>, start: Ledger<PhysicalTokenBlock>, l: Ledger<PhysicalTokenBlock>,
                    landed: map<int, BlockTable>, owner: map<int, int>, gpu: set<PhysicalTokenBlock>, cpu: set<PhysicalTokenBlock>)
    requires Inward(sorted, back, swaps, start, l, landed, owner, gpu, cpu) && RequestIds(kept) !! RequestIds(sorted)
    requires Housing(first.tables, owner) && forall g | g in kept :: Owned(g, owner)
    requires Covered(first) && start == Recounted(first, start.tables)
    requires WellGrown(kept, first.tables, start.tables) && InUse(kept, first.tables, start)
    ensures WellGrown(kept, first.tables, l.tables) && InUse(kept, first.tables, l)
    ensures l == Recounted(first, l.tables)
  {
    hide Recounted, Covered, TakesOn, WellGrown, InUse, Transit, Grounded, Untouched, Extends, Housing, Owned;
    TakesOnIs(start, l, gpu);
    RecountTwice(first, start.tables, l.tables);
    Separately(kept, sorted, back);
    OthersMove(kept, RequestIds(sorted[..back]), first.tables, start, l, owner);
  }

  // ---- the whole step ---------------------------------------------------------------------------------------------

  /** What a step that decodes has done since the ledger was `start`: `victims` have left the GPU, `returned` have come back,
      `kept` and `returned` have grown, nobody else has changed, and the worker is told just that. */
  ghost predicate StepDone(start: Ledger<PhysicalTokenBlock>, now: Ledger<PhysicalTokenBlock>, kept: seq<SequenceGroup>,
                           victims: seq<SequenceGroup>, returned: seq<SequenceGroup>, swapIn: map<int, int>, swapOut: map<int, int>,
                           copies: map<int, seq<int>>, owner: map<int, int>)
  {
    && StepTransfers(start.tables, now.tables, kept, victims, returned, swapIn, swapOut, copies)
    && Covered(start) && now == Recounted(start, now.tables)
    && Untouched(RequestIds(kept) + RequestIds(victims) + RequestIds(returned), owner, start.tables, now.tables)
    && WellGrown(kept, start.tables, now.tables) && InUse(kept, start.tables, now) && ReturnedWritable(returned, now.tables)
  }

  lemma StepAlone(kept: seq<SequenceGroup>, victims: seq<SequenceGroup>, swaps: map<int, int>, copies: map<int, seq<int>>,
                  start: Ledger<PhysicalTokenBlock>, now: Ledger<PhysicalTokenBlock>, owner: map<int, int>,
                  gpu: set<PhysicalTokenBlock>, cpu: set<PhysicalTokenBlock>)
    requires Onward(kept + victims, kept, [], victims, swaps, copies, start, now, owner, gpu, cpu) && NumberedOn(cpu)
    ensures StepDone(start, now, kept, victims, [], map[], swaps, copies, owner)
  {
    hide Shipped, StepTransfers, Recounted, Covered, WellGrown, InUse, Untouched, RequestIds;
    ShippedAll(kept, victims, swaps, copies, start.tables, now.tables, owner, gpu, cpu);
    ShippedOff(kept + victims, kept, [], victims, swaps, copies, start.tables, now.tables, owner, gpu, cpu);
    NobodyTouched();
    assert kept + [] == kept;
    var ids := RequestIds(kept) + RequestIds(victims);
    assert ids + {} == ids;
  }

  lemma NobodyTouched()
    ensures RequestIds([]) == {}
  {
  }

  lemma ShippedOff(sorted: seq<SequenceGroup>, kept: seq<SequenceGroup>, left: seq<SequenceGroup>, victims: seq<SequenceGroup>,
                   swaps: map<int, int>, copies: map<int, seq<int>>, start: map<int, BlockTable>, now: map<int, BlockTable>,
                   owner: map<int, int>, gpu: set<PhysicalTokenBlock>, cpu: set<PhysicalTokenBlock>)
    requires Shipped(sorted, kept, left, victims, swaps, copies, start, now, owner, gpu, cpu)
    ensures Untouched(RequestIds(kept) + RequestIds(victims), owner, start, now) && Grounded(sorted, start, owner, gpu)
  {
  }

  lemma UntouchedTwice(a: set<int>, b: set<int>, owner: map<int, int>, start: map<int, BlockTable>, mid: map<int, BlockTable>,
                       now: map<int, BlockTable>)
    requires Untouched(a, owner, start, mid) && Untouched(b, owner, mid, now)
    ensures Untouched(a + b, owner, start, now)
  {
  }

  lemma InwardIs(sorted: seq<SequenceGroup>, back: nat, swaps: map<int, int>, start: Ledger<PhysicalTokenBlock>,
                 l: Ledger<PhysicalTokenBlock>, landed: map<int, BlockTable>, owner: map<int, int>,
                 gpu: set<PhysicalTokenBlock>, cpu: set<PhysicalTokenBlock>)
    requires Inward(sorted, back, swaps, start, l, landed, owner, gpu, cpu)
    ensures Fetched(sorted, back, swaps, start.tables, l.tables, landed, owner, gpu, cpu) && back <= |sorted|
    ensures Untouched(RequestIds(sorted[..back]), owner, start.tables, l.tables) && ReturnedWritable(sorted[..back], l.tables)
  {
    hide ReturnedWritable, Grounded, Transit, Extends, Recounted, Covered, TakesOn;
  }

  lemma StepThenFetched(kept: seq<SequenceGroup>, copies: map<int, seq<int>>, sorted: seq<SequenceGroup>, back: nat, swapIn: map<int, int>,
                        start: Ledger<PhysicalTokenBlock>, mid: Ledger<PhysicalTokenBlock>, now: Ledger<PhysicalTokenBlock>,
                        landed: map<int, BlockTable>, owner: map<int, int>, gpu: set<PhysicalTokenBlock>, cpu: set<PhysicalTokenBlock>)
    requires Onward(kept + [], kept, [], [], map[], copies, start, mid, owner, gpu, cpu)
    requires Inward(sorted, back, swapIn, mid, now, landed, owner, gpu, cpu) && RequestIds(kept) !! RequestIds(sorted) && NumberedOn(gpu)
    ensures back <= |sorted| && StepDone(start, now, kept, [], sorted[..back], swapIn, map[], copies, owner)
  {
    hide Shipped, StepTransfers, Recounted, Covered, WellGrown, InUse, Untouched, RequestIds, Inward, Fetched, NumberedOn;
    InwardIs(sorted, back, swapIn, mid, now, landed, owner, gpu, cpu);
    ThenFetched(kept, copies, sorted, back, swapIn, start.tables, mid.tables, now.tables, landed, owner, gpu, cpu);
    ShippedOff(kept + [], kept, [], [], map[], copies, start.tables, mid.tables, owner, gpu, cpu);
    assert kept + [] == kept;
    KeptOwned(kept, start.tables, owner, gpu);
    InwardKeeps(kept, start, sorted, back, swapIn, mid, now, landed, owner, gpu, cpu);
    UntouchedTwice(RequestIds(kept) + RequestIds([]), RequestIds(sorted[..back]), owner, start.tables, mid.tables, now.tables);
  }

  lemma KeptOwned(kept: seq<SequenceGroup>, start: map<int, BlockTable>, owner: map<int, int>, gpu: set<PhysicalTokenBlock>)
    requires Grounded(kept, start, owner, gpu)
    ensures Unshared(start, owner) && forall g | g in kept :: Owned(g, owner)
  {
  }
}
