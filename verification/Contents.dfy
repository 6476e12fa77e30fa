/** What the worker makes of the three dictionaries of a step (vllm/worker/worker.py:204-217): every sequence reads through its
    new table what it read through its old one, and writes where nobody else reads. */
module Contents {
  import opened Blocks
  import opened Paging
  import opened Sequences
  import opened GroupStates
  import opened Rosters
  import opened Queues
  import opened Transfers
  import opened Preemptions
  import opened Footprints
  import KvCache
  import KvRefinement

  /** What every block of both devices holds. */
  type Memory<K> = map<PhysicalTokenBlock, seq<K>>

  // ---- the worker ---------------------------------------------------------------------------------------------

  ghost predicate Goes(moves: map<int, int>, a: PhysicalTokenBlock, b: PhysicalTokenBlock) {
    a.blockNumber in moves && moves[a.blockNumber] == b.blockNumber
  }

  /** `swap_in` and `swap_out` of the cache engine: block numbers are those of the two devices. */
  ghost function Moved<K>(m: Memory<K>, moves: map<int, int>, src: set<PhysicalTokenBlock>, dst: set<PhysicalTokenBlock>): (r: Memory<K>)
    ensures r.Keys == m.Keys
  {
    map b | b in m ::
      if b in dst && exists a :: a in src && a in m && Goes(moves, a, b) then
        var a :| a in src && a in m && Goes(moves, a, b); m[a]
      else m[b]
  }

  ghost predicate CopiesTo(copies: map<int, seq<int>>, a: PhysicalTokenBlock, b: PhysicalTokenBlock) {
    a.blockNumber in copies && b.blockNumber in copies[a.blockNumber]
  }

  /** `copy_blocks`: all at once. */
  ghost function Copied<K>(m: Memory<K>, copies: map<int, seq<int>>, gpu: set<PhysicalTokenBlock>): (r: Memory<K>)
    ensures r.Keys == m.Keys
  {
    map b | b in m ::
      if b in gpu && exists a :: a in gpu && a in m && CopiesTo(copies, a, b) then
        var a :| a in gpu && a in m && CopiesTo(copies, a, b); m[a]
      else m[b]
  }

  /** `cache_swap`: in, out, copies. */
  ghost function Served<K>(m: Memory<K>, swapIn: map<int, int>, swapOut: map<int, int>, copies: map<int, seq<int>>,
                           gpu: set<PhysicalTokenBlock>, cpu: set<PhysicalTokenBlock>): (r: Memory<K>)
    ensures r.Keys == m.Keys
  {
    Copied(Moved(Moved(m, swapIn, cpu, gpu), swapOut, gpu, cpu), copies, gpu)
  }

  ghost predicate Injective(moves: map<int, int>) {
    forall m, n | m in moves && n in moves && moves[m] == moves[n] :: m == n
  }

  lemma MovedTo<K>(m: Memory<K>, moves: map<int, int>, src: set<PhysicalTokenBlock>, dst: set<PhysicalTokenBlock>,
                   a: PhysicalTokenBlock, b: PhysicalTokenBlock)
    requires NumberedOn(src) && Injective(moves) && a in src && b in dst && a in m && b in m && Goes(moves, a, b)
    ensures Moved(m, moves, src, dst)[b] == m[a]
  {
    forall x | x in src && x in m && Goes(moves, x, b) ensures x == a {
    }
  }

  lemma NotMoved<K>(m: Memory<K>, moves: map<int, int>, src: set<PhysicalTokenBlock>, dst: set<PhysicalTokenBlock>, b: PhysicalTokenBlock)
    requires b in m && (b in dst ==> forall n | n in moves :: moves[n] != b.blockNumber)
    ensures Moved(m, moves, src, dst)[b] == m[b]
  {
  }

  lemma CopiedTo<K>(m: Memory<K>, copies: map<int, seq<int>>, gpu: set<PhysicalTokenBlock>, a: PhysicalTokenBlock, b: PhysicalTokenBlock)
    requires a in gpu && b in gpu && a in m && b in m && CopiesTo(copies, a, b)
    requires forall x | x in gpu && x in m && CopiesTo(copies, x, b) :: x == a
    ensures Copied(m, copies, gpu)[b] == m[a]
  {
  }

  lemma NotCopied<K>(m: Memory<K>, copies: map<int, seq<int>>, gpu: set<PhysicalTokenBlock>, b: PhysicalTokenBlock)
    requires b in m && forall x | x in gpu && x in m :: b in gpu ==> !CopiesTo(copies, x, b)
    ensures Copied(m, copies, gpu)[b] == m[b]
  {
  }

  // ---- the dictionary of copies -------------------------------------------------------------------------------

  /** The last block of the table of `s` has been replaced. */
  ghost predicate Replaced(s: Sequence, before: map<int, BlockTable>, after: map<int, BlockTable>) {
    && s.id in before && s.id in after && before[s.id] != [] && |after[s.id]| == |before[s.id]|
    && Last(after[s.id]) != Last(before[s.id])
  }

  /** The dictionary has the pair `n`, `m` just for a replaced last block. */
  lemma {:induction false} CopiesFrom(live: seq<Sequence>, before: map<int, BlockTable>, after: map<int, BlockTable>, n: int, m: int)
    ensures var copies := CopiesMade(map[], live, before, after);
      n in copies && m in copies[n] <==>
      exists s | s in live ::
        Replaced(s, before, after) && Last(before[s.id]).blockNumber == n && Last(after[s.id]).blockNumber == m
  {
    if live == [] {
    } else {
      hide Merge, CopyOf;
      var front, s := live[..|live| - 1], Last(live);
      CopiesFrom(front, before, after, n, m);
      var earlier := CopiesMade(map[], front, before, after);
      var one := if s.id in before && s.id in after then CopyOf(before[s.id], after[s.id]) else map[];
      MergeHas(earlier, one, n, m);
      OneCopy(s, before, after, n, m);
      assert forall p :: p in live <==> p in front || p == s;
    }
  }

  lemma MergeHas(a: map<int, seq<int>>, b: map<int, seq<int>>, n: int, m: int)
    ensures var c := Merge(a, b); n in c && m in c[n] <==> (n in a && m in a[n]) || (n in b && m in b[n])
  {
  }

  lemma OneCopy(s: Sequence, before: map<int, BlockTable>, after: map<int, BlockTable>, n: int, m: int)
    ensures var one := if s.id in before && s.id in after then CopyOf(before[s.id], after[s.id]) else map[];
      n in one && m in one[n] <==>
      Replaced(s, before, after) && Last(before[s.id]).blockNumber == n && Last(after[s.id]).blockNumber == m
  {
  }

  // ---- a step -------------------------------------------------------------------------------------------------

  ghost predicate Located(live: seq<Sequence>, tables: map<int, BlockTable>, device: set<PhysicalTokenBlock>) {
    forall s | s in live && s.id in tables :: LiesIn(tables[s.id], device)
  }

  ghost predicate OwnedBy(live: seq<Sequence>, requests: set<int>, owner: map<int, int>) {
    forall s | s in live :: s.id in owner && owner[s.id] in requests
  }

  /** No other sequences of these requests have a table. */
  ghost predicate AllOf(live: seq<Sequence>, requests: set<int>, tables: map<int, BlockTable>, owner: map<int, int>) {
    forall id | id in tables && id in owner && owner[id] in requests :: exists s | s in live :: s.id == id
  }

  /** Where the tables of the groups of a step lie before and after it. */
  ghost predicate Situated(start: map<int, BlockTable>, now: map<int, BlockTable>, kept: seq<SequenceGroup>, victims: seq<SequenceGroup>,
                         returned: seq<SequenceGroup>, owner: map<int, int>, gpu: set<PhysicalTokenBlock>, cpu: set<PhysicalTokenBlock>)
  {
    && gpu !! cpu && NumberedOn(gpu) && NumberedOn(cpu)
    && WellFormed(start, gpu, cpu) && WellFormed(now, gpu, cpu) && Housing(now, owner)
    && RequestIds(kept) !! RequestIds(victims) && RequestIds(kept) !! RequestIds(returned) && RequestIds(victims) !! RequestIds(returned)
    && Located(LiveOf(kept), start, gpu) && Located(LiveOf(kept), now, gpu)
    && Located(SwappedMembers(victims), start, gpu) && Located(SwappedMembers(victims), now, cpu)
    && Located(LiveOf(returned), start, cpu) && Located(LiveOf(returned), now, gpu)
    && OwnedBy(LiveOf(kept), RequestIds(kept), owner) && OwnedBy(SwappedMembers(victims), RequestIds(victims), owner)
    && OwnedBy(LiveOf(returned), RequestIds(returned), owner)
    && AllOf(LiveOf(kept), RequestIds(kept), now, owner) && AllOf(SwappedMembers(victims), RequestIds(victims), now, owner)
    && AllOf(LiveOf(returned), RequestIds(returned), now, owner)
  }

  /** Every entry of a pending move ends in a table of the sequences that move. */
  lemma MoveTarget(moves: map<int, int>, live: seq<Sequence>, start: map<int, BlockTable>, now: map<int, BlockTable>,
                   dst: set<PhysicalTokenBlock>, n: int, b: PhysicalTokenBlock) returns (s: Sequence)
    requires BecameAll(moves, live, start, now) && Located(live, now, dst) && NumberedOn(dst)
    requires n in moves && moves[n] == b.blockNumber && b in dst
    ensures s in live && s.id in now && b in now[s.id]
  {
    assert Became(n, moves[n], live, start, now);
    var p, i: nat :| p in live && p.id in start && p.id in now && i < |start[p.id]| && i < |now[p.id]|
      && start[p.id][i].blockNumber == n && now[p.id][i].blockNumber == moves[n];
    assert now[p.id][i] in now[p.id];
    s := p;
  }

  /** Sequences of different requests share no block. */
  lemma BlocksDiffer(tables: map<int, BlockTable>, owner: map<int, int>, p: int, q: int, b: PhysicalTokenBlock)
    requires Housing(tables, owner) && p in tables && q in tables && b in tables[p] && b in tables[q]
    ensures owner[p] == owner[q]
  {
  }

  /** No block of a sequence of another request is the target of a move. */
  lemma NotTarget(moves: map<int, int>, live: seq<Sequence>, requests: set<int>, start: map<int, BlockTable>, now: map<int, BlockTable>,
                  owner: map<int, int>, dst: set<PhysicalTokenBlock>, id: int, b: PhysicalTokenBlock)
    requires BecameAll(moves, live, start, now) && Located(live, now, dst) && NumberedOn(dst) && OwnedBy(live, requests, owner)
    requires Housing(now, owner) && id in now && b in now[id] && owner[id] !in requests && b in dst
    ensures forall n | n in moves :: moves[n] != b.blockNumber
  {
    forall n | n in moves ensures moves[n] != b.blockNumber {
      if moves[n] == b.blockNumber {
        var s := MoveTarget(moves, live, start, now, dst, n, b);
        BlocksDiffer(now, owner, s.id, id, b);
      }
    }
  }

  /** A copy goes from the old to the new last block of a sequence that has grown. */
  lemma CopyIs(live: seq<Sequence>, start: map<int, BlockTable>, now: map<int, BlockTable>, gpu: set<PhysicalTokenBlock>,
               x: PhysicalTokenBlock, b: PhysicalTokenBlock) returns (s: Sequence)
    requires Located(live, start, gpu) && Located(live, now, gpu) && NumberedOn(gpu) && x in gpu && b in gpu
    requires CopiesTo(CopiesMade(map[], live, start, now), x, b)
    ensures s in live && Replaced(s, start, now) && Last(start[s.id]) == x && Last(now[s.id]) == b
  {
    CopiesFrom(live, start, now, x.blockNumber, b.blockNumber);
    var p :| p in live && Replaced(p, start, now)
      && Last(start[p.id]).blockNumber == x.blockNumber && Last(now[p.id]).blockNumber == b.blockNumber;
    assert Last(start[p.id]) in start[p.id] && Last(now[p.id]) in now[p.id];
    s := p;
  }

  /** The members of the groups that go on have grown. */
  lemma GrownMember(kept: seq<SequenceGroup>, start: map<int, BlockTable>, now: map<int, BlockTable>, s: Sequence)
    requires WellGrown(kept, start, now) && s in LiveOf(kept)
    ensures s.id in start && s.id in now && Grew(start[s.id], now[s.id]) && Writable(now, s.id)
  {
    LiveMembers(kept, s);
  }

  lemma {:induction false} LiveMembers(groups: seq<SequenceGroup>, s: Sequence)
    ensures s in LiveOf(groups) <==> exists g | g in groups :: s in Unfinished(g.seqs)
  {
    if groups != [] {
      LiveMembers(groups[..|groups| - 1], s);
      assert forall g :: g in groups <==> g in groups[..|groups| - 1] || g == Last(groups);
    }
  }

  /** No block of another sequence is the target of a copy. */
  lemma NotCopyTarget(kept: seq<SequenceGroup>, start: map<int, BlockTable>, now: map<int, BlockTable>, gpu: set<PhysicalTokenBlock>,
                      id: int, b: PhysicalTokenBlock, x: PhysicalTokenBlock)
    requires Located(LiveOf(kept), start, gpu) && Located(LiveOf(kept), now, gpu) && NumberedOn(gpu)
    requires WellGrown(kept, start, now) && x in gpu && b in gpu && id in now && b in now[id]
    requires CopiesTo(CopiesMade(map[], LiveOf(kept), start, now), x, b)
    ensures id in start && start[id] != [] && |start[id]| == |now[id]| && Last(now[id]) == b != Last(start[id]) && Last(start[id]) == x
  {
    var s := CopyIs(LiveOf(kept), start, now, gpu, x, b);
    GrownMember(kept, start, now, s);
    assert id in Holders(now, b);
  }

  /** What `Sends` says of the moves. */
  lemma SendsIs(moves: map<int, int>, live: seq<Sequence>, start: map<int, BlockTable>, now: map<int, BlockTable>)
    requires Sends(moves, live, start, now)
    ensures BecameAll(moves, live, start, now) && Injective(moves)
    ensures forall s | s in live :: s.id in start && s.id in now && |start[s.id]| <= |now[s.id]|
  {
  }

  lemma SendsAt(moves: map<int, int>, live: seq<Sequence>, start: map<int, BlockTable>, now: map<int, BlockTable>, s: Sequence, i: nat)
    requires Sends(moves, live, start, now) && s in live && s.id in start && i < |start[s.id]|
    ensures s.id in now && i < |now[s.id]| && Goes(moves, start[s.id][i], now[s.id][i])
  {
  }

  /** Swaps leave a block of another request alone. */
  lemma SwapsSpare<K>(m: Memory<K>, swapIn: map<int, int>, swapOut: map<int, int>, start: map<int, BlockTable>, now: map<int, BlockTable>,
                      kept: seq<SequenceGroup>, victims: seq<SequenceGroup>, returned: seq<SequenceGroup>, owner: map<int, int>,
                      gpu: set<PhysicalTokenBlock>, cpu: set<PhysicalTokenBlock>, id: int, b: PhysicalTokenBlock)
    requires Situated(start, now, kept, victims, returned, owner, gpu, cpu)
    requires Sends(swapIn, LiveOf(returned), start, now) && Sends(swapOut, SwappedMembers(victims), start, now)
    requires id in now && b in now[id] && owner[id] !in RequestIds(returned) + RequestIds(victims) && b in m
    ensures Moved(Moved(m, swapIn, cpu, gpu), swapOut, gpu, cpu)[b] == m[b]
  {
    hide Sends, Moved, BecameAll, Located, OwnedBy, AllOf, WellFormed, Housing, NumberedOn, Goes;
    SendsIs(swapIn, LiveOf(returned), start, now);
    SendsIs(swapOut, SwappedMembers(victims), start, now);
    if b in gpu {
      NotTarget(swapIn, LiveOf(returned), RequestIds(returned), start, now, owner, gpu, id, b);
    }
    if b in cpu {
      NotTarget(swapOut, SwappedMembers(victims), RequestIds(victims), start, now, owner, cpu, id, b);
    }
    NotMoved(m, swapIn, cpu, gpu, b);
    NotMoved(Moved(m, swapIn, cpu, gpu), swapOut, gpu, cpu, b);
  }

  /** Copies leave a block alone that its sequence has not taken in place of another. */
  lemma CopiesSpare<K>(m: Memory<K>, kept: seq<SequenceGroup>, start: map<int, BlockTable>, now: map<int, BlockTable>,
                       gpu: set<PhysicalTokenBlock>, id: int, b: PhysicalTokenBlock)
    requires Located(LiveOf(kept), start, gpu) && Located(LiveOf(kept), now, gpu) && NumberedOn(gpu) && WellGrown(kept, start, now)
    requires id in now && b in now[id] && b in m
    requires !(id in start && start[id] != [] && |start[id]| == |now[id]| && Last(now[id]) == b != Last(start[id]))
    ensures Copied(m, CopiesMade(map[], LiveOf(kept), start, now), gpu)[b] == m[b]
  {
    hide CopiesTo, CopiesMade, Located, WellGrown, NumberedOn, Copied;
    forall x | x in gpu && x in m ensures b in gpu ==> !CopiesTo(CopiesMade(map[], LiveOf(kept), start, now), x, b) {
      if b in gpu && CopiesTo(CopiesMade(map[], LiveOf(kept), start, now), x, b) {
        NotCopyTarget(kept, start, now, gpu, id, b, x);
      }
    }
    NotCopied(m, CopiesMade(map[], LiveOf(kept), start, now), gpu, b);
  }

  /** Whoever holds a block of a group that goes on held it before. */
  lemma HeldBefore(kept: seq<SequenceGroup>, start: map<int, BlockTable>, now: Ledger<PhysicalTokenBlock>, s: Sequence,
                   b: PhysicalTokenBlock, id: int)
    requires InUse(kept, start, now) && s in LiveOf(kept) && s.id in start && b in start[s.id] && id in now.tables && b in now.tables[id]
    ensures id in start && b in start[id]
  {
    LiveMembers(kept, s);
    assert id in Holders(now.tables, b);
  }

  /** The block that a sequence has given up is not written over before it is copied. */
  lemma OldLastSpared<K>(m: Memory<K>, swapIn: map<int, int>, swapOut: map<int, int>, start: Ledger<PhysicalTokenBlock>,
                         now: Ledger<PhysicalTokenBlock>, kept: seq<SequenceGroup>, victims: seq<SequenceGroup>,
                         returned: seq<SequenceGroup>, owner: map<int, int>, gpu: set<PhysicalTokenBlock>, cpu: set<PhysicalTokenBlock>,
                         s: Sequence, b: PhysicalTokenBlock)
    requires Situated(start.tables, now.tables, kept, victims, returned, owner, gpu, cpu) && b in m
    requires Sends(swapIn, LiveOf(returned), start.tables, now.tables)
    requires InUse(kept, start.tables, now) && s in LiveOf(kept) && s.id in start.tables && b in start.tables[s.id] && b in gpu
    ensures Moved(Moved(m, swapIn, cpu, gpu), swapOut, gpu, cpu)[b] == m[b]
  {
    hide Sends, Moved, AllOf, Housing, NumberedOn, BecameAll, OwnedBy, InUse, WellFormed;
    SendsIs(swapIn, LiveOf(returned), start.tables, now.tables);
    forall n | n in swapIn ensures swapIn[n] != b.blockNumber {
      if swapIn[n] == b.blockNumber {
        var r := MoveTarget(swapIn, LiveOf(returned), start.tables, now.tables, gpu, n, b);
        HeldBefore(kept, start.tables, now, s, b, r.id);
      }
    }
    NotMoved(m, swapIn, cpu, gpu, b);
    NotMoved(Moved(m, swapIn, cpu, gpu), swapOut, gpu, cpu, b);
  }

  lemma NewLastReads<K>(m: Memory<K>, start: map<int, BlockTable>, now: map<int, BlockTable>, kept: seq<SequenceGroup>,
                        gpu: set<PhysicalTokenBlock>, s: Sequence)
    requires Located(LiveOf(kept), start, gpu) && Located(LiveOf(kept), now, gpu) && NumberedOn(gpu) && WellGrown(kept, start, now)
    requires s in LiveOf(kept) && Replaced(s, start, now) && Last(start[s.id]) in m && Last(now[s.id]) in m
    ensures Copied(m, CopiesMade(map[], LiveOf(kept), start, now), gpu)[Last(now[s.id])] == m[Last(start[s.id])]
  {
    hide CopiesMade, WellGrown, NumberedOn, Copied;
    var copies, a, b := CopiesMade(map[], LiveOf(kept), start, now), Last(start[s.id]), Last(now[s.id]);
    assert a in start[s.id] && b in now[s.id];
    CopiesFrom(LiveOf(kept), start, now, a.blockNumber, b.blockNumber);
    forall x | x in gpu && x in m && CopiesTo(copies, x, b) ensures x == a {
      NotCopyTarget(kept, start, now, gpu, s.id, b, x);
    }
    CopiedTo(m, copies, gpu, a, b);
  }

  lemma KeptPlaced(start: map<int, BlockTable>, now: map<int, BlockTable>, kept: seq<SequenceGroup>, victims: seq<SequenceGroup>,
                   returned: seq<SequenceGroup>, owner: map<int, int>, gpu: set<PhysicalTokenBlock>, cpu: set<PhysicalTokenBlock>,
                   s: Sequence)
    requires Situated(start, now, kept, victims, returned, owner, gpu, cpu) && s in LiveOf(kept) && s.id in start && s.id in now
    ensures NumberedOn(gpu) && Located(LiveOf(kept), start, gpu) && Located(LiveOf(kept), now, gpu)
    ensures Distinct(now[s.id]) && LiesIn(start[s.id], gpu) && LiesIn(now[s.id], gpu)
    ensures s.id in owner && owner[s.id] !in RequestIds(returned) + RequestIds(victims)
  {
    hide AllOf, Housing, NumberedOn, RequestIds;
    assert TableOk(now[s.id], gpu, cpu);
  }

  /** A group that goes on. */
  lemma KeptReads<K>(m: Memory<K>, swapIn: map<int, int>, swapOut: map<int, int>, start: Ledger<PhysicalTokenBlock>,
                     now: Ledger<PhysicalTokenBlock>, kept: seq<SequenceGroup>, victims: seq<SequenceGroup>, returned: seq<SequenceGroup>,
                     owner: map<int, int>, gpu: set<PhysicalTokenBlock>, cpu: set<PhysicalTokenBlock>, s: Sequence, i: nat)
    requires Situated(start.tables, now.tables, kept, victims, returned, owner, gpu, cpu) && m.Keys == gpu + cpu
    requires Sends(swapIn, LiveOf(returned), start.tables, now.tables)
    requires Sends(swapOut, SwappedMembers(victims), start.tables, now.tables)
    requires WellGrown(kept, start.tables, now.tables) && InUse(kept, start.tables, now)
    requires s in LiveOf(kept) && s.id in start.tables && i < |start.tables[s.id]|
    ensures s.id in now.tables && i < |now.tables[s.id]| && now.tables[s.id][i] in gpu && start.tables[s.id][i] in gpu
    ensures Served(m, swapIn, swapOut, CopiesMade(map[], LiveOf(kept), start.tables, now.tables), gpu, cpu)[now.tables[s.id][i]]
            == m[start.tables[s.id][i]]
  {
    hide Situated, Sends, Moved, Located, NumberedOn, WellGrown, InUse, Copied, CopiesMade, Writable, RequestIds, Grew, Distinct;
    GrownMember(kept, start.tables, now.tables, s);
    KeptPlaced(start.tables, now.tables, kept, victims, returned, owner, gpu, cpu, s);
    var t, t' := start.tables[s.id], now.tables[s.id];
    var mid := Moved(Moved(m, swapIn, cpu, gpu), swapOut, gpu, cpu);
    GrewAt(t, t', i);
    assert t[i] in t && t'[i] in t';
    if t'[i] == t[i] {
      SwapsSpare(m, swapIn, swapOut, start.tables, now.tables, kept, victims, returned, owner, gpu, cpu, s.id, t[i]);
      CopiesSpare(mid, kept, start.tables, now.tables, gpu, s.id, t[i]);
    } else {
      OldLastSpared(m, swapIn, swapOut, start, now, kept, victims, returned, owner, gpu, cpu, s, t[i]);
      NewLastReads(mid, start.tables, now.tables, kept, gpu, s);
    }
  }

  /** A place of a table that has grown holds its old block, unless it is the last one and has been replaced. */
  lemma GrewAt(t: BlockTable, t': BlockTable, i: nat)
    requires Grew(t, t') && Distinct(t') && i < |t|
    ensures i < |t'|
    ensures t'[i] == t[i] ==> !(|t| == |t'| && Last(t') == t[i] != Last(t))
    ensures t'[i] != t[i] ==> |t'| == |t| && t[i] == Last(t) && t'[i] == Last(t')
  {
    if |t'| == |t| && i < |t| - 1 {
      assert t'[i] == t'[..|t| - 1][i] == t[..|t| - 1][i];
    }
  }

  /** A group that has gone to the CPU. */
  lemma VictimReads<K>(m: Memory<K>, swapOut: map<int, int>, start: map<int, BlockTable>, now: map<int, BlockTable>,
                       kept: seq<SequenceGroup>, victims: seq<SequenceGroup>, returned: seq<SequenceGroup>,
                       owner: map<int, int>, gpu: set<PhysicalTokenBlock>, cpu: set<PhysicalTokenBlock>, s: Sequence, i: nat)
    requires Situated(start, now, kept, victims, returned, owner, gpu, cpu) && m.Keys == gpu + cpu
    requires Sends(swapOut, SwappedMembers(victims), start, now)
    requires s in SwappedMembers(victims) && s.id in start && i < |start[s.id]|
    ensures s.id in now && i < |now[s.id]| && now[s.id][i] in cpu && start[s.id][i] in gpu
    ensures Served(m, map[], swapOut, CopiesMade(map[], LiveOf(kept), start, now), gpu, cpu)[now[s.id][i]] == m[start[s.id][i]]
  {
    hide Sends, Moved, AllOf, Housing, NumberedOn, Goes, Copied, CopiesMade, CopiesTo, BecameAll, OwnedBy, WellFormed;
    SendsIs(swapOut, SwappedMembers(victims), start, now);
    SendsAt(swapOut, SwappedMembers(victims), start, now, s, i);
    var a, b := start[s.id][i], now[s.id][i];
    assert a in start[s.id] && b in now[s.id];
    NotMoved(m, map[], cpu, gpu, a);
    MovedTo(Moved(m, map[], cpu, gpu), swapOut, gpu, cpu, a, b);
    NotCopied(Moved(Moved(m, map[], cpu, gpu), swapOut, gpu, cpu), CopiesMade(map[], LiveOf(kept), start, now), gpu, b);
  }

  /** A group that has come back. */
  lemma ReturnedReads<K>(m: Memory<K>, swapIn: map<int, int>, start: map<int, BlockTable>, now: map<int, BlockTable>,
                         kept: seq<SequenceGroup>, victims: seq<SequenceGroup>, returned: seq<SequenceGroup>,
                         owner: map<int, int>, gpu: set<PhysicalTokenBlock>, cpu: set<PhysicalTokenBlock>, s: Sequence, i: nat)
    requires Situated(start, now, kept, victims, returned, owner, gpu, cpu) && m.Keys == gpu + cpu && WellGrown(kept, start, now)
    requires Sends(swapIn, LiveOf(returned), start, now)
    requires s in LiveOf(returned) && s.id in start && i < |start[s.id]|
    ensures s.id in now && i < |now[s.id]| && now[s.id][i] in gpu && start[s.id][i] in cpu
    ensures Served(m, swapIn, map[], CopiesMade(map[], LiveOf(kept), start, now), gpu, cpu)[now[s.id][i]] == m[start[s.id][i]]
  {
    hide Sends, Moved, AllOf, Housing, NumberedOn, Goes, Copied, CopiesMade, CopiesTo, BecameAll, WellFormed, WellGrown;
    SendsIs(swapIn, LiveOf(returned), start, now);
    SendsAt(swapIn, LiveOf(returned), start, now, s, i);
    var a, b := start[s.id][i], now[s.id][i];
    assert a in start[s.id] && b in now[s.id];
    MovedTo(m, swapIn, cpu, gpu, a, b);
    NotMoved(Moved(m, swapIn, cpu, gpu), map[], gpu, cpu, b);
    CopiesSpareOther(Moved(Moved(m, swapIn, cpu, gpu), map[], gpu, cpu), kept, RequestIds(kept), start, now, owner, gpu, s.id, b);
  }

  /** Copies leave the blocks of other requests alone. */
  lemma CopiesSpareOther<K>(m: Memory<K>, kept: seq<SequenceGroup>, requests: set<int>, start: map<int, BlockTable>,
                            now: map<int, BlockTable>, owner: map<int, int>, gpu: set<PhysicalTokenBlock>, id: int, b: PhysicalTokenBlock)
    requires Located(LiveOf(kept), start, gpu) && Located(LiveOf(kept), now, gpu) && NumberedOn(gpu)
    requires OwnedBy(LiveOf(kept), requests, owner) && Housing(now, owner)
    requires id in now && b in now[id] && b in m && owner[id] !in requests
    ensures Copied(m, CopiesMade(map[], LiveOf(kept), start, now), gpu)[b] == m[b]
  {
    hide CopiesTo, CopiesMade, Located, NumberedOn, Copied, Housing;
    forall x | x in gpu && x in m ensures b in gpu ==> !CopiesTo(CopiesMade(map[], LiveOf(kept), start, now), x, b) {
      if b in gpu && CopiesTo(CopiesMade(map[], LiveOf(kept), start, now), x, b) {
        var s := CopyIs(LiveOf(kept), start, now, gpu, x, b);
        assert b in now[s.id];
        BlocksDiffer(now, owner, s.id, id, b);
      }
    }
    NotCopied(m, CopiesMade(map[], LiveOf(kept), start, now), gpu, b);
  }

  /** A sequence whose request the step does not touch. */
  lemma OtherReads<K>(m: Memory<K>, swapIn: map<int, int>, swapOut: map<int, int>, start: map<int, BlockTable>, now: map<int, BlockTable>,
                      kept: seq<SequenceGroup>, victims: seq<SequenceGroup>, returned: seq<SequenceGroup>,
                      owner: map<int, int>, gpu: set<PhysicalTokenBlock>, cpu: set<PhysicalTokenBlock>, id: int, b: PhysicalTokenBlock)
    requires Situated(start, now, kept, victims, returned, owner, gpu, cpu) && b in m
    requires Sends(swapIn, LiveOf(returned), start, now) && Sends(swapOut, SwappedMembers(victims), start, now)
    requires id in now && b in now[id] && owner[id] !in RequestIds(kept) + RequestIds(victims) + RequestIds(returned)
    ensures Served(m, swapIn, swapOut, CopiesMade(map[], LiveOf(kept), start, now), gpu, cpu)[b] == m[b]
  {
    hide Sends, Moved, AllOf, NumberedOn, Copied, CopiesMade, Located, WellFormed, Housing, OwnedBy;
    SwapsSpare(m, swapIn, swapOut, start, now, kept, victims, returned, owner, gpu, cpu, id, b);
    CopiesSpareOther(Moved(Moved(m, swapIn, cpu, gpu), swapOut, gpu, cpu), kept, RequestIds(kept), start, now, owner, gpu, id, b);
  }

  // ---- every table, and the writes ------------------------------------------------------------------------------

  /** What a decoding step leaves in the cache, with every dictionary as `Schedule` returns it. */
  ghost predicate Stepped(start: Ledger<PhysicalTokenBlock>, now: Ledger<PhysicalTokenBlock>, kept: seq<SequenceGroup>,
                          victims: seq<SequenceGroup>, returned: seq<SequenceGroup>, swapIn: map<int, int>, swapOut: map<int, int>,
                          copies: map<int, seq<int>>, owner: map<int, int>, gpu: set<PhysicalTokenBlock>, cpu: set<PhysicalTokenBlock>)
  {
    && Situated(start.tables, now.tables, kept, victims, returned, owner, gpu, cpu)
    && StepDone(start, now, kept, victims, returned, swapIn, swapOut, copies, owner)
    && (swapIn == map[] || swapOut == map[])
  }

  lemma MemberOf(live: seq<Sequence>, requests: set<int>, tables: map<int, BlockTable>, owner: map<int, int>, id: int) returns (s: Sequence)
    requires AllOf(live, requests, tables, owner) && id in tables && id in owner && owner[id] in requests
    ensures s in live && s.id == id
  {
    s :| s in live && s.id == id;
  }

  lemma OthersSame(requests: set<int>, owner: map<int, int>, start: map<int, BlockTable>, now: map<int, BlockTable>, id: int)
    requires Untouched(requests, owner, start, now) && id in now && id in owner && owner[id] !in requests
    ensures id in start && now[id] == start[id]
  {
  }

  /** Every table has a forerunner, whose entries it extends. */
  lemma HadTable(start: Ledger<PhysicalTokenBlock>, now: Ledger<PhysicalTokenBlock>, kept: seq<SequenceGroup>,
                 victims: seq<SequenceGroup>, returned: seq<SequenceGroup>, swapIn: map<int, int>, swapOut: map<int, int>,
                 copies: map<int, seq<int>>, owner: map<int, int>, gpu: set<PhysicalTokenBlock>, cpu: set<PhysicalTokenBlock>, id: int)
    requires Stepped(start, now, kept, victims, returned, swapIn, swapOut, copies, owner, gpu, cpu) && id in now.tables
    ensures id in owner && id in start.tables && |start.tables[id]| <= |now.tables[id]|
    ensures owner[id] !in RequestIds(kept) + RequestIds(returned) ==> |now.tables[id]| == |start.tables[id]|
  {
    hide Sends, AllOf, Located, OwnedBy, WellFormed, NumberedOn, InUse, ReturnedWritable, Untouched, WellGrown, Unshared, RequestIds;
    if owner[id] in RequestIds(kept) {
      var s := MemberOf(LiveOf(kept), RequestIds(kept), now.tables, owner, id);
      GrownMember(kept, start.tables, now.tables, s);
    } else if owner[id] in RequestIds(victims) {
      var s := MemberOf(SwappedMembers(victims), RequestIds(victims), now.tables, owner, id);
      SendsIs(swapOut, SwappedMembers(victims), start.tables, now.tables);
    } else if owner[id] in RequestIds(returned) {
      var s := MemberOf(LiveOf(returned), RequestIds(returned), now.tables, owner, id);
      SendsIs(swapIn, LiveOf(returned), start.tables, now.tables);
    } else {
      OthersSame(RequestIds(kept) + RequestIds(victims) + RequestIds(returned), owner, start.tables, now.tables, id);
    }
  }

  /** Every sequence reads through its new table what it read through its old one. */
  lemma StepReads<K>(m: Memory<K>, start: Ledger<PhysicalTokenBlock>, now: Ledger<PhysicalTokenBlock>, kept: seq<SequenceGroup>,
                     victims: seq<SequenceGroup>, returned: seq<SequenceGroup>, swapIn: map<int, int>, swapOut: map<int, int>,
                     copies: map<int, seq<int>>, owner: map<int, int>, gpu: set<PhysicalTokenBlock>, cpu: set<PhysicalTokenBlock>,
                     id: int, i: nat)
    requires Stepped(start, now, kept, victims, returned, swapIn, swapOut, copies, owner, gpu, cpu) && m.Keys == gpu + cpu
    requires id in now.tables && id in start.tables && i < |start.tables[id]|
    ensures i < |now.tables[id]| && start.tables[id][i] in m && now.tables[id][i] in m
    ensures Served(m, swapIn, swapOut, copies, gpu, cpu)[now.tables[id][i]] == m[start.tables[id][i]]
  {
    hide Sends, AllOf, Located, OwnedBy, NumberedOn, InUse, ReturnedWritable, Untouched, WellGrown, Unshared, RequestIds, Served;
    hide CopiesMade;
    HadTable(start, now, kept, victims, returned, swapIn, swapOut, copies, owner, gpu, cpu, id);
    assert TableOk(start.tables[id], gpu, cpu) && TableOk(now.tables[id], gpu, cpu);
    assert start.tables[id][i] in start.tables[id] && now.tables[id][i] in now.tables[id];
    if owner[id] in RequestIds(kept) {
      var s := MemberOf(LiveOf(kept), RequestIds(kept), now.tables, owner, id);
      KeptReads(m, swapIn, swapOut, start, now, kept, victims, returned, owner, gpu, cpu, s, i);
    } else if owner[id] in RequestIds(victims) {
      var s := MemberOf(SwappedMembers(victims), RequestIds(victims), now.tables, owner, id);
      SendsAt(swapOut, SwappedMembers(victims), start.tables, now.tables, s, i);
      VictimReads(m, swapOut, start.tables, now.tables, kept, victims, returned, owner, gpu, cpu, s, i);
    } else if owner[id] in RequestIds(returned) {
      var s := MemberOf(LiveOf(returned), RequestIds(returned), now.tables, owner, id);
      SendsAt(swapIn, LiveOf(returned), start.tables, now.tables, s, i);
      ReturnedReads(m, swapIn, start.tables, now.tables, kept, victims, returned, owner, gpu, cpu, s, i);
    } else {
      OthersSame(RequestIds(kept) + RequestIds(victims) + RequestIds(returned), owner, start.tables, now.tables, id);
      OtherReads(m, swapIn, swapOut, start.tables, now.tables, kept, victims, returned, owner, gpu, cpu, id, now.tables[id][i]);
    }
  }

  /** So every list of entries shows after the transfers as it did before them. */
  lemma StepShows<K>(m: Memory<K>, start: Ledger<PhysicalTokenBlock>, now: Ledger<PhysicalTokenBlock>, kept: seq<SequenceGroup>,
                     victims: seq<SequenceGroup>, returned: seq<SequenceGroup>, swapIn: map<int, int>, swapOut: map<int, int>,
                     copies: map<int, seq<int>>, owner: map<int, int>, gpu: set<PhysicalTokenBlock>, cpu: set<PhysicalTokenBlock>,
                     id: int, blockSize: nat, kv: seq<K>)
    requires Stepped(start, now, kept, victims, returned, swapIn, swapOut, copies, owner, gpu, cpu) && m.Keys == gpu + cpu
    requires id in now.tables && blockSize > 0
    ensures id in start.tables
    ensures KvRefinement.Shows(m, start.tables[id], blockSize, kv) ==>
      KvRefinement.Shows(Served(m, swapIn, swapOut, copies, gpu, cpu), now.tables[id], blockSize, kv)
  {
    hide Stepped, Served, KvRefinement.Shows;
    HadTable(start, now, kept, victims, returned, swapIn, swapOut, copies, owner, gpu, cpu, id);
    if KvRefinement.Shows(m, start.tables[id], blockSize, kv) {
      forall i | 0 <= i < |start.tables[id]|
        ensures start.tables[id][i] in m && now.tables[id][i] in m
        ensures Served(m, swapIn, swapOut, copies, gpu, cpu)[now.tables[id][i]] == m[start.tables[id][i]]
      {
        StepReads(m, start, now, kept, victims, returned, swapIn, swapOut, copies, owner, gpu, cpu, id, i);
      }
      KvRefinement.ShowsVia(m, Served(m, swapIn, swapOut, copies, gpu, cpu), start.tables[id], now.tables[id], blockSize, kv);
    }
  }

  /** A block that has been replaced is not among the others. */
  lemma NotTwice(t: BlockTable, t': BlockTable, k: nat)
    requires |t| == |t'| > 0 && t'[..|t| - 1] == t[..|t| - 1] && Distinct(t') && Last(t') != Last(t) && k < |t|
    ensures t[k] != Last(t')
  {
    if k < |t| - 1 {
      assert t'[k] == t'[..|t| - 1][k] == t[..|t| - 1][k];
    }
  }

  /** Copies go to different blocks, and no block that is copied from is copied to: their order does not matter. */
  lemma CopiesApart(start: Ledger<PhysicalTokenBlock>, now: Ledger<PhysicalTokenBlock>, kept: seq<SequenceGroup>,
                    victims: seq<SequenceGroup>, returned: seq<SequenceGroup>, swapIn: map<int, int>, swapOut: map<int, int>,
                    copies: map<int, seq<int>>, owner: map<int, int>, gpu: set<PhysicalTokenBlock>, cpu: set<PhysicalTokenBlock>,
                    a: PhysicalTokenBlock, b: PhysicalTokenBlock, c: PhysicalTokenBlock)
    requires Stepped(start, now, kept, victims, returned, swapIn, swapOut, copies, owner, gpu, cpu)
    requires a in gpu && b in gpu && c in gpu && CopiesTo(copies, a, c)
    ensures CopiesTo(copies, b, c) ==> a == b
    ensures !CopiesTo(copies, c, b)
  {
    hide Sends, AllOf, OwnedBy, InUse, ReturnedWritable, Untouched, WellGrown, Unshared, RequestIds, CopiesMade, CopiesTo;
    hide NumberedOn, Located;
    var live := LiveOf(kept);
    var s := CopyIs(live, start.tables, now.tables, gpu, a, c);
    assert c in now.tables[s.id];
    if CopiesTo(copies, b, c) {
      NotCopyTarget(kept, start.tables, now.tables, gpu, s.id, c, b);
    }
    if CopiesTo(copies, c, b) {
      var r := CopyIs(live, start.tables, now.tables, gpu, c, b);
      assert c in start.tables[r.id];
      HeldBefore(kept, start.tables, now, r, c, s.id);
      GrownMember(kept, start.tables, now.tables, s);
      assert TableOk(now.tables[s.id], gpu, cpu);
      var t, t' := start.tables[s.id], now.tables[s.id];
      assert t'[..|t| - 1] == t[..|t| - 1];
      var k :| 0 <= k < |t| && t[k] == c;
      NotTwice(t, t', k);
    }
  }

  /** The pairs that `copy_blocks` makes of the dictionary (csrc/cpu/cache.cpp:93-99). */
  ghost function PairsOf(copies: map<int, seq<int>>): set<KvCache.Copy> {
    set n, m | n in copies && m in copies[n] && n >= 0 && m >= 0 :: KvCache.Copy(n, m)
  }

  lemma CopyHasBlocks(start: Ledger<PhysicalTokenBlock>, now: Ledger<PhysicalTokenBlock>, kept: seq<SequenceGroup>,
                      victims: seq<SequenceGroup>, returned: seq<SequenceGroup>, swapIn: map<int, int>, swapOut: map<int, int>,
                      copies: map<int, seq<int>>, owner: map<int, int>, gpu: set<PhysicalTokenBlock>, cpu: set<PhysicalTokenBlock>,
                      n: int, m: int) returns (a: PhysicalTokenBlock, b: PhysicalTokenBlock)
    requires Stepped(start, now, kept, victims, returned, swapIn, swapOut, copies, owner, gpu, cpu) && n in copies && m in copies[n]
    ensures a in gpu && b in gpu && a.blockNumber == n && b.blockNumber == m && CopiesTo(copies, a, b)
  {
    hide Sends, AllOf, OwnedBy, InUse, ReturnedWritable, Untouched, WellGrown, Unshared, RequestIds, CopiesMade, NumberedOn, WellFormed;
    CopiesFrom(LiveOf(kept), start.tables, now.tables, n, m);
    var s :| s in LiveOf(kept) && Replaced(s, start.tables, now.tables)
      && Last(start.tables[s.id]).blockNumber == n && Last(now.tables[s.id]).blockNumber == m;
    a, b := Last(start.tables[s.id]), Last(now.tables[s.id]);
    assert a in start.tables[s.id] && b in now.tables[s.id];
  }

  /** The pairs meet what the copy kernel needs to copy them in any order. */
  lemma CopiesMeetKernel(start: Ledger<PhysicalTokenBlock>, now: Ledger<PhysicalTokenBlock>, kept: seq<SequenceGroup>,
                         victims: seq<SequenceGroup>, returned: seq<SequenceGroup>, swapIn: map<int, int>, swapOut: map<int, int>,
                         copies: map<int, seq<int>>, owner: map<int, int>, gpu: set<PhysicalTokenBlock>, cpu: set<PhysicalTokenBlock>,
                         numBlocks: nat)
    requires Stepped(start, now, kept, victims, returned, swapIn, swapOut, copies, owner, gpu, cpu)
    requires forall b | b in gpu :: 0 <= b.blockNumber < numBlocks
    ensures KvCache.CopiesOk(PairsOf(copies), numBlocks)
  {
    hide Stepped, CopiesTo;
    forall p, q | p in PairsOf(copies) && q in PairsOf(copies)
      ensures p.source < numBlocks && p.target < numBlocks && p.target != q.source && (p.target == q.target ==> p == q)
    {
      var a, c := CopyHasBlocks(start, now, kept, victims, returned, swapIn, swapOut, copies, owner, gpu, cpu, p.source, p.target);
      var d, e := CopyHasBlocks(start, now, kept, victims, returned, swapIn, swapOut, copies, owner, gpu, cpu, q.source, q.target);
      SteppedNumbered(start, now, kept, victims, returned, swapIn, swapOut, copies, owner, gpu, cpu);
      CopiesApart(start, now, kept, victims, returned, swapIn, swapOut, copies, owner, gpu, cpu, a, d, c);
      CopiesApart(start, now, kept, victims, returned, swapIn, swapOut, copies, owner, gpu, cpu, a, e, c);
    }
  }

  lemma SteppedNumbered(start: Ledger<PhysicalTokenBlock>, now: Ledger<PhysicalTokenBlock>, kept: seq<SequenceGroup>,
                        victims: seq<SequenceGroup>, returned: seq<SequenceGroup>, swapIn: map<int, int>, swapOut: map<int, int>,
                        copies: map<int, seq<int>>, owner: map<int, int>, gpu: set<PhysicalTokenBlock>, cpu: set<PhysicalTokenBlock>)
    requires Stepped(start, now, kept, victims, returned, swapIn, swapOut, copies, owner, gpu, cpu)
    ensures NumberedOn(gpu)
  {
    hide StepDone, WellFormed, Located, AllOf, OwnedBy;
  }

  ghost predicate RequestsApart(groups: seq<SequenceGroup>) {
    forall i, j | 0 <= i < j < |groups| :: groups[i].requestId != groups[j].requestId
  }

  lemma {:induction false} LiveIdsDistinct(groups: seq<SequenceGroup>, owner: map<int, int>)
    requires RequestsApart(groups) && forall g | g in groups :: Owned(g, owner) && DistinctIds(g.seqs)
    ensures Distinct(Ids(LiveOf(groups)))
    ensures forall id | id in Ids(LiveOf(groups)) :: id in owner && owner[id] in RequestIds(groups)
  {
    if groups != [] {
      hide RequestsApart, Owned, DistinctIds, Unfinished;
      var front, g := groups[..|groups| - 1], Last(groups);
      assert groups == front + [g] && g in groups;
      FrontRequests(groups);
      LiveIdsDistinct(front, owner);
      LiveMemberIds(g, owner);
      IdsConcat(LiveOf(front), Unfinished(g.seqs));
      DistinctConcat(Ids(LiveOf(front)), Ids(Unfinished(g.seqs)));
    }
  }

  lemma FrontRequests(groups: seq<SequenceGroup>)
    requires RequestsApart(groups) && groups != []
    ensures RequestsApart(groups[..|groups| - 1]) && Last(groups).requestId !in RequestIds(groups[..|groups| - 1])
    ensures RequestIds(groups) == RequestIds(groups[..|groups| - 1]) + {Last(groups).requestId}
  {
    assert forall g :: g in groups <==> g in groups[..|groups| - 1] || g == Last(groups);
  }

  lemma LiveMemberIds(g: SequenceGroup, owner: map<int, int>)
    requires Owned(g, owner) && DistinctIds(g.seqs)
    ensures Distinct(Ids(Unfinished(g.seqs)))
    ensures forall id | id in Ids(Unfinished(g.seqs)) :: id in owner && owner[id] == g.requestId
  {
    UnfinishedIsSubsequence(g.seqs);
    UnfinishedDistinct(g.seqs);
    IdsDistinct(Unfinished(g.seqs));
    var live := Unfinished(g.seqs);
    forall id | id in Ids(live) ensures id in owner && owner[id] == g.requestId {
      var k :| 0 <= k < |live| && Ids(live)[k] == id;
      assert live[k] in live;
    }
  }

  lemma IdsConcat(a: seq<Sequence>, b: seq<Sequence>)
    ensures Ids(a + b) == Ids(a) + Ids(b)
  {
  }

  lemma DistinctConcat<B>(a: seq<B>, b: seq<B>)
    requires Distinct(a) && Distinct(b) && forall x | x in a :: x !in b
    ensures Distinct(a + b)
  {
    var ab := a + b;
    forall i, j | 0 <= i < j < |ab| ensures ab[i] != ab[j] {
      if i < |a| <= j {
        assert ab[i] in a && ab[j] == b[j - |a|] && b[j - |a|] in b;
      }
    }
  }

  /** The sequences that a decoding step runs. */
  ghost function RunIds(kept: seq<SequenceGroup>, returned: seq<SequenceGroup>): seq<int> {
    Ids(LiveOf(kept) + LiveOf(returned))
  }

  /** After a decoding step: the tables are `now`, the worker has moved memory, and each sequence that ran has written one entry. */
  ghost function AfterDecode<K>(s: KvRefinement.System<PhysicalTokenBlock, K>, now: Ledger<PhysicalTokenBlock>, ids: seq<int>,
                                swapIn: map<int, int>, swapOut: map<int, int>, copies: map<int, seq<int>>,
                                entries: map<int, K>): KvRefinement.System<PhysicalTokenBlock, K>
  {
    var moved := Served(s.memory, swapIn, swapOut, copies, s.gpu, s.cpu);
    KvRefinement.System(s.gpu, s.cpu, s.blockSize, now,
                        KvRefinement.Written(moved, now.tables, s.blockSize, s.kv, entries, ids),
                        map id | id in now.tables && id in s.kv :: KvRefinement.Extended(s.kv[id], id, entries, ids))
  }

  /** The sequences that ran are those of the groups that go on or return. */
  lemma RunningIs(start: Ledger<PhysicalTokenBlock>, now: Ledger<PhysicalTokenBlock>, kept: seq<SequenceGroup>,
                  victims: seq<SequenceGroup>, returned: seq<SequenceGroup>, swapIn: map<int, int>, swapOut: map<int, int>,
                  copies: map<int, seq<int>>, owner: map<int, int>, gpu: set<PhysicalTokenBlock>, cpu: set<PhysicalTokenBlock>, id: int)
    requires Stepped(start, now, kept, victims, returned, swapIn, swapOut, copies, owner, gpu, cpu) && id in now.tables
    ensures id in owner && (id in RunIds(kept, returned) <==> owner[id] in RequestIds(kept) + RequestIds(returned))
    ensures id in RunIds(kept, returned) ==> Writable(now.tables, id)
  {
    hide Sends, Located, WellFormed, NumberedOn, InUse, Untouched, WellGrown, Unshared, RequestIds, CopiesMade;
    IdsConcat(LiveOf(kept), LiveOf(returned));
    if id in Ids(LiveOf(kept)) {
      var s := WithId(LiveOf(kept), id);
      GrownMember(kept, start.tables, now.tables, s);
    } else if owner[id] in RequestIds(kept) {
      var s := MemberOf(LiveOf(kept), RequestIds(kept), now.tables, owner, id);
      IdIn(LiveOf(kept), s);
    }
    if id in Ids(LiveOf(returned)) {
      var s := WithId(LiveOf(returned), id);
      ReturnedMember(returned, now.tables, s);
    } else if owner[id] in RequestIds(returned) {
      var s := MemberOf(LiveOf(returned), RequestIds(returned), now.tables, owner, id);
      IdIn(LiveOf(returned), s);
    }
  }

  lemma WithId(live: seq<Sequence>, id: int) returns (s: Sequence)
    requires id in Ids(live)
    ensures s in live && s.id == id
  {
    var k :| 0 <= k < |live| && Ids(live)[k] == id;
    s := live[k];
  }

  lemma IdIn(live: seq<Sequence>, s: Sequence)
    requires s in live
    ensures s.id in Ids(live)
  {
    var k :| 0 <= k < |live| && live[k] == s;
    assert Ids(live)[k] == s.id;
  }

  lemma ReturnedMember(returned: seq<SequenceGroup>, tables: map<int, BlockTable>, s: Sequence)
    requires ReturnedWritable(returned, tables) && s in LiveOf(returned)
    ensures Writable(tables, s.id)
  {
    LiveMembers(returned, s);
    var g :| g in returned && s in Unfinished(g.seqs);
    IdIn(Unfinished(g.seqs), s);
  }

  /** A decoding step of the scheduler, its dictionaries carried out by the worker and one entry written for each running
      sequence, keeps every sequence's view of the cache the list of the entries computed for it. */
  lemma DecodeServes<K>(s: KvRefinement.System<PhysicalTokenBlock, K>, now: Ledger<PhysicalTokenBlock>, kept: seq<SequenceGroup>,
                        victims: seq<SequenceGroup>, returned: seq<SequenceGroup>, swapIn: map<int, int>, swapOut: map<int, int>,
                        copies: map<int, seq<int>>, owner: map<int, int>, entries: map<int, K>)
    requires KvRefinement.Refines(s) && Sound(now, s.gpu, s.cpu)
    requires Stepped(s.ledger, now, kept, victims, returned, swapIn, swapOut, copies, owner, s.gpu, s.cpu)
    requires Distinct(RunIds(kept, returned))
    requires forall id | id in RunIds(kept, returned) ::
      id in entries && id in now.tables && id in s.kv && |now.tables[id]| == |s.kv[id]| / s.blockSize + 1
    ensures KvRefinement.Refines(AfterDecode(s, now, RunIds(kept, returned), swapIn, swapOut, copies, entries))
    ensures forall id | id in now.tables :: id in s.ledger.tables && id in s.kv
  {
    hide Stepped, Served, KvRefinement.Shows, RunIds, Covered, WellFormed, Holders, KvRefinement.Written;
    var ids, moved, t := RunIds(kept, returned), Served(s.memory, swapIn, swapOut, copies, s.gpu, s.cpu), now.tables;
    forall id | id in t
      ensures id in s.kv && KvRefinement.Shows(moved, t[id], s.blockSize, s.kv[id])
      ensures |t[id]| == NumBlocks(|s.kv[id]| + if id in ids then 1 else 0, s.blockSize)
      ensures id in ids ==> Holders(t, Last(t[id])) == {id}
    {
      HadTable(s.ledger, now, kept, victims, returned, swapIn, swapOut, copies, owner, s.gpu, s.cpu, id);
      StepShows(s.memory, s.ledger, now, kept, victims, returned, swapIn, swapOut, copies, owner, s.gpu, s.cpu, id, s.blockSize,
                s.kv[id]);
      RunningIs(s.ledger, now, kept, victims, returned, swapIn, swapOut, copies, owner, s.gpu, s.cpu, id);
      KvRefinement.BlockCountGrows(|s.kv[id]|, s.blockSize);
    }
    ServedShape(s.memory, swapIn, swapOut, copies, s.gpu, s.cpu, s.blockSize);
    TablesFit(now, s.gpu, s.cpu);
    KvRefinement.WritesShow(moved, t, s.gpu + s.cpu, s.blockSize, s.kv, entries, ids);
  }

  lemma ServedShape<K>(m: Memory<K>, swapIn: map<int, int>, swapOut: map<int, int>, copies: map<int, seq<int>>,
                       gpu: set<PhysicalTokenBlock>, cpu: set<PhysicalTokenBlock>, blockSize: nat)
    requires KvRefinement.Shaped(m, gpu + cpu, blockSize)
    ensures KvRefinement.Shaped(Served(m, swapIn, swapOut, copies, gpu, cpu), gpu + cpu, blockSize)
  {
    hide Goes, CopiesTo;
    MovedShape(m, swapIn, cpu, gpu, blockSize);
    MovedShape(Moved(m, swapIn, cpu, gpu), swapOut, gpu, cpu, blockSize);
    CopiedShape(Moved(Moved(m, swapIn, cpu, gpu), swapOut, gpu, cpu), copies, gpu, blockSize);
  }

  lemma MovedShape<K>(m: Memory<K>, moves: map<int, int>, src: set<PhysicalTokenBlock>, dst: set<PhysicalTokenBlock>, blockSize: nat)
    requires KvRefinement.Shaped(m, m.Keys, blockSize)
    ensures KvRefinement.Shaped(Moved(m, moves, src, dst), m.Keys, blockSize)
  {
  }

  lemma CopiedShape<K>(m: Memory<K>, copies: map<int, seq<int>>, gpu: set<PhysicalTokenBlock>, blockSize: nat)
    requires KvRefinement.Shaped(m, m.Keys, blockSize)
    ensures KvRefinement.Shaped(Copied(m, copies, gpu), m.Keys, blockSize)
  {
  }

  lemma TablesFit(l: Ledger<PhysicalTokenBlock>, gpu: set<PhysicalTokenBlock>, cpu: set<PhysicalTokenBlock>)
    requires Sound(l, gpu, cpu)
    ensures forall id | id in l.tables :: Distinct(l.tables[id]) && forall b | b in l.tables[id] :: b in gpu + cpu
  {
    hide Covered;
    forall id | id in l.tables ensures Distinct(l.tables[id]) && forall b | b in l.tables[id] :: b in gpu + cpu {
      assert TableOk(l.tables[id], gpu, cpu);
    }
  }
}
