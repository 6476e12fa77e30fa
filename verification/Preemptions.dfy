/** Who is preempted in a step: the turns of the running queue, told from the state before it. */
module Preemptions {
  import opened Blocks
  import opened Paging
  import opened Sequences
  import opened GroupStates
  import opened Rosters
  import opened Queues
  import opened Transfers
  import opened Forecasts
  import Policy

  // ---- blocks that slots take ---------------------------------------------------------------------------------

  /** The blocks that slots for the members `live` take: one for each table that is full, and one for each shared last block,
      as often as it is still counted more than once. */
  ghost function Takes<B>(tables: map<int, seq<B>>, refs: map<B, int>, live: seq<Sequence>, blockSize: nat): nat
    requires blockSize > 0
  {
    if live == [] then 0
    else if live[0].id !in tables then Takes(tables, refs, live[1..], blockSize)
    else
      var t := tables[live[0].id];
      if |t| < NumBlocks(|live[0].tokens|, blockSize) then 1 + Takes(tables, refs, live[1..], blockSize)
      else if t == [] || Last(t) !in refs || refs[Last(t)] == 1 then Takes(tables, refs, live[1..], blockSize)
      else 1 + Takes(tables, refs[Last(t) := refs[Last(t)] - 1], live[1..], blockSize)
  }

  /** Only the members' tables and the counts of their blocks matter. */
  ghost predicate SameCounts<B>(live: seq<Sequence>, tables: map<int, seq<B>>, refs: map<B, int>, tables': map<int, seq<B>>,
                                refs': map<B, int>)
  {
    && SameOn(live, tables, tables')
    && forall s, b | s in live && s.id in tables && b in tables[s.id] :: (b in refs <==> b in refs') && (b in refs ==> refs'[b] == refs[b])
  }

  lemma {:induction false} TakesSame<B>(live: seq<Sequence>, tables: map<int, seq<B>>, refs: map<B, int>, tables': map<int, seq<B>>,
                                        refs': map<B, int>, blockSize: nat)
    requires blockSize > 0 && SameCounts(live, tables, refs, tables', refs')
    ensures Takes(tables', refs', live, blockSize) == Takes(tables, refs, live, blockSize)
  {
    if live != [] {
      var s, rest := live[0], live[1..];
      assert s in live && forall p | p in rest :: p in live;
      TakesSame(rest, tables, refs, tables', refs', blockSize);
      if s.id in tables && tables[s.id] != [] {
        var b := Last(tables[s.id]);
        assert b in tables[s.id];
        if b in refs {
          TakesSame(rest, tables, refs[b := refs[b] - 1], tables', refs'[b := refs'[b] - 1], blockSize);
        }
      }
    }
  }

  lemma {:induction false} SlotsFirst(m: Memory, s: Sequence, rest: seq<Sequence>, blockSize: nat)
    requires blockSize > 0
    ensures Slots(m, [s] + rest, blockSize) == Slots(Slot(m, s, blockSize), rest, blockSize)
  {
    hide Slot;
    var live := [s] + rest;
    if rest == [] {
      assert live[..0] == [] && Last(live) == s;
    } else {
      SlotsFirst(m, s, rest[..|rest| - 1], blockSize);
      assert live[..|live| - 1] == [s] + rest[..|rest| - 1];
    }
  }

  /** The free blocks of a memory in which the members `live` may append. */
  ghost predicate Spare(m: Memory, live: seq<Sequence>, gpu: set<PhysicalTokenBlock>, cpu: set<PhysicalTokenBlock>) {
    && Sound(m.ledger, gpu, cpu) && Distinct(m.free) && |live| <= |m.free| && DistinctIds(live)
    && (forall b | b in m.free :: b in gpu && b in FreeSet(m.ledger))
    && forall s | s in live :: s.id in m.ledger.tables && LiesIn(m.ledger.tables[s.id], gpu) && s.tokens != []
  }

  /** A member that takes a block leaves the tables of the others, and the counts of their blocks but for its old last one. */
  lemma OthersCounts<B>(l: Ledger<B>, gpu: set<B>, cpu: set<B>, s: Sequence, n: nat, nb: B, rest: seq<Sequence>)
    requires Sound(l, gpu, cpu) && s.id in l.tables && LiesIn(l.tables[s.id], gpu) && nb in gpu && nb in FreeSet(l)
    requires n <= |l.tables[s.id]| ==> l.tables[s.id] != []
    requires n <= |l.tables[s.id]| ==> Last(l.tables[s.id]) in l.refs
    requires NeedsBlock(l, s.id, n) && forall p | p in rest :: p.id != s.id
    ensures var t, l' := l.tables[s.id], Recounted(l, l.tables[s.id := AppendedTable(l, s.id, n, nb)]);
      && Sound(l', gpu, cpu) && l'.tables == l.tables[s.id := AppendedTable(l, s.id, n, nb)]
      && (forall b | b in FreeSet(l) && b != nb :: b in FreeSet(l'))
      && SameCounts(rest, l.tables, if n <= |t| then l.refs[Last(t) := l.refs[Last(t)] - 1] else l.refs, l'.tables, l'.refs)
  {
    hide WellFormed, Covered, LiesIn, Recounted, NeedsBlock, AppendedTable;
    AppendRecounts(l, gpu, cpu, s.id, n, nb);
    FreeBlockHasNoHolder(l, nb);
  }

  lemma SlotStep(m: Memory, s: Sequence, rest: seq<Sequence>, gpu: set<PhysicalTokenBlock>, cpu: set<PhysicalTokenBlock>, blockSize: nat)
    requires blockSize > 0 && Spare(m, [s] + rest, gpu, cpu)
    ensures s.id in m.ledger.tables
    ensures var t := m.ledger.tables[s.id]; t != [] ==> Last(t) in m.ledger.refs
    ensures var m', t, n := Slot(m, s, blockSize), m.ledger.tables[s.id], NumBlocks(|s.tokens|, blockSize);
      && Spare(m', rest, gpu, cpu) && n > 0
      && if n <= |t| && m.ledger.refs[Last(t)] == 1 then m' == m
         else
           && |m'.free| == |m.free| - 1
           && SameCounts(rest, m.ledger.tables,
                         if n <= |t| then m.ledger.refs[Last(t) := m.ledger.refs[Last(t)] - 1] else m.ledger.refs,
                         m'.ledger.tables, m'.ledger.refs)
  {
    hide Recounted, AppendedTable, WellFormed, Covered, FreeSet, LiesIn, SameCounts;
    var l, t, n := m.ledger, m.ledger.tables[s.id], NumBlocks(|s.tokens|, blockSize);
    RestSpare(m, s, rest, gpu, cpu);
    if n <= |t| && l.refs[Last(t)] == 1 {
      return;
    }
    OthersCounts(l, gpu, cpu, s, n, Last(m.free), rest);
  }

  lemma RestSpare(m: Memory, s: Sequence, rest: seq<Sequence>, gpu: set<PhysicalTokenBlock>, cpu: set<PhysicalTokenBlock>)
    requires Spare(m, [s] + rest, gpu, cpu)
    ensures s.id in m.ledger.tables && LiesIn(m.ledger.tables[s.id], gpu) && s.tokens != []
    ensures var t := m.ledger.tables[s.id]; t != [] ==> Last(t) in m.ledger.refs
    ensures m.free != [] && Last(m.free) in gpu && Last(m.free) in FreeSet(m.ledger) && |rest| <= |m.free| - 1 && DistinctIds(rest)
    ensures Covered(m.ledger) && Distinct(m.free[..|m.free| - 1])
    ensures forall b | b in m.free[..|m.free| - 1] :: b in m.free && b != Last(m.free)
    ensures forall p | p in rest ::
      p.id != s.id && p.id in m.ledger.tables && LiesIn(m.ledger.tables[p.id], gpu) && p.tokens != []
  {
    hide Covered, WellFormed;
    assert s in [s] + rest && ([s] + rest)[1..] == rest && forall p | p in rest :: p in [s] + rest;
    var t := m.ledger.tables[s.id];
    assert t != [] ==> Last(t) in t;
    assert Last(m.free) in m.free;
  }

  lemma FirstTakes(m: Memory, s: Sequence, rest: seq<Sequence>, gpu: set<PhysicalTokenBlock>, cpu: set<PhysicalTokenBlock>, blockSize: nat)
    requires blockSize > 0 && Spare(m, [s] + rest, gpu, cpu)
    ensures var m' := Slot(m, s, blockSize);
      && Spare(m', rest, gpu, cpu)
      && |m'.free| - Takes(m'.ledger.tables, m'.ledger.refs, rest, blockSize)
         == |m.free| - Takes(m.ledger.tables, m.ledger.refs, [s] + rest, blockSize)
  {
    hide Spare, Slot, SameCounts, NumBlocks;
    SlotStep(m, s, rest, gpu, cpu, blockSize);
    var l, l', t, n := m.ledger, Slot(m, s, blockSize).ledger, m.ledger.tables[s.id], NumBlocks(|s.tokens|, blockSize);
    assert ([s] + rest)[0] == s && ([s] + rest)[1..] == rest;
    if n <= |t| {
      if l.refs[Last(t)] != 1 {
        TakesSame(rest, l.tables, l.refs[Last(t) := l.refs[Last(t)] - 1], l'.tables, l'.refs, blockSize);
      }
    } else {
      TakesSame(rest, l.tables, l.refs, l'.tables, l'.refs, blockSize);
    }
  }

  /** The slots for the members take just so many blocks. */
  lemma {:induction false} SlotsTake(m: Memory, live: seq<Sequence>, gpu: set<PhysicalTokenBlock>, cpu: set<PhysicalTokenBlock>,
                                     blockSize: nat)
    requires blockSize > 0 && Spare(m, live, gpu, cpu)
    ensures |Slots(m, live, blockSize).free| == |m.free| - Takes(m.ledger.tables, m.ledger.refs, live, blockSize)
    decreases live
  {
    if live == [] {
    } else {
      hide Spare, Slot, Slots, Takes;
      assert live == [live[0]] + live[1..];
      SlotsFirst(m, live[0], live[1..], blockSize);
      FirstTakes(m, live[0], live[1..], gpu, cpu, blockSize);
      SlotsTake(Slot(m, live[0], blockSize), live[1..], gpu, cpu, blockSize);
    }
  }

  /** Counts move with the holders. */
  lemma {:induction false} SlotsRecount(m: Memory, live: seq<Sequence>, blockSize: nat)
    requires blockSize > 0 && Covered(m.ledger)
    ensures var l := Slots(m, live, blockSize).ledger; Covered(l) && l == Recounted(m.ledger, l.tables)
  {
    hide Covered, Recounted;
    if live == [] {
      RecountNothing(m.ledger);
    } else {
      var front := live[..|live| - 1];
      SlotsRecount(m, front, blockSize);
      var l, l' := Slots(m, front, blockSize).ledger, Slots(m, live, blockSize).ledger;
      RecountTwice(m.ledger, l.tables, l'.tables);
      if l' == l {
      } else {
        assert l' == Recounted(l, l'.tables);
      }
    }
  }

  lemma GroupSpare(m: Memory, g: SequenceGroup, gpu: set<PhysicalTokenBlock>, cpu: set<PhysicalTokenBlock>, blockSize: nat)
    requires blockSize > 0 && Sound(m.ledger, gpu, cpu) && Distinct(m.free) && |g.WithStatus(Running)| <= |m.free|
    requires forall b | b in m.free :: b in gpu && b in FreeSet(m.ledger)
    requires RunningOk(g, m.ledger.tables, gpu, blockSize)
    ensures Spare(m, Unfinished(g.seqs), gpu, cpu)
  {
    hide Sound;
    SelectLive(g.seqs, Running);
    UnfinishedDistinct(g.seqs);
    UnfinishedIsSubsequence(g.seqs);
    forall s | s in Unfinished(g.seqs)
      ensures s.id in m.ledger.tables && LiesIn(m.ledger.tables[s.id], gpu) && s.tokens != []
    {
      assert Housed(s, m.ledger.tables, gpu, blockSize);
    }
  }

  // ---- blocks that a victim gives up --------------------------------------------------------------------------

  ghost function FreeOn<B>(l: Ledger<B>, device: set<B>): set<B> { set b | b in device && b in FreeSet(l) }

  /** The blocks that become free when a group gives up its tables: those that nothing but its tables keeps. */
  ghost function Given<B>(l: Ledger<B>, g: SequenceGroup): set<B> {
    set b | b in BlocksOf(l.tables, Ids(Unfinished(g.seqs))) && b in l.refs && Slack(l, b) == 0
  }

  ghost function GivenUp<B>(l: Ledger<B>, groups: seq<SequenceGroup>): nat {
    if groups == [] then 0 else |Given(l, groups[0])| + GivenUp(l, groups[1..])
  }

  /** Every table belongs to a sequence that has an owner, and only sequences of one owner share blocks. */
  ghost predicate Housing<B>(tables: map<int, seq<B>>, owner: map<int, int>) {
    tables.Keys <= owner.Keys && Unshared(tables, owner)
  }

  /** Finished members have no table. */
  ghost predicate LiveTabled<B>(g: SequenceGroup, tables: map<int, seq<B>>) {
    forall s | s in g.seqs && s.IsFinished() :: s.id !in tables
  }

  lemma HolderIsLive<B>(tables: map<int, seq<B>>, owner: map<int, int>, g: SequenceGroup, id: int, other: int, b: B)
    requires Housing(tables, owner) && Owned(g, owner) && id in Ids(Unfinished(g.seqs)) && id in tables && b in tables[id]
    requires other in tables && b in tables[other]
    ensures owner[other] == g.requestId
  {
    UnfinishedIsSubsequence(g.seqs);
    var k :| 0 <= k < |Unfinished(g.seqs)| && Ids(Unfinished(g.seqs))[k] == id;
    assert Unfinished(g.seqs)[k] in Unfinished(g.seqs);
  }

  /** Who holds the blocks of a device after a group has left it. */
  lemma HoldersLeft<B>(l: Ledger<B>, l': Ledger<B>, g: SequenceGroup, owner: map<int, int>, gpu: set<B>, b: B)
    requires Covered(l) && l' == Recounted(l, l'.tables) && b in gpu && b in l.refs
    requires Housing(l.tables, owner) && Owned(g, owner) && AgreeOff(g, l.tables, l'.tables)
    requires forall id | id in owner && owner[id] == g.requestId && id in l.tables :: id in Ids(Unfinished(g.seqs))
    requires forall s | s in g.seqs && s.id in l'.tables :: b !in l'.tables[s.id]
    ensures b in FreeSet(l') <==> b in FreeSet(l) || b in Given(l, g)
    ensures b in Given(l, g) ==> b !in FreeSet(l)
  {
    var ids := Ids(Unfinished(g.seqs));
    var before, after := Holders(l.tables, b), Holders(l'.tables, b);
    assert l'.refs[b] == Slack(l, b) + |after| && l.refs[b] == Slack(l, b) + |before| && Slack(l, b) >= 0;
    MembersOf(g);
    if b in BlocksOf(l.tables, ids) {
      var id :| id in ids && id in l.tables && b in l.tables[id];
      assert id in before;
      forall p | p in after ensures false {
        if forall s | s in g.seqs :: s.id != p {
          HolderIsLive(l.tables, owner, g, id, p, b);
        }
      }
      assert after == {};
    } else {
      forall p ensures p in before <==> p in after {
        if forall s | s in g.seqs :: s.id != p {
        } else if p in l.tables {
          assert owner[p] == g.requestId;
        }
      }
      assert after == before;
    }
  }

  lemma MembersOf(g: SequenceGroup)
    ensures forall id | id in Ids(Unfinished(g.seqs)) :: exists s | s in g.seqs :: s.id == id && !s.IsFinished()
    ensures forall s | s in g.seqs && !s.IsFinished() :: s.id in Ids(Unfinished(g.seqs))
  {
    UnfinishedIsSubsequence(g.seqs);
    var live := Unfinished(g.seqs);
    forall id | id in Ids(live) ensures exists s | s in g.seqs :: s.id == id && !s.IsFinished() {
      var k :| 0 <= k < |live| && Ids(live)[k] == id;
      assert live[k] in live;
    }
    forall s | s in g.seqs && !s.IsFinished() ensures s.id in Ids(live) {
      var k :| 0 <= k < |live| && live[k] == s;
      assert Ids(live)[k] == s.id;
    }
  }

  /** A group that leaves a device gives up just these blocks. */
  lemma GivesUp<B>(l: Ledger<B>, l': Ledger<B>, g: SequenceGroup, owner: map<int, int>, gpu: set<B>, cpu: set<B>)
    requires Covered(l) && l' == Recounted(l, l'.tables) && gpu !! cpu && gpu <= l.refs.Keys
    requires Housing(l.tables, owner) && Owned(g, owner) && AgreeOff(g, l.tables, l'.tables)
    requires forall id | id in owner && owner[id] == g.requestId && id in l.tables :: id in Ids(Unfinished(g.seqs))
    requires forall s | s in g.seqs && s.id in l'.tables :: LiesIn(l'.tables[s.id], cpu)
    requires forall b | b in BlocksOf(l.tables, Ids(Unfinished(g.seqs))) :: b in gpu
    ensures |FreeOn(l', gpu)| == |FreeOn(l, gpu)| + |Given(l, g)|
  {
    hide Recounted, AgreeOff, Owned, Housing, FreeSet, Given;
    forall b | b in gpu
      ensures b in FreeSet(l') <==> b in FreeSet(l) || b in Given(l, g)
      ensures b in Given(l, g) ==> b !in FreeSet(l)
    {
      forall s | s in g.seqs && s.id in l'.tables ensures b !in l'.tables[s.id] {
        assert LiesIn(l'.tables[s.id], cpu);
      }
      HoldersLeft(l, l', g, owner, gpu, b);
    }
    GivenIs(l, g);
    assert FreeOn(l', gpu) == FreeOn(l, gpu) + Given(l, g) && FreeOn(l, gpu) !! Given(l, g);
  }

  lemma GivenIs<B>(l: Ledger<B>, g: SequenceGroup)
    ensures Given(l, g) <= BlocksOf(l.tables, Ids(Unfinished(g.seqs)))
  {
  }

  lemma EntriesHouse<B>(entries: multiset<Entry>, tables: map<int, seq<B>>, gpu: set<B>, cpu: set<B>, blockSize: nat, owner: map<int, int>)
    requires EntriesOk(entries, tables, gpu, cpu, blockSize, owner)
    ensures tables.Keys <= owner.Keys
  {
    forall id | id in tables ensures id in owner {
      var e :| e in entries && HasMember(e.group, id);
      assert EntryOk(e, tables, gpu, cpu, blockSize, owner);
    }
  }

  lemma TabledLive<B>(entries: multiset<Entry>, tables: map<int, seq<B>>, gpu: set<B>, cpu: set<B>, blockSize: nat, owner: map<int, int>,
                      v: SequenceGroup, id: int)
    requires EntriesOk(entries, tables, gpu, cpu, blockSize, owner) && Entry(v, InRunning) in entries
    requires id in tables && id in owner && owner[id] == v.requestId
    ensures id in Ids(Unfinished(v.seqs))
  {
    var e :| e in entries && HasMember(e.group, id);
    assert EntryOk(e, tables, gpu, cpu, blockSize, owner);
    var f := Entry(v, InRunning);
    assert EntryOk(f, tables, gpu, cpu, blockSize, owner);
    assert e == f;
    MembersOf(v);
  }

  /** A running group that goes to the waiting or to the swapped queue gives up its blocks. */
  lemma VictimGivesUp<B>(l: Ledger<B>, l': Ledger<B>, v: SequenceGroup, e: Entry, entries: multiset<Entry>, owner: map<int, int>,
                         gpu: set<B>, cpu: set<B>, blockSize: nat)
    requires Covered(l) && l' == Recounted(l, l'.tables) && gpu !! cpu && gpu <= l.refs.Keys && Unshared(l.tables, owner)
    requires EntriesOk(entries, l.tables, gpu, cpu, blockSize, owner) && Entry(v, InRunning) in entries
    requires EntryOk(e, l'.tables, gpu, cpu, blockSize, owner) && SameRequest(v, e.group) && (e.place.InWaiting? || e.place.InSwapped?)
    requires AgreeOff(v, l.tables, l'.tables)
    ensures |FreeOn(l', gpu)| == |FreeOn(l, gpu)| + |Given(l, v)|
  {
    hide Recounted, AgreeOff, Unshared, EntriesOk, FreeOn, Given;
    EntriesHouse(entries, l.tables, gpu, cpu, blockSize, owner);
    EntryAt(entries, l.tables, gpu, cpu, blockSize, owner, Entry(v, InRunning));
    forall id | id in owner && owner[id] == v.requestId && id in l.tables ensures id in Ids(Unfinished(v.seqs)) {
      TabledLive(entries, l.tables, gpu, cpu, blockSize, owner, v, id);
    }
    forall s | s in v.seqs && s.id in l'.tables ensures LiesIn(l'.tables[s.id], cpu) {
      var i :| 0 <= i < |v.seqs| && v.seqs[i] == s;
      assert e.group.seqs[i] in e.group.seqs;
    }
    MembersOf(v);
    GivesUp(l, l', v, owner, gpu, cpu);
  }

  lemma EntryAt<B>(entries: multiset<Entry>, tables: map<int, seq<B>>, gpu: set<B>, cpu: set<B>, blockSize: nat, owner: map<int, int>,
                   e: Entry)
    requires EntriesOk(entries, tables, gpu, cpu, blockSize, owner) && e in entries
    ensures EntryOk(e, tables, gpu, cpu, blockSize, owner)
  {
  }

  // ---- groups that have not had their turn --------------------------------------------------------------------

  /** A group whose tables are still as they were gives up and takes what it would have then. */
  lemma StillAsBefore<B>(l0: Ledger<B>, l: Ledger<B>, g: SequenceGroup, requests: set<int>, owner: map<int, int>, blockSize: nat)
    requires blockSize > 0 && Covered(l0) && l == Recounted(l0, l.tables) && Owned(g, owner) && g.requestId !in requests
    requires Housing(l0.tables, owner) && Housing(l.tables, owner) && Untouched(requests, owner, l0.tables, l.tables)
    ensures Given(l, g) == Given(l0, g)
    ensures Takes(l.tables, l.refs, Unfinished(g.seqs), blockSize) == Takes(l0.tables, l0.refs, Unfinished(g.seqs), blockSize)
  {
    hide Takes;
    var live := Unfinished(g.seqs);
    MembersOf(g);
    forall id | id in Ids(live)
      ensures id in owner && owner[id] == g.requestId && (id in l0.tables <==> id in l.tables)
      ensures id in l0.tables ==> l.tables[id] == l0.tables[id]
    {
    }
    assert BlocksOf(l.tables, Ids(live)) == BlocksOf(l0.tables, Ids(live));
    assert Given(l, g) == Given(l0, g);
    UnfinishedIsSubsequence(g.seqs);
    forall s | s in live ensures s.id in Ids(live) {
    }
    forall s, b | s in live && s.id in l0.tables && b in l0.tables[s.id]
      ensures (b in l0.refs <==> b in l.refs) && (b in l0.refs ==> l.refs[b] == l0.refs[b])
    {
      HoldersStay(l0, l, g, requests, owner, s.id, b);
    }
    TakesSame(live, l0.tables, l0.refs, l.tables, l.refs, blockSize);
  }

  lemma HoldersStay<B>(l0: Ledger<B>, l: Ledger<B>, g: SequenceGroup, requests: set<int>, owner: map<int, int>, id: int, b: B)
    requires Owned(g, owner) && g.requestId !in requests && Covered(l0) && l == Recounted(l0, l.tables)
    requires Housing(l0.tables, owner) && Housing(l.tables, owner) && Untouched(requests, owner, l0.tables, l.tables)
    requires id in Ids(Unfinished(g.seqs)) && id in l0.tables && b in l0.tables[id]
    ensures Holders(l.tables, b) == Holders(l0.tables, b)
    ensures b in l0.refs ==> l.refs[b] == l0.refs[b]
  {
    MembersOf(g);
    assert id in owner && owner[id] == g.requestId && id in l.tables && l.tables[id] == l0.tables[id];
    forall p ensures p in Holders(l.tables, b) <==> p in Holders(l0.tables, b) {
      if p in Holders(l.tables, b) {
        HolderIsLive(l.tables, owner, g, id, p, b);
      } else if p in Holders(l0.tables, b) {
        HolderIsLive(l0.tables, owner, g, id, p, b);
      }
    }
    if b in l0.refs {
      assert Slack(l, b) == Slack(l0, b);
    }
  }

  // ---- the turns ----------------------------------------------------------------------------------------------

  /** How many groups at the end of `queue` have to give up their blocks until `need` are free, or all of them. */
  ghost function Enough(l: Ledger<PhysicalTokenBlock>, queue: seq<SequenceGroup>, need: int, free: int): (k: nat)
    ensures k <= |queue|
  {
    if need <= free || queue == [] then 0
    else 1 + Enough(l, queue[..|queue| - 1], need, free + |Given(l, Last(queue))|)
  }

  /** The turn of the first of `queue`, when `free` blocks are free. */
  ghost function TurnOf(l: Ledger<PhysicalTokenBlock>, queue: seq<SequenceGroup>, free: int): Turn
    requires queue != []
  {
    var need, k := |queue[0].WithStatus(Running)|, Enough(l, queue[1..], |queue[0].WithStatus(Running)|, free);
    var gone := queue[|queue| - k..];
    if need <= free + GivenUp(l, gone) then Turn(queue[0], free, gone, true) else Turn(queue[0], free, queue, false)
  }

  ghost function FreeAfter(l: Ledger<PhysicalTokenBlock>, t: Turn, blockSize: nat): int
    requires blockSize > 0
  {
    t.free + GivenUp(l, t.victims) - Takes(l.tables, l.refs, Unfinished(t.group.seqs), blockSize)
  }

  /** All turns of the running queue, in its order: `l` is the ledger before the step. */
  ghost function TurnsOf(l: Ledger<PhysicalTokenBlock>, queue: seq<SequenceGroup>, free: int, blockSize: nat): seq<Turn>
    requires blockSize > 0
    decreases |queue|
  {
    if queue == [] then []
    else
      var t := TurnOf(l, queue, free);
      [t] + if t.stays then TurnsOf(l, queue[1..|queue| - |t.victims|], FreeAfter(l, t, blockSize), blockSize) else []
  }

  lemma NoneGiven(l: Ledger<PhysicalTokenBlock>)
    ensures GivenUp(l, []) == 0
  {
  }

  lemma GivenOne(l: Ledger<PhysicalTokenBlock>, v: SequenceGroup, victims: seq<SequenceGroup>)
    ensures GivenUp(l, [v] + victims) == |Given(l, v)| + GivenUp(l, victims)
  {
    assert ([v] + victims)[1..] == victims;
  }

  lemma TurnIsOk(l: Ledger<PhysicalTokenBlock>, queue: seq<SequenceGroup>, free: int)
    requires queue != []
    ensures var t := TurnOf(l, queue, free);
      && TurnOk(t) && t.group == queue[0] && t.free == free
      && if t.stays then |t.victims| < |queue| && queue == [t.group] + queue[1..|queue| - |t.victims|] + t.victims
         else t.victims == queue
  {
    NoneGiven(l);
    assert queue[|queue|..] == [];
  }

  /** Half-way through the inner loop for the group `g`: `victims` have left the end of `queue`, and `now` blocks are free where
      there were `free`. */
  ghost predicate MakingRoom(l: Ledger<PhysicalTokenBlock>, g: SequenceGroup, queue: seq<SequenceGroup>, left: seq<SequenceGroup>,
                             victims: seq<SequenceGroup>, free: int, now: int)
  {
    && queue == left + victims && now == free + GivenUp(l, victims)
    && Enough(l, queue, |g.WithStatus(Running)|, free) == |victims| + Enough(l, left, |g.WithStatus(Running)|, now)
  }

  lemma RoomStarts(l: Ledger<PhysicalTokenBlock>, g: SequenceGroup, queue: seq<SequenceGroup>, free: int)
    ensures MakingRoom(l, g, queue, queue, [], free, free)
  {
  }

  lemma RoomNext(l: Ledger<PhysicalTokenBlock>, g: SequenceGroup, queue: seq<SequenceGroup>, left: seq<SequenceGroup>,
                 victims: seq<SequenceGroup>, free: int, now: int)
    requires MakingRoom(l, g, queue, left, victims, free, now) && now < |g.WithStatus(Running)| && left != []
    ensures MakingRoom(l, g, queue, left[..|left| - 1], [Last(left)] + victims, free, now + |Given(l, Last(left))|)
  {
    GivenOne(l, Last(left), victims);
  }

  lemma RoomMade(l: Ledger<PhysicalTokenBlock>, g: SequenceGroup, queue: seq<SequenceGroup>, left: seq<SequenceGroup>,
                 victims: seq<SequenceGroup>, free: int, now: int)
    requires MakingRoom(l, g, queue, left, victims, free, now) && |g.WithStatus(Running)| <= now
    ensures TurnOf(l, [g] + queue, free) == Turn(g, free, victims, true) && now == free + GivenUp(l, victims)
  {
    var all := [g] + queue;
    assert all[1..] == queue && all[|all| - |victims|..] == victims;
  }

  lemma RoomLacking(l: Ledger<PhysicalTokenBlock>, g: SequenceGroup, queue: seq<SequenceGroup>, victims: seq<SequenceGroup>,
                    free: int, now: int)
    requires MakingRoom(l, g, queue, [], victims, free, now) && now < |g.WithStatus(Running)|
    ensures TurnOf(l, [g] + queue, free) == Turn(g, free, [g] + victims, false) && queue == victims
    ensures GivenUp(l, [g] + victims) == now + |Given(l, g)| - free
  {
    var all, need := [g] + queue, |g.WithStatus(Running)|;
    assert [] + victims == victims;
    assert all[0] == g && all[1..] == queue && all[|all| - |queue|..] == queue;
    assert Enough(l, queue, need, free) == |queue|;
    GivenOne(l, g, victims);
  }

  /** Those who were preempted on the way are the last of the victims. */
  lemma RoomSought(l: Ledger<PhysicalTokenBlock>, tables: map<int, BlockTable>, g: SequenceGroup, queue: seq<SequenceGroup>,
                   left: seq<SequenceGroup>, victims: seq<SequenceGroup>, free: int, now: int)
    requires MakingRoom(l, g, queue, left, victims, free, now) && now < |g.WithStatus(Running)|
    ensures SwapCosts(tables, [if left == [] then g else Last(left)] + victims)
            <= SwapCosts(tables, TurnOf(l, [g] + queue, free).victims)
  {
    hide SwapCosts, GivenUp, Given, SequenceGroup.WithStatus;
    var all, need := [g] + queue, |g.WithStatus(Running)|;
    assert all[1..] == queue;
    if left == [] {
      RoomLacking(l, g, queue, victims, free, now);
    } else {
      var k, more := Enough(l, queue, need, free), [Last(left)] + victims;
      assert k >= |more| && queue == left[..|left| - 1] + more;
      var t := TurnOf(l, all, free);
      assert t.victims == t.victims[..|t.victims| - |more|] + more;
      CostsConcat(tables, t.victims[..|t.victims| - |more|], more);
    }
  }

  // ---- what the turns make of the queue -----------------------------------------------------------------------

  lemma TurnsFirst(l: Ledger<PhysicalTokenBlock>, queue: seq<SequenceGroup>, free: int, blockSize: nat)
    requires blockSize > 0 && queue != []
    ensures var t := TurnOf(l, queue, free);
      && (t.stays ==> |t.victims| < |queue|)
      && TurnsOf(l, queue, free, blockSize)
         == [t] + if t.stays then TurnsOf(l, queue[1..|queue| - |t.victims|], FreeAfter(l, t, blockSize), blockSize) else []
  {
    TurnIsOk(l, queue, free);
  }

  lemma StayedFirst(t: Turn, turns: seq<Turn>)
    ensures Stayed([t] + turns) == Staying(t) + Stayed(turns) && Gone([t] + turns) == Gone(turns) + t.victims
  {
    hide Staying;
    assert ([t] + turns)[1..] == turns;
  }

  lemma PlaysOnward(t: Turn, turns: seq<Turn>, rest: seq<SequenceGroup>, queue: seq<SequenceGroup>)
    requires t.stays && queue == [t.group] + rest + t.victims && Plays(turns, rest, [])
    ensures Plays([t] + turns, queue, [])
  {
    assert ([t] + turns)[1..] == turns;
    assert queue[1..|queue| - |t.victims|] == rest;
    assert queue[|queue| - |t.victims|..] == t.victims;
  }

  lemma PlaysFirst(t: Turn, turns: seq<Turn>, rest: seq<SequenceGroup>, queue: seq<SequenceGroup>, free: int)
    requires t.stays && queue == [t.group] + rest + t.victims && TurnOk(t)
    requires Account(turns, free, rest, [], Stayed(turns), Gone(turns)) && rest == Stayed(turns) + Gone(turns)
    ensures Account([t] + turns, t.free, queue, [], Stayed([t] + turns), Gone([t] + turns))
    ensures queue == Stayed([t] + turns) + Gone([t] + turns)
  {
    hide TurnOk, Plays, Stayed, Gone;
    StayedFirst(t, turns);
    PlaysOnward(t, turns, rest, queue);
    assert [t.group] + (Stayed(turns) + Gone(turns)) + t.victims == ([t.group] + Stayed(turns)) + (Gone(turns) + t.victims);
  }

  lemma PlaysLast(t: Turn)
    requires !t.stays && t.victims != [] && t.group == t.victims[0] && TurnOk(t)
    ensures Account([t], t.free, t.victims, [], Stayed([t]), Gone([t])) && t.victims == Stayed([t]) + Gone([t])
  {
    hide TurnOk;
    assert [t][1..] == [] && Gone([]) == [] == Stayed([]);
  }

  /** The turns are a run of the loop over the queue. */
  lemma {:induction false} TurnsPlay(l: Ledger<PhysicalTokenBlock>, queue: seq<SequenceGroup>, free: int, blockSize: nat)
    requires blockSize > 0
    ensures var turns := TurnsOf(l, queue, free, blockSize);
      Account(turns, free, queue, [], Stayed(turns), Gone(turns)) && queue == Stayed(turns) + Gone(turns)
    decreases |queue|
  {
    if queue == [] {
      NoTurns(free, queue);
    } else {
      hide TurnOf, TurnOk, FreeAfter, TurnsOf, Account, Stayed, Gone;
      var t := TurnOf(l, queue, free);
      TurnIsOk(l, queue, free);
      TurnsFirst(l, queue, free, blockSize);
      if t.stays {
        var rest := queue[1..|queue| - |t.victims|];
        TurnsPlay(l, rest, FreeAfter(l, t, blockSize), blockSize);
        PlaysFirst(t, TurnsOf(l, rest, FreeAfter(l, t, blockSize), blockSize), rest, queue, FreeAfter(l, t, blockSize));
      } else {
        PlaysLast(t);
      }
    }
  }

  /** One turn more. */
  lemma TurnsNext(l: Ledger<PhysicalTokenBlock>, all: seq<Turn>, turns: seq<Turn>, left: seq<SequenceGroup>, free: int,
                  left': seq<SequenceGroup>, free': int, blockSize: nat)
    requires blockSize > 0 && all == turns + TurnsOf(l, left, free, blockSize) && left != []
    requires var t := TurnOf(l, left, free);
      if t.stays then left[1..] == left' + t.victims && free' == FreeAfter(l, t, blockSize) else left' == []
    ensures all == turns + [TurnOf(l, left, free)] + TurnsOf(l, left', free', blockSize)
  {
    hide TurnOf, FreeAfter;
    TurnsFirst(l, left, free, blockSize);
    var t := TurnOf(l, left, free);
    if t.stays {
      assert left[1..|left| - |t.victims|] == left';
    }
  }

  lemma NoTurnsLeft(l: Ledger<PhysicalTokenBlock>, free: int, blockSize: nat)
    requires blockSize > 0
    ensures TurnsOf(l, [], free, blockSize) == []
  {
  }

  lemma {:induction false} GoneConcat(a: seq<Turn>, b: seq<Turn>)
    ensures Gone(a + b) == Gone(b) + Gone(a)
  {
    if a == [] {
      assert [] + b == b;
    } else {
      assert (a + b)[1..] == a[1..] + b;
      GoneConcat(a[1..], b);
    }
  }

  /** When a turn lacks swap space, all victims together do. */
  lemma TurnsStop(l: Ledger<PhysicalTokenBlock>, tables: map<int, BlockTable>, all: seq<Turn>, turns: seq<Turn>,
                  left: seq<SequenceGroup>, free: int, blockSize: nat)
    requires blockSize > 0 && all == turns + TurnsOf(l, left, free, blockSize) && left != []
    ensures var t := TurnOf(l, left, free);
      && SwapCosts(tables, Gone(all)) >= SwapCosts(tables, t.victims) + SwapCosts(tables, Gone(turns))
      && (t.victims != [] ==> Gone(all) != [])
  {
    hide TurnOf, FreeAfter, TurnsOf, SwapCosts, Gone;
    TurnsFirst(l, left, free, blockSize);
    var t, ahead := TurnOf(l, left, free), TurnsOf(l, left, free, blockSize);
    GoneConcat(turns, ahead);
    StayedFirst(t, ahead[1..]);
    assert ahead == [t] + ahead[1..];
    CostsConcat(tables, Gone(ahead), Gone(turns));
    CostsConcat(tables, Gone(ahead[1..]), t.victims);
  }

  // ---- half-way through the running queue ---------------------------------------------------------------------

  /** Memory, free CPU blocks, and the count of running sequences with the requests counted in it. */
  datatype Standing = Standing(memory: Memory, cpu: int, ids: set<int>, seqs: int)

  /** How far the loop over `queue` has come since it stood at `s0`. */
  ghost predicate Progress(s0: Standing, s: Standing, queue: seq<SequenceGroup>, turns: seq<Turn>, left: seq<SequenceGroup>,
                           kept: seq<SequenceGroup>, victims: seq<SequenceGroup>, blockSize: nat)
    requires blockSize > 0
  {
    && TurnsOf(s0.memory.ledger, queue, |s0.memory.free|, blockSize)
       == turns + TurnsOf(s0.memory.ledger, left, |s.memory.free|, blockSize)
    && (turns == [] ==> |s.memory.free| == |s0.memory.free|)
    && Tally(turns, |s0.memory.free|, queue, left, kept, victims, RequestIds(queue) <= s0.ids, s0.ids, s0.seqs, s.ids, s.seqs)
    && Foreseen(s0.memory, s0.cpu, s0.memory.ledger.tables, queue, kept, victims, s.memory, s.cpu, blockSize)
  }

  lemma ProgressStarts(s: Standing, queue: seq<SequenceGroup>, blockSize: nat)
    requires blockSize > 0
    ensures Progress(s, s, queue, [], queue, [], [], blockSize)
  {
    hide Tally, Foreseen, TurnsOf;
    TallyStart(|s.memory.free|, queue, RequestIds(queue) <= s.ids, s.ids, s.seqs);
    ForeseenStart(s.memory, s.cpu, s.memory.ledger.tables, queue, blockSize);
  }

  /** A turn for which the swap space is enough. */
  lemma ProgressNext(s0: Standing, s: Standing, s': Standing, queue: seq<SequenceGroup>, turns: seq<Turn>, left: seq<SequenceGroup>,
                     kept: seq<SequenceGroup>, victims: seq<SequenceGroup>, left': seq<SequenceGroup>, blockSize: nat)
    requires blockSize > 0 && Progress(s0, s, queue, turns, left, kept, victims, blockSize) && left != []
    requires queue == kept + left + victims && left[0].requestId !in RequestIds(kept) && left[0].requestId in RequestIds(queue)
    requires var t := TurnOf(s0.memory.ledger, left, |s.memory.free|);
      && TakenOff(t.group, t.victims != [], s.ids, s.seqs, s'.ids, s'.seqs)
      && s'.cpu == s.cpu - SwapCosts(s0.memory.ledger.tables, t.victims)
      && (if t.stays then
            left[1..] == left' + t.victims && |s'.memory.free| == FreeAfter(s0.memory.ledger, t, blockSize)
            && (t.victims == [] ==> s'.memory == Slots(s.memory, Unfinished(left[0].seqs), blockSize))
          else left' == [])
    ensures var t := TurnOf(s0.memory.ledger, left, |s.memory.free|);
      Progress(s0, s', queue, turns + [t], left', kept + (if t.stays then [left[0]] else []), t.victims + victims, blockSize)
  {
    hide TurnOf, FreeAfter, TurnsOf, Tally, Foreseen, TakenOff, TurnOk, SwapCosts, Slots, AllSlots, RoomyTo, SequenceGroup.WithStatus;
    var l, t, tables := s0.memory.ledger, TurnOf(s0.memory.ledger, left, |s.memory.free|), s0.memory.ledger.tables;
    TurnIsOk(l, left, |s.memory.free|);
    TurnsNext(l, TurnsOf(l, queue, |s0.memory.free|, blockSize), turns, left, |s.memory.free|, left', |s'.memory.free|, blockSize);
    TallyNext(turns, |s0.memory.free|, queue, left, kept, victims, RequestIds(queue) <= s0.ids, s0.ids, s0.seqs, s.ids, s.seqs,
              t, left', s'.ids, s'.seqs);
    NeedsRoom(t);
    ForeseenNext(s0.memory, s0.cpu, tables, queue, kept, left, victims, s.memory, s.cpu, blockSize, t.victims);
    ForeseenIs(s0.memory, s0.cpu, tables, queue, kept + (if t.stays then [left[0]] else []), t.victims + victims, s'.memory, s'.cpu,
               blockSize);
  }

  lemma NeedsRoom(t: Turn)
    requires TurnOk(t)
    ensures t.victims == [] <==> |t.group.WithStatus(Running)| <= t.free
    ensures t.victims == [] ==> t.stays
  {
  }

  /** A turn for which it is not. */
  lemma ProgressStops(s0: Standing, s: Standing, queue: seq<SequenceGroup>, turns: seq<Turn>, left: seq<SequenceGroup>,
                      kept: seq<SequenceGroup>, victims: seq<SequenceGroup>, blockSize: nat)
    requires blockSize > 0 && Progress(s0, s, queue, turns, left, kept, victims, blockSize) && left != []
    requires queue == kept + left + victims
    requires SwapCosts(s0.memory.ledger.tables, TurnOf(s0.memory.ledger, left, |s.memory.free|).victims) > s.cpu
    ensures SwapCosts(s0.memory.ledger.tables, Gone(TurnsOf(s0.memory.ledger, queue, |s0.memory.free|, blockSize))) > s0.cpu
    ensures s.cpu >= 0 ==> !Roomy(s0.memory, queue, blockSize)
    ensures s.cpu >= 0 ==> Gone(TurnsOf(s0.memory.ledger, queue, |s0.memory.free|, blockSize)) != []
  {
    hide TurnOf, FreeAfter, TurnsOf, Tally, Foreseen, TurnOk, SwapCosts, Slots, AllSlots, Roomy, RoomyTo, SequenceGroup.WithStatus;
    hide Gone;
    var l, t, tables := s0.memory.ledger, TurnOf(s0.memory.ledger, left, |s.memory.free|), s0.memory.ledger.tables;
    TurnIsOk(l, left, |s.memory.free|);
    NeedsRoom(t);
    TallyGone(turns, |s0.memory.free|, queue, left, kept, victims, RequestIds(queue) <= s0.ids, s0.ids, s0.seqs, s.ids, s.seqs);
    ForeseenNext(s0.memory, s0.cpu, tables, queue, kept, left, victims, s.memory, s.cpu, blockSize, t.victims);
    TurnsStop(l, tables, TurnsOf(l, queue, |s0.memory.free|, blockSize), turns, left, |s.memory.free|, blockSize);
    CostsOne(tables, t.group, []);
  }

  lemma ProgressEnds(s0: Standing, s: Standing, queue: seq<SequenceGroup>, turns: seq<Turn>, kept: seq<SequenceGroup>,
                     victims: seq<SequenceGroup>, blockSize: nat)
    requires blockSize > 0 && Progress(s0, s, queue, turns, [], kept, victims, blockSize) && queue == kept + victims && s.cpu >= 0
    ensures turns == TurnsOf(s0.memory.ledger, queue, |s0.memory.free|, blockSize) && kept == Stayed(turns) && victims == Gone(turns)
    ensures SwapCosts(s0.memory.ledger.tables, victims) <= s0.cpu
    ensures victims == [] <==> Roomy(s0.memory, queue, blockSize)
    ensures victims == [] ==> s.memory == AllSlots(s0.memory, kept, blockSize)
    ensures s.ids == s0.ids - RequestIds(Pressed(turns))
    ensures RequestIds(queue) <= s0.ids ==> s.seqs == s0.seqs - SumMax(Pressed(turns))
  {
    hide Tally, Foreseen, SwapCosts, Roomy, AllSlots, Stayed, Gone, Pressed;
    NoTurnsLeft(s0.memory.ledger, |s.memory.free|, blockSize);
    TallyEnds(turns, |s0.memory.free|, queue, [], kept, victims, RequestIds(queue) <= s0.ids, s0.ids, s0.seqs, s.ids, s.seqs);
    TallyGone(turns, |s0.memory.free|, queue, [], kept, victims, RequestIds(queue) <= s0.ids, s0.ids, s0.seqs, s.ids, s.seqs);
    ForeseenEnds(s0.memory, s0.cpu, s0.memory.ledger.tables, queue, kept, victims, s.memory, s.cpu, blockSize);
  }

  // ---- the count of running sequences -------------------------------------------------------------------------

  /** What `_schedule_running` leaves of the count of running sequences: the groups that have to make room come off it
      (scheduler.py:401-405).  It is that of the groups that go on if and only if those that make room count as much as those
      that are preempted. */
  lemma CountRightIff(l: Ledger<PhysicalTokenBlock>, queue: seq<SequenceGroup>, free: int, blockSize: nat)
    requires blockSize > 0
    ensures var turns := TurnsOf(l, queue, free, blockSize);
      && SumMax(queue) - SumMax(Pressed(turns)) == SumMax(AtEase(turns)) + SumMax(Displaced(turns))
      && (SumMax(queue) - SumMax(Pressed(turns)) == SumMax(Stayed(turns)) <==> SumMax(Pressed(turns)) == SumMax(Gone(turns)))
  {
    hide TurnsOf;
    var turns := TurnsOf(l, queue, free, blockSize);
    TurnsPlay(l, queue, free, blockSize);
    CountIs(turns);
    SumsConcat(Stayed(turns), Gone(turns));
  }

  lemma {:induction false} TakesAtMost<B>(tables: map<int, seq<B>>, refs: map<B, int>, live: seq<Sequence>, blockSize: nat)
    requires blockSize > 0
    ensures Takes(tables, refs, live, blockSize) <= |live|
    decreases live
  {
    if live != [] {
      TakesAtMost(tables, refs, live[1..], blockSize);
      if live[0].id in tables && tables[live[0].id] != [] && Last(tables[live[0].id]) in refs {
        var b := Last(tables[live[0].id]);
        TakesAtMost(tables, refs[b := refs[b] - 1], live[1..], blockSize);
      }
    }
  }

  /** A request for one sample that runs and has a block of its own. */
  ghost predicate RunsAlone(l: Ledger<PhysicalTokenBlock>, g: SequenceGroup) {
    Single(g) && g.seqs[0].status == Running && Given(l, g) != {}
  }

  /** The block of a lone member is given up. */
  lemma AloneGives(l: Ledger<PhysicalTokenBlock>, g: SequenceGroup)
    requires Exact(l) && Single(g) && g.seqs[0].status == Running
    requires var id := g.seqs[0].id; id in l.tables && l.tables[id] != [] && forall b | b in l.tables[id] :: b in l.refs
    ensures RunsAlone(l, g)
  {
    var s := g.seqs[0];
    assert g.seqs == [s] && Unfinished([s]) == [s] + Unfinished([]) && Ids(Unfinished(g.seqs)) == [s.id];
    var b := l.tables[s.id][0];
    assert b in l.tables[s.id] && b in l.refs;
    assert b in Given(l, g);
  }

  lemma AloneNeeds(l: Ledger<PhysicalTokenBlock>, g: SequenceGroup)
    requires RunsAlone(l, g)
    ensures |g.WithStatus(Running)| == 1 == g.MaxNumRunningSeqs() && |Unfinished(g.seqs)| == 1 && |Given(l, g)| >= 1
  {
    assert g.seqs == [g.seqs[0]] && g.seqs[1..] == [];
    SingleRunsOne(g);
    assert Select(g.seqs, Running) == [g.seqs[0]] + Select([], Running);
    assert Unfinished(g.seqs) == [g.seqs[0]] + Unfinished([]);
    assert |Given(l, g)| == 0 ==> Given(l, g) == {};
  }

  /** With one sample a request, each group that lacks room takes that of one other, or is preempted itself. */
  lemma AloneTurn(l: Ledger<PhysicalTokenBlock>, queue: seq<SequenceGroup>, free: int)
    requires queue != [] && free >= 0 && forall g | g in queue :: RunsAlone(l, g)
    ensures var t := TurnOf(l, queue, free); |t.victims| <= 1 && (t.stays ==> t.free + GivenUp(l, t.victims) >= 1)
  {
    hide RunsAlone;
    assert queue[0] in queue;
    AloneNeeds(l, queue[0]);
    NoneGiven(l);
    assert queue[|queue|..] == [];
    if free == 0 && |queue| > 1 {
      var v := Last(queue);
      AloneNeeds(l, v);
      var rest := queue[1..];
      assert Last(rest) == v;
      assert Enough(l, rest[..|rest| - 1], 1, |Given(l, v)|) == 0;
      assert Enough(l, rest, 1, 0) == 1;
      assert queue[|queue| - 1..] == [v];
      GivenOne(l, v, []);
      assert [v] + [] == [v];
    }
  }

  lemma AlonePresses(l: Ledger<PhysicalTokenBlock>, queue: seq<SequenceGroup>, free: int)
    requires queue != [] && free >= 0 && forall g | g in queue :: RunsAlone(l, g)
    ensures var t := TurnOf(l, queue, free);
      && SumMax(Pressing(t)) == SumMax(t.victims) && (t.stays ==> t.free + GivenUp(l, t.victims) >= 1)
      && |Unfinished(t.group.seqs)| == 1
  {
    hide RunsAlone, TurnOf, SequenceGroup.MaxNumRunningSeqs;
    var t := TurnOf(l, queue, free);
    TurnIsOk(l, queue, free);
    AloneTurn(l, queue, free);
    assert queue[0] in queue;
    AloneNeeds(l, t.group);
    if t.victims != [] {
      assert t.victims == [t.victims[0]] && t.victims[0] in queue;
      AloneNeeds(l, t.victims[0]);
      SumsOne(t.victims[0]);
      SumsOne(t.group);
    }
  }

  lemma {:induction false} AloneCount(l: Ledger<PhysicalTokenBlock>, queue: seq<SequenceGroup>, free: int, blockSize: nat)
    requires blockSize > 0 && free >= 0 && forall g | g in queue :: RunsAlone(l, g)
    ensures var turns := TurnsOf(l, queue, free, blockSize); SumMax(Pressed(turns)) == SumMax(Gone(turns))
    decreases |queue|
  {
    if queue != [] {
      hide RunsAlone, TurnOf, TurnsOf, Takes, SumMax, Pressed, Gone, SequenceGroup.MaxNumRunningSeqs;
      var t := TurnOf(l, queue, free);
      TurnIsOk(l, queue, free);
      TurnsFirst(l, queue, free, blockSize);
      AlonePresses(l, queue, free);
      if t.stays {
        var rest, after := queue[1..|queue| - |t.victims|], FreeAfter(l, t, blockSize);
        var turns := TurnsOf(l, rest, after, blockSize);
        TakesAtMost(l.tables, l.refs, Unfinished(t.group.seqs), blockSize);
        AloneCount(l, rest, after, blockSize);
        PressedFirst(t, turns);
      } else {
        PressedFirst(t, []);
        assert [t] + [] == [t];
      }
    }
    NonePressed();
  }

  lemma NonePressed()
    ensures Pressed([]) == [] == Gone([])
  {
  }

  lemma PressedFirst(t: Turn, turns: seq<Turn>)
    ensures SumMax(Pressed([t] + turns)) == SumMax(Pressing(t)) + SumMax(Pressed(turns))
    ensures SumMax(Gone([t] + turns)) == SumMax(Gone(turns)) + SumMax(t.victims)
  {
    hide SumMax;
    assert ([t] + turns)[1..] == turns;
    SumsConcat(Pressing(t), Pressed(turns));
    SumsConcat(Gone(turns), t.victims);
  }

  /** So for requests of one sample the count is always right, as long as each has a block that no stray reference keeps. */
  lemma AloneCountRight(l: Ledger<PhysicalTokenBlock>, queue: seq<SequenceGroup>, free: int, blockSize: nat)
    requires blockSize > 0 && free >= 0 && forall g | g in queue :: RunsAlone(l, g)
    ensures var turns := TurnsOf(l, queue, free, blockSize); SumMax(queue) - SumMax(Pressed(turns)) == SumMax(Stayed(turns))
  {
    hide *;
    AloneCount(l, queue, free, blockSize);
    CountRightIff(l, queue, free, blockSize);
  }

  /** The groups that go to the CPU need no more swap space than all running ones would. */
  lemma SpaceSuffices(l: Ledger<PhysicalTokenBlock>, tables: map<int, BlockTable>, queue: seq<SequenceGroup>, free: int, blockSize: nat)
    requires blockSize > 0
    ensures SwapCosts(tables, Gone(TurnsOf(l, queue, free, blockSize))) <= SwapCosts(tables, queue)
  {
    hide TurnsOf;
    var turns := TurnsOf(l, queue, free, blockSize);
    TurnsPlay(l, queue, free, blockSize);
    CostsConcat(tables, Stayed(turns), Gone(turns));
  }

  /** Otherwise neither direction of error is excluded: when the first of two groups lacks room and takes that of the second,
      the count that is left is that of the second, while the first goes on. */
  lemma CountOfTwo(l: Ledger<PhysicalTokenBlock>, a: SequenceGroup, b: SequenceGroup, free: int, blockSize: nat)
    requires blockSize > 0 && free < |a.WithStatus(Running)| <= free + |Given(l, b)|
    ensures TurnsOf(l, [a, b], free, blockSize) == [Turn(a, free, [b], true)]
    ensures var turns := TurnsOf(l, [a, b], free, blockSize);
      && Stayed(turns) == [a] && Gone(turns) == [b] && Pressed(turns) == [a]
      && SumMax([a, b]) - SumMax(Pressed(turns)) == b.MaxNumRunningSeqs() && SumMax(Stayed(turns)) == a.MaxNumRunningSeqs()
  {
    hide SequenceGroup.WithStatus, SequenceGroup.MaxNumRunningSeqs, Given, Takes;
    var queue, need := [a, b], |a.WithStatus(Running)|;
    assert queue[1..] == [b] && [b][..0] == [] && Last([b]) == b;
    assert Enough(l, [], need, free + |Given(l, b)|) == 0;
    assert Enough(l, [b], need, free) == 1;
    GivenOne(l, b, []);
    NoneGiven(l);
    assert [b] + [] == [b] && queue[1..1] == [] && queue[|queue| - 1..] == [b];
    var t := Turn(a, free, [b], true);
    assert TurnOf(l, queue, free) == t;
    assert TurnsOf(l, queue, free, blockSize) == [t] + [];
    assert [t][1..] == [] && Stayed([t]) == [a] + Stayed([]) && Gone([t]) == Gone([]) + [b] && Pressed([t]) == [a] + Pressed([]);
    assert queue == [a] + [b];
    SumsConcat([a], [b]);
    SumsOne(a);
    SumsOne(b);
  }
}
