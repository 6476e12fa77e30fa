/** What one step of the scheduler tells the worker to move, against the block tables before and after it. */
module Transfers {
  import opened Blocks
  import opened Paging
  import opened Swapping
  import opened Sequences
  import opened GroupStates
  import opened Rosters
  import opened Queues

  /** Only members of one group share blocks. */
  ghost predicate Unshared<B>(tables: map<int, seq<B>>, owner: map<int, int>) {
    forall p, q | p in tables && q in tables && p in owner && q in owner && owner[p] != owner[q] :: Apart(tables[p], tables[q])
  }

  /** The tables of `ids` consist of blocks they had and of blocks that nobody had; no other table has changed. */
  ghost predicate Renewed<B>(ids: set<int>, before: map<int, seq<B>>, after: map<int, seq<B>>) {
    && (forall id | id in after && id !in ids :: id in before && after[id] == before[id])
    && (forall id, b | id in ids && id in after && b in after[id] :: Had(ids, before, b) || Unheld(before, b))
  }

  ghost predicate Had<B>(ids: set<int>, tables: map<int, seq<B>>, b: B) {
    exists p | p in ids && p in tables :: b in tables[p]
  }

  ghost predicate Unheld<B>(tables: map<int, seq<B>>, b: B) {
    forall q | q in tables :: b !in tables[q]
  }

  lemma UnsharedStep<B>(ids: set<int>, request: int, before: map<int, seq<B>>, after: map<int, seq<B>>, owner: map<int, int>)
    requires Unshared(before, owner) && Renewed(ids, before, after)
    requires forall id | id in ids :: id in owner && owner[id] == request
    ensures Unshared(after, owner)
  {
    forall p, q | p in after && q in after && p in owner && q in owner && owner[p] != owner[q]
      ensures Apart(after[p], after[q])
    {
      forall b | b in after[p] ensures b !in after[q] {
        if p in ids {
          OneSided(ids, request, before, after, owner, p, q, b);
        } else if q !in ids {
          assert Apart(before[p], before[q]);
        } else if b in after[q] {
          OneSided(ids, request, before, after, owner, q, p, b);
        }
      }
    }
  }

  lemma OneSided<B>(ids: set<int>, request: int, before: map<int, seq<B>>, after: map<int, seq<B>>, owner: map<int, int>,
                    p: int, q: int, b: B)
    requires Unshared(before, owner) && Renewed(ids, before, after)
    requires forall id | id in ids :: id in owner && owner[id] == request
    requires p in ids && q !in ids && p in after && q in after && q in owner && owner[q] != request && b in after[p]
    ensures b !in after[q]
  {
    assert q in before && after[q] == before[q];
    if Had(ids, before, b) {
      var r :| r in ids && r in before && b in before[r];
      assert Apart(before[r], before[q]);
    }
  }

  /** Fewer tables share no more. */
  lemma UnsharedLess<B>(before: map<int, seq<B>>, after: map<int, seq<B>>, owner: map<int, int>)
    requires Unshared(before, owner) && forall id | id in after :: id in before && after[id] == before[id]
    ensures Unshared(after, owner)
  {
    forall p, q | p in after && q in after && p in owner && q in owner && owner[p] != owner[q]
      ensures Apart(after[p], after[q])
    {
      assert Apart(before[p], before[q]);
    }
  }

  /** New owners of sequences without tables. */
  lemma UnsharedOwners<B>(tables: map<int, seq<B>>, owner: map<int, int>, owner': map<int, int>)
    requires Unshared(tables, owner) && forall id | id in tables && id in owner' :: id in owner && owner'[id] == owner[id]
    ensures Unshared(tables, owner')
  {
  }

  lemma AppendRenews<B>(l: Ledger<B>, id: int, n: nat, nb: B)
    requires Covered(l) && id in l.tables && nb in FreeSet(l)
    requires n <= |l.tables[id]| ==> l.tables[id] != [] && Last(l.tables[id]) in l.refs
    ensures Renewed({id}, l.tables, l.tables[id := AppendedTable(l, id, n, nb)])
  {
    FreeBlockHasNoHolder(l, nb);
    var t := AppendedTable(l, id, n, nb);
    forall b | b in t ensures Had({id}, l.tables, b) || Unheld(l.tables, b) {
      assert b == nb || b in l.tables[id];
    }
  }

  lemma MoveRenews<B>(before: Ledger<B>, now: Ledger<B>, ids: seq<int>, mapping: map<B, B>, src: set<B>, dst: set<B>)
    requires Covered(before) && MovedTables(before, now, ids, mapping, src, dst)
    ensures Renewed(Elements(ids), before.tables, now.tables)
  {
    forall id, b | id in Elements(ids) && id in now.tables && b in now.tables[id] ensures Unheld(before.tables, b) {
      assert Remapped(mapping, before.tables[id], now.tables[id]);
      var i :| 0 <= i < |now.tables[id]| && now.tables[id][i] == b;
      FreeBlockHasNoHolder(before, b);
    }
  }

  lemma ShareRenews<B>(l: Ledger<B>, ids: seq<int>, table: seq<B>)
    requires Covered(l) && forall b | b in table :: b in FreeSet(l)
    ensures Renewed(Elements(ids), l.tables, Share(l.tables, ids, table))
  {
    forall b | b in table ensures Unheld(l.tables, b) {
      FreeBlockHasNoHolder(l, b);
    }
  }

  // ---- copies -------------------------------------------------------------------------------------------------

  /** `blocks_to_copy[src].extend(dests)` for each source, a new one starting from the empty list. */
  function Merge(a: map<int, seq<int>>, b: map<int, seq<int>>): map<int, seq<int>> {
    map k | k in a.Keys + b.Keys :: (if k in a then a[k] else []) + (if k in b then b[k] else [])
  }

  /** For each source the targets of the first dictionary come first and those of the second last, and there are no others. */
  lemma MergedInOrder(a: map<int, seq<int>>, b: map<int, seq<int>>, k: int)
    ensures var m := Merge(a, b);
      && (k in m <==> k in a || k in b)
      && (k in a ==> a[k] <= m[k]) && (k in b ==> |b[k]| <= |m[k]| && m[k][|m[k]| - |b[k]|..] == b[k])
      && (k in m ==> |m[k]| == (if k in a then |a[k]| else 0) + if k in b then |b[k]| else 0)
  {
    var m := Merge(a, b);
    if k in m {
      assert m[k] == (if k in a then a[k] else []) + (if k in b then b[k] else []);
    }
  }

  /** The copy that a table needs when its shared last block has been replaced. */
  ghost function CopyOf(before: BlockTable, after: BlockTable): map<int, seq<int>> {
    if before != [] && |after| == |before| && Last(after) != Last(before)
    then map[Last(before).blockNumber := [Last(after).blockNumber]]
    else map[]
  }

  /** The copies of all members, in their order. */
  ghost function CopiesMade(copies: map<int, seq<int>>, live: seq<Sequence>,
                            before: map<int, BlockTable>, after: map<int, BlockTable>): map<int, seq<int>> {
    if live == [] then copies
    else
      var s := Last(live);
      Merge(CopiesMade(copies, live[..|live| - 1], before, after),
            if s.id in before && s.id in after then CopyOf(before[s.id], after[s.id]) else map[])
  }

  lemma {:induction false} CopiesFrame(copies: map<int, seq<int>>, live: seq<Sequence>, before: map<int, BlockTable>,
                                       now: map<int, BlockTable>, next: map<int, BlockTable>, id: int)
    requires id !in Ids(live) && id in next && next == now[id := next[id]]
    ensures CopiesMade(copies, live, before, next) == CopiesMade(copies, live, before, now)
  {
    hide Merge, CopyOf;
    if live != [] {
      var front := live[..|live| - 1];
      forall k | 0 <= k < |front| ensures Ids(front)[k] != id {
        assert Ids(live)[k] in Ids(live);
      }
      assert Ids(live)[|live| - 1] in Ids(live);
      CopiesFrame(copies, front, before, now, next, id);
    }
  }

  lemma CopiesNext(copies: map<int, seq<int>>, live: seq<Sequence>, i: nat, before: map<int, BlockTable>, after: map<int, BlockTable>)
    requires i < |live| && live[i].id in before && live[i].id in after
    ensures CopiesMade(copies, live[..i + 1], before, after)
            == Merge(CopiesMade(copies, live[..i], before, after), CopyOf(before[live[i].id], after[live[i].id]))
  {
    assert live[..i + 1][..i] == live[..i];
    assert Last(live[..i + 1]) == live[i];
  }

  /** The tables of these sequences are the same. */
  ghost predicate SameOn<B>(live: seq<Sequence>, t: map<int, seq<B>>, t': map<int, seq<B>>) {
    forall s | s in live :: (s.id in t <==> s.id in t') && (s.id in t ==> t'[s.id] == t[s.id])
  }

  lemma {:induction false} CopiesSame(copies: map<int, seq<int>>, live: seq<Sequence>, before: map<int, BlockTable>,
                                      before': map<int, BlockTable>, after: map<int, BlockTable>, after': map<int, BlockTable>)
    requires SameOn(live, before, before') && SameOn(live, after, after')
    ensures CopiesMade(copies, live, before', after') == CopiesMade(copies, live, before, after)
  {
    hide Merge, CopyOf;
    if live != [] {
      var s := Last(live);
      assert s in live;
      CopiesSame(copies, live[..|live| - 1], before, before', after, after');
    }
  }

  lemma {:induction false} CopiesConcat(copies: map<int, seq<int>>, a: seq<Sequence>, b: seq<Sequence>,
                                        before: map<int, BlockTable>, after: map<int, BlockTable>)
    ensures CopiesMade(copies, a + b, before, after)
            == CopiesMade(CopiesMade(copies, a, before, after), b, before, after)
  {
    hide Merge, CopyOf;
    if b == [] {
      assert a + b == a;
    } else {
      var front := b[..|b| - 1];
      CopiesConcat(copies, a, front, before, after);
      assert (a + b)[..|a + b| - 1] == a + front && Last(a + b) == Last(b);
    }
  }

  // ---- swaps --------------------------------------------------------------------------------------------------

  /** `swaps` sends each entry of `t` to that of `t'`. */
  ghost predicate Carries(swaps: map<int, int>, t: BlockTable, t': BlockTable) {
    |t| == |t'| && forall i | 0 <= i < |t| :: t[i].blockNumber in swaps && swaps[t[i].blockNumber] == t'[i].blockNumber
  }

  ghost predicate CarriesAll(swaps: map<int, int>, live: seq<Sequence>, before: map<int, BlockTable>, after: map<int, BlockTable>) {
    forall s | s in live :: s.id in before && s.id in after && Carries(swaps, before[s.id], after[s.id])
  }

  /** The pair `n`, `m` is an entry of one of the tables and what became of it. */
  ghost predicate Became(n: int, m: int, live: seq<Sequence>, before: map<int, BlockTable>, after: map<int, BlockTable>) {
    exists s, i: nat | s in live && s.id in before && s.id in after && i < |before[s.id]| && i < |after[s.id]| ::
      before[s.id][i].blockNumber == n && after[s.id][i].blockNumber == m
  }

  ghost predicate BecameAll(swaps: map<int, int>, live: seq<Sequence>, before: map<int, BlockTable>, after: map<int, BlockTable>) {
    forall n | n in swaps :: Became(n, swaps[n], live, before, after)
  }

  /** Entries that are one block afterwards were one block before, and all lie on the device `dst`. */
  ghost predicate Unmerged(live: seq<Sequence>, before: map<int, BlockTable>, after: map<int, BlockTable>, dst: set<PhysicalTokenBlock>) {
    && (forall s | s in live :: s.id in before && s.id in after && |before[s.id]| == |after[s.id]| && LiesIn(after[s.id], dst))
    && forall s, t, i: nat, j: nat | s in live && t in live && i < |after[s.id]| && j < |after[t.id]| ::
      after[s.id][i] == after[t.id][j] ==> before[s.id][i] == before[t.id][j]
  }

  /** All that was moved to the device `dst`, and nothing else. */
  ghost predicate Transit(swaps: map<int, int>, live: seq<Sequence>, before: map<int, BlockTable>, after: map<int, BlockTable>,
                          dst: set<PhysicalTokenBlock>) {
    CarriesAll(swaps, live, before, after) && BecameAll(swaps, live, before, after) && Unmerged(live, before, after, dst)
  }

  ghost predicate NumberedOn(device: set<PhysicalTokenBlock>) {
    forall b, c | b in device && c in device :: b.blockNumber == c.blockNumber ==> b == c
  }

  /** No two blocks are sent to the same place. */
  lemma TransitInjective(swaps: map<int, int>, live: seq<Sequence>, before: map<int, BlockTable>, after: map<int, BlockTable>,
                         dst: set<PhysicalTokenBlock>)
    requires Transit(swaps, live, before, after, dst) && NumberedOn(dst)
    ensures forall m, n | m in swaps && n in swaps :: swaps[m] == swaps[n] ==> m == n
  {
    hide CarriesAll;
    forall m, n | m in swaps && n in swaps && swaps[m] == swaps[n] ensures m == n {
      assert Became(m, swaps[m], live, before, after) && Became(n, swaps[n], live, before, after);
      var s, i: nat :| s in live && s.id in before && s.id in after && i < |before[s.id]| && i < |after[s.id]|
        && before[s.id][i].blockNumber == m && after[s.id][i].blockNumber == swaps[m];
      var t, j: nat :| t in live && t.id in before && t.id in after && j < |before[t.id]| && j < |after[t.id]|
        && before[t.id][j].blockNumber == n && after[t.id][j].blockNumber == swaps[n];
      assert after[s.id][i] in dst && after[t.id][j] in dst;
      assert after[s.id][i] == after[t.id][j];
    }
  }

  /** One group's move: besides, the blocks it now has were in nobody's table. */
  ghost predicate Relocated(moves: map<int, int>, live: seq<Sequence>, before: map<int, BlockTable>, after: map<int, BlockTable>,
                            dst: set<PhysicalTokenBlock>) {
    Transit(moves, live, before, after, dst) && forall s, b | s in live && s.id in after && b in after[s.id] :: Unheld(before, b)
  }

  /** The entries of `live` and those of `more` are different blocks, with different numbers. */
  lemma NotOverwritten(moves: map<int, int>, live: seq<Sequence>, more: seq<Sequence>, start: map<int, BlockTable>,
                       now: map<int, BlockTable>, next: map<int, BlockTable>, src: set<PhysicalTokenBlock>,
                       owner: map<int, int>, request: int, s: Sequence, i: nat)
    requires BecameAll(moves, more, now, next) && SameOn(more, start, now) && Unshared(start, owner) && NumberedOn(src)
    requires ByOwner(live, more, owner, request) && s in live && s.id in start && i < |start[s.id]|
    requires forall t | t in live + more && t.id in start :: LiesIn(start[t.id], src)
    ensures start[s.id][i].blockNumber !in moves
  {
    var n := start[s.id][i].blockNumber;
    assert s in live + more && start[s.id][i] in src;
    forall t, j: nat | t in more && t.id in now && j < |now[t.id]| ensures now[t.id][j].blockNumber != n {
      assert t in live + more && start[t.id][j] in src;
      assert Apart(start[s.id], start[t.id]);
      assert start[s.id][i] in start[s.id] && start[t.id][j] in start[t.id];
    }
    forall m | m in moves ensures m != n {
      assert Became(m, moves[m], more, now, next);
    }
  }

  ghost predicate ByOwner(live: seq<Sequence>, more: seq<Sequence>, owner: map<int, int>, request: int) {
    && (forall s | s in live :: s.id in owner && owner[s.id] != request)
    && (forall t | t in more :: t.id in owner && owner[t.id] == request)
  }

  lemma CarriedStill(swaps: map<int, int>, moves: map<int, int>, live: seq<Sequence>, more: seq<Sequence>,
                     start: map<int, BlockTable>, now: map<int, BlockTable>, next: map<int, BlockTable>,
                     src: set<PhysicalTokenBlock>, owner: map<int, int>, request: int)
    requires CarriesAll(swaps, live, start, now) && SameOn(live, now, next)
    requires CarriesAll(moves, more, now, next) && BecameAll(moves, more, now, next) && SameOn(more, start, now)
    requires Unshared(start, owner) && NumberedOn(src) && ByOwner(live, more, owner, request)
    requires forall t | t in live + more && t.id in start :: LiesIn(start[t.id], src)
    ensures CarriesAll(swaps + moves, more + live, start, next)
  {
    hide BecameAll, Unshared, NumberedOn, ByOwner;
    forall s | s in more + live ensures s.id in start && s.id in next && Carries(swaps + moves, start[s.id], next[s.id]) {
      if s in live {
        forall i | 0 <= i < |start[s.id]| ensures start[s.id][i].blockNumber !in moves {
          NotOverwritten(moves, live, more, start, now, next, src, owner, request, s, i);
        }
      }
    }
  }

  lemma BecameStill(swaps: map<int, int>, moves: map<int, int>, live: seq<Sequence>, more: seq<Sequence>,
                    start: map<int, BlockTable>, now: map<int, BlockTable>, next: map<int, BlockTable>)
    requires BecameAll(swaps, live, start, now) && SameOn(live, now, next)
    requires BecameAll(moves, more, now, next) && SameOn(more, start, now)
    ensures BecameAll(swaps + moves, more + live, start, next)
  {
    var all := swaps + moves;
    forall n | n in all ensures Became(n, all[n], more + live, start, next) {
      if n in moves {
        assert Became(n, moves[n], more, now, next);
        var t, j: nat :| t in more && t.id in now && t.id in next && j < |now[t.id]| && j < |next[t.id]|
          && now[t.id][j].blockNumber == n && next[t.id][j].blockNumber == moves[n];
        assert t in more + live && start[t.id][j].blockNumber == n;
      } else {
        assert Became(n, swaps[n], live, start, now);
        var t, j: nat :| t in live && t.id in start && t.id in now && j < |start[t.id]| && j < |now[t.id]|
          && start[t.id][j].blockNumber == n && now[t.id][j].blockNumber == swaps[n];
        assert t in more + live && next[t.id][j].blockNumber == swaps[n];
      }
    }
  }

  /** The entries of `more` are in none of the tables of `live`. */
  ghost predicate NewTo(live: seq<Sequence>, now: map<int, BlockTable>, more: seq<Sequence>, next: map<int, BlockTable>) {
    forall s, t | s in more && t in live && s.id in next && t.id in now :: Apart(next[s.id], now[t.id])
  }

  lemma UnmergedStill(moves: map<int, int>, live: seq<Sequence>, more: seq<Sequence>,
                      start: map<int, BlockTable>, now: map<int, BlockTable>, next: map<int, BlockTable>,
                      dst: set<PhysicalTokenBlock>)
    requires Unmerged(live, start, now, dst) && SameOn(live, now, next) && Unmerged(more, now, next, dst) && SameOn(more, start, now)
    requires NewTo(live, now, more, next)
    ensures Unmerged(more + live, start, next, dst)
  {
    var all := more + live;
    assert forall s | s in all :: s in more || s in live;
    forall s, t, i: nat, j: nat | s in live && t in more && i < |next[s.id]| && j < |next[t.id]|
      ensures next[s.id][i] != next[t.id][j]
    {
      assert Apart(next[t.id], now[s.id]);
      assert next[t.id][j] in next[t.id] && next[s.id][i] in now[s.id];
    }
    forall s, t, i: nat, j: nat | s in all && t in all && i < |next[s.id]| && j < |next[t.id]| && next[s.id][i] == next[t.id][j]
      ensures start[s.id][i] == start[t.id][j]
    {
      if s in live && t in live {
        assert now[s.id][i] == now[t.id][j];
      } else if s in more && t in more {
        assert now[s.id][i] == now[t.id][j];
      }
    }
  }

  lemma TransitMore(swaps: map<int, int>, moves: map<int, int>, live: seq<Sequence>, more: seq<Sequence>,
                    start: map<int, BlockTable>, now: map<int, BlockTable>, next: map<int, BlockTable>,
                    src: set<PhysicalTokenBlock>, dst: set<PhysicalTokenBlock>, owner: map<int, int>, request: int)
    requires Transit(swaps, live, start, now, dst) && SameOn(live, now, next)
    requires Transit(moves, more, now, next, dst) && SameOn(more, start, now) && NewTo(live, now, more, next)
    requires Unshared(start, owner) && NumberedOn(src) && ByOwner(live, more, owner, request)
    requires forall t | t in live + more && t.id in start :: LiesIn(start[t.id], src)
    ensures Transit(swaps + moves, more + live, start, next, dst)
  {
    hide CarriesAll, BecameAll, Unmerged, SameOn, Unshared, NumberedOn, ByOwner, NewTo;
    CarriedStill(swaps, moves, live, more, start, now, next, src, owner, request);
    BecameStill(swaps, moves, live, more, start, now, next);
    UnmergedStill(moves, live, more, start, now, next, dst);
  }

  ghost predicate MovedMember(moves: map<int, int>, s: Sequence, before: map<int, BlockTable>, now: map<int, BlockTable>,
                              mapping: map<PhysicalTokenBlock, PhysicalTokenBlock>, dst: set<PhysicalTokenBlock>) {
    && s.id in before && s.id in now && |now[s.id]| == |before[s.id]|
    && forall i | 0 <= i < |before[s.id]| :: before[s.id][i] in mapping && now[s.id][i] == mapping[before[s.id][i]]
         && before[s.id][i].blockNumber in moves && moves[before[s.id][i].blockNumber] == now[s.id][i].blockNumber
         && now[s.id][i] in dst
  }

  lemma MemberRemapped(live: seq<Sequence>, before: Ledger<PhysicalTokenBlock>, now: Ledger<PhysicalTokenBlock>,
                       mapping: map<PhysicalTokenBlock, PhysicalTokenBlock>, src: set<PhysicalTokenBlock>,
                       dst: set<PhysicalTokenBlock>, k: nat)
    requires Covered(before) && MovedTables(before, now, Ids(live), mapping, src, dst) && AllOn(before.tables, Ids(live), src)
    requires k < |live|
    ensures live[k].id in before.tables && live[k].id in now.tables && Moves(mapping, src, dst)
    ensures Remapped(mapping, before.tables[live[k].id], now.tables[live[k].id])
  {
    hide Covered, Recounted, AllOn, BlocksOf, Remapped, Moves;
    AllOnAt(before.tables, Ids(live), src, k);
    var id := Ids(live)[k];
    assert id in Ids(live) && id == live[k].id;
  }

  lemma RemappedMember(moves: map<int, int>, s: Sequence, before: map<int, BlockTable>, now: map<int, BlockTable>,
                       mapping: map<PhysicalTokenBlock, PhysicalTokenBlock>, src: set<PhysicalTokenBlock>, dst: set<PhysicalTokenBlock>)
    requires s.id in before && s.id in now && Remapped(mapping, before[s.id], now[s.id])
    requires Numbers(moves, mapping) && Moves(mapping, src, dst)
    ensures MovedMember(moves, s, before, now, mapping, dst)
  {
  }

  lemma UnheldTargets(live: seq<Sequence>, before: Ledger<PhysicalTokenBlock>, now: Ledger<PhysicalTokenBlock>,
                      mapping: map<PhysicalTokenBlock, PhysicalTokenBlock>, src: set<PhysicalTokenBlock>, dst: set<PhysicalTokenBlock>)
    requires Covered(before) && MovedTables(before, now, Ids(live), mapping, src, dst)
    ensures forall b | b in mapping :: Unheld(before.tables, mapping[b])
    ensures mapping.Keys == BlocksOf(before.tables, Ids(live)) && Moves(mapping, src, dst)
  {
    forall b | b in mapping ensures Unheld(before.tables, mapping[b]) {
      FreeBlockHasNoHolder(before, mapping[b]);
    }
  }

  lemma AllBecame(moves: map<int, int>, live: seq<Sequence>, before: map<int, BlockTable>, now: map<int, BlockTable>,
                  mapping: map<PhysicalTokenBlock, PhysicalTokenBlock>, dst: set<PhysicalTokenBlock>)
    requires Numbers(moves, mapping) && mapping.Keys == BlocksOf(before, Ids(live))
    requires forall s | s in live :: MovedMember(moves, s, before, now, mapping, dst)
    ensures BecameAll(moves, live, before, now)
  {
    forall n | n in moves ensures Became(n, moves[n], live, before, now) {
      var b :| b in mapping && b.blockNumber == n;
      var id :| id in Ids(live) && id in before && b in before[id];
      var k :| 0 <= k < |live| && Ids(live)[k] == id;
      var s := live[k];
      assert s in live && MovedMember(moves, s, before, now, mapping, dst);
      var i: nat :| i < |before[id]| && before[id][i] == b;
      assert now[s.id][i].blockNumber == moves[n];
    }
  }

  lemma AllUnmerged(moves: map<int, int>, live: seq<Sequence>, before: map<int, BlockTable>, now: map<int, BlockTable>,
                    mapping: map<PhysicalTokenBlock, PhysicalTokenBlock>, src: set<PhysicalTokenBlock>, dst: set<PhysicalTokenBlock>)
    requires Moves(mapping, src, dst)
    requires forall s | s in live :: MovedMember(moves, s, before, now, mapping, dst)
    ensures Unmerged(live, before, now, dst)
  {
  }

  /** What `swap_out` or `swap_in` does to one group, as block numbers. */
  lemma RelocatedBy(moves: map<int, int>, live: seq<Sequence>, before: Ledger<PhysicalTokenBlock>, now: Ledger<PhysicalTokenBlock>,
                    mapping: map<PhysicalTokenBlock, PhysicalTokenBlock>, src: set<PhysicalTokenBlock>, dst: set<PhysicalTokenBlock>)
    requires Covered(before) && MovedTables(before, now, Ids(live), mapping, src, dst) && AllOn(before.tables, Ids(live), src)
    requires Numbers(moves, mapping)
    ensures Relocated(moves, live, before.tables, now.tables, dst)
  {
    hide Covered, MovedTables, AllOn, BlocksOf, Numbers, Moves, Unmerged, BecameAll, Unheld, Became;
    forall s | s in live ensures MovedMember(moves, s, before.tables, now.tables, mapping, dst) {
      var k :| 0 <= k < |live| && live[k] == s;
      MemberRemapped(live, before, now, mapping, src, dst, k);
      RemappedMember(moves, s, before.tables, now.tables, mapping, src, dst);
    }
    UnheldTargets(live, before, now, mapping, src, dst);
    AllBecame(moves, live, before.tables, now.tables, mapping, dst);
    AllUnmerged(moves, live, before.tables, now.tables, mapping, src, dst);
    forall s, b | s in live && s.id in now.tables && b in now.tables[s.id] ensures Unheld(before.tables, b) {
      assert MovedMember(moves, s, before.tables, now.tables, mapping, dst);
      var i :| 0 <= i < |now.tables[s.id]| && now.tables[s.id][i] == b;
      assert before.tables[s.id][i] in mapping;
    }
  }

  // ---- one step -----------------------------------------------------------------------------------------------

  /** The live members of some groups. */
  ghost function LiveOf(groups: seq<SequenceGroup>): seq<Sequence> {
    if groups == [] then [] else LiveOf(groups[..|groups| - 1]) + Unfinished(Last(groups).seqs)
  }

  /** Those of the groups that `_preempt` (1006-1014) swaps. */
  ghost function SwappedMembers(groups: seq<SequenceGroup>): seq<Sequence> {
    if groups == [] then []
    else (if groups[0].MaxNumRunningSeqs() == 1 then [] else Unfinished(groups[0].seqs)) + SwappedMembers(groups[1..])
  }

  lemma {:induction false} LiveOfMembers(groups: seq<SequenceGroup>, s: Sequence)
    requires s in LiveOf(groups)
    ensures exists g | g in groups :: s in g.seqs && !s.IsFinished()
  {
    var front, g := groups[..|groups| - 1], Last(groups);
    assert groups == front + [g];
    if s in LiveOf(front) {
      LiveOfMembers(front, s);
      var h :| h in front && s in h.seqs && !s.IsFinished();
      assert h in groups;
    } else {
      UnfinishedIsSubsequence(g.seqs);
      assert g in groups;
    }
  }

  lemma {:induction false} SwappedMembersOf(groups: seq<SequenceGroup>, s: Sequence)
    requires s in SwappedMembers(groups)
    ensures exists g | g in groups :: s in g.seqs && !s.IsFinished()
  {
    var g, rest := groups[0], groups[1..];
    if s in SwappedMembers(rest) {
      SwappedMembersOf(rest, s);
      var h :| h in rest && s in h.seqs && !s.IsFinished();
      assert h in groups;
    } else {
      UnfinishedIsSubsequence(g.seqs);
      assert g in groups;
    }
  }

  /** Requests other than these have kept their tables. */
  ghost predicate Untouched<B>(requests: set<int>, owner: map<int, int>, before: map<int, seq<B>>, after: map<int, seq<B>>) {
    forall id | id in owner && owner[id] !in requests :: (id in before <==> id in after) && (id in before ==> after[id] == before[id])
  }

  /** The running groups at the start of a step. */
  ghost predicate Grounded(sorted: seq<SequenceGroup>, start: map<int, BlockTable>, owner: map<int, int>, gpu: set<PhysicalTokenBlock>) {
    && DistinctRequests(sorted) && Unshared(start, owner) && NumberedOn(gpu)
    && forall g | g in sorted :: Owned(g, owner) && Grounding(g, start, gpu)
  }

  ghost predicate Grounding(g: SequenceGroup, start: map<int, BlockTable>, gpu: set<PhysicalTokenBlock>) {
    forall s | s in g.seqs && !s.IsFinished() :: s.id in start && LiesIn(start[s.id], gpu)
  }

  /** Half-way through the running queue: what is to be swapped out and copied so far. */
  ghost predicate Shipped(sorted: seq<SequenceGroup>, kept: seq<SequenceGroup>, left: seq<SequenceGroup>, victims: seq<SequenceGroup>,
                          swaps: map<int, int>, copies: map<int, seq<int>>, start: map<int, BlockTable>, now: map<int, BlockTable>,
                          owner: map<int, int>, gpu: set<PhysicalTokenBlock>, cpu: set<PhysicalTokenBlock>) {
    && sorted == kept + left + victims && Grounded(sorted, start, owner, gpu)
    && Untouched(RequestIds(kept) + RequestIds(victims), owner, start, now)
    && Transit(swaps, SwappedMembers(victims), start, now, cpu)
    && copies == CopiesMade(map[], LiveOf(kept), start, now)
  }

  /** The group in the middle of a list is another request than the rest. */
  lemma OthersDiffer(front: seq<SequenceGroup>, g: SequenceGroup, back: seq<SequenceGroup>)
    requires DistinctRequests(front + [g] + back)
    ensures forall h | h in front + back :: h.requestId != g.requestId
  {
    var all := front + [g] + back;
    forall h | h in front + back ensures h.requestId != g.requestId {
      if h in front {
        var i :| 0 <= i < |front| && front[i] == h;
        DistinctAt(all, i, |front|);
      } else {
        var i :| 0 <= i < |back| && back[i] == h;
        assert all[|front| + 1 + i] == h;
        DistinctAt(all, |front|, |front| + 1 + i);
      }
    }
  }

  /** A change to the tables of `g` does not show in other groups. */
  lemma OffSame(groups: seq<SequenceGroup>, g: SequenceGroup, owner: map<int, int>, now: map<int, BlockTable>, next: map<int, BlockTable>)
    requires AgreeOff(g, now, next) && Owned(g, owner)
    requires forall h | h in groups :: Owned(h, owner) && h.requestId != g.requestId
    ensures SameOn(LiveOf(groups), now, next) && SameOn(SwappedMembers(groups), now, next)
    ensures forall s | s in SwappedMembers(groups) :: s.id in owner && owner[s.id] != g.requestId
  {
    forall s | s in LiveOf(groups) ensures (s.id in now <==> s.id in next) && (s.id in now ==> next[s.id] == now[s.id]) {
      LiveOfMembers(groups, s);
      MemberOff(groups, g, owner, s);
    }
    forall s | s in SwappedMembers(groups)
      ensures (s.id in now <==> s.id in next) && (s.id in now ==> next[s.id] == now[s.id])
      ensures s.id in owner && owner[s.id] != g.requestId
    {
      SwappedMembersOf(groups, s);
      MemberOff(groups, g, owner, s);
    }
  }

  lemma MemberOff(groups: seq<SequenceGroup>, g: SequenceGroup, owner: map<int, int>, s: Sequence)
    requires Owned(g, owner) && exists h | h in groups :: s in h.seqs
    requires forall h | h in groups :: Owned(h, owner) && h.requestId != g.requestId
    ensures s.id in owner && owner[s.id] != g.requestId && forall m | m in g.seqs :: m.id != s.id
  {
  }

  /** A group that has not had its turn has its tables of the start. */
  lemma NotYetTouched(g: SequenceGroup, requests: set<int>, owner: map<int, int>, start: map<int, BlockTable>, now: map<int, BlockTable>)
    requires Untouched(requests, owner, start, now) && Owned(g, owner) && g.requestId !in requests
    ensures SameOn(Unfinished(g.seqs), start, now)
  {
    UnfinishedIsSubsequence(g.seqs);
  }

  lemma TouchedMore(g: SequenceGroup, requests: set<int>, owner: map<int, int>, start: map<int, BlockTable>,
                    now: map<int, BlockTable>, next: map<int, BlockTable>)
    requires Untouched(requests, owner, start, now) && AgreeOff(g, now, next) && Owned(g, owner)
    ensures Untouched(requests + {g.requestId}, owner, start, next)
  {
  }

  lemma LiveOfMore(groups: seq<SequenceGroup>, g: SequenceGroup)
    ensures LiveOf(groups + [g]) == LiveOf(groups) + Unfinished(g.seqs)
    ensures RequestIds(groups + [g]) == RequestIds(groups) + {g.requestId}
  {
    assert (groups + [g])[..|groups|] == groups;
    assert g in groups + [g];
  }

  lemma SwappedMore(g: SequenceGroup, groups: seq<SequenceGroup>)
    ensures SwappedMembers([g] + groups) ==
      (if g.MaxNumRunningSeqs() == 1 then [] else Unfinished(g.seqs)) + SwappedMembers(groups)
    ensures RequestIds([g] + groups) == RequestIds(groups) + {g.requestId}
  {
    assert ([g] + groups)[1..] == groups;
    assert g in [g] + groups;
  }

  lemma ShipDecode(sorted: seq<SequenceGroup>, kept: seq<SequenceGroup>, g: SequenceGroup, left: seq<SequenceGroup>,
                   victims: seq<SequenceGroup>, swaps: map<int, int>, copies: map<int, seq<int>>, start: map<int, BlockTable>,
                   now: map<int, BlockTable>, next: map<int, BlockTable>,
                   owner: map<int, int>, gpu: set<PhysicalTokenBlock>, cpu: set<PhysicalTokenBlock>)
    requires Shipped(sorted, kept, [g] + left, victims, swaps, copies, start, now, owner, gpu, cpu)
    requires AgreeOff(g, now, next)
    ensures Shipped(sorted, kept + [g], left, victims, swaps, CopiesMade(copies, Unfinished(g.seqs), now, next),
                    start, next, owner, gpu, cpu)
  {
    hide DistinctRequests, AgreeOff, Unshared, NumberedOn, Owned, Untouched, Transit, SameOn, Unfinished;
    hide CopiesMade, LiveOf, SwappedMembers, RequestIds, Grounding;
    var live := Unfinished(g.seqs);
    assert sorted == kept + [g] + (left + victims);
    assert g in sorted;
    OthersDiffer(kept, g, left + victims);
    assert forall h | h in kept :: h in sorted;
    assert forall h | h in victims :: h in sorted && h in kept + (left + victims);
    OffSame(kept, g, owner, now, next);
    OffSame(victims, g, owner, now, next);
    NotAmong(g, kept, victims);
    NotYetTouched(g, RequestIds(kept) + RequestIds(victims), owner, start, now);
    TouchedMore(g, RequestIds(kept) + RequestIds(victims), owner, start, now, next);
    LiveOfMore(kept, g);
    TransitSame(swaps, SwappedMembers(victims), start, now, next, cpu);
    CopiesSameNow(LiveOf(kept), start, now, next);
    CopiesSameStart(copies, live, start, now, next);
    CopiesConcat(map[], LiveOf(kept), live, start, next);
    assert RequestIds(kept) + RequestIds(victims) + {g.requestId} == RequestIds(kept + [g]) + RequestIds(victims);
  }

  lemma NotAmong(g: SequenceGroup, kept: seq<SequenceGroup>, victims: seq<SequenceGroup>)
    requires forall h | h in kept :: h.requestId != g.requestId
    requires forall h | h in victims :: h.requestId != g.requestId
    ensures g.requestId !in RequestIds(kept) + RequestIds(victims)
  {
  }

  lemma TransitSame(swaps: map<int, int>, live: seq<Sequence>, start: map<int, BlockTable>, now: map<int, BlockTable>,
                    next: map<int, BlockTable>, dst: set<PhysicalTokenBlock>)
    requires Transit(swaps, live, start, now, dst) && SameOn(live, now, next)
    ensures Transit(swaps, live, start, next, dst)
  {
    BecameSame(swaps, live, start, now, next);
    forall s, t, i: nat, j: nat | s in live && t in live && i < |next[s.id]| && j < |next[t.id]| && next[s.id][i] == next[t.id][j]
      ensures start[s.id][i] == start[t.id][j]
    {
      assert now[s.id][i] == now[t.id][j];
    }
  }

  lemma BecameSame(swaps: map<int, int>, live: seq<Sequence>, start: map<int, BlockTable>, now: map<int, BlockTable>,
                   next: map<int, BlockTable>)
    requires BecameAll(swaps, live, start, now) && SameOn(live, now, next)
    ensures BecameAll(swaps, live, start, next)
  {
    forall n | n in swaps ensures Became(n, swaps[n], live, start, next) {
      assert Became(n, swaps[n], live, start, now);
      var t, j: nat :| t in live && t.id in start && t.id in now && j < |start[t.id]| && j < |now[t.id]|
        && start[t.id][j].blockNumber == n && now[t.id][j].blockNumber == swaps[n];
      assert next[t.id][j].blockNumber == swaps[n];
    }
  }

  lemma CopiesSameNow(live: seq<Sequence>, start: map<int, BlockTable>, now: map<int, BlockTable>, next: map<int, BlockTable>)
    requires SameOn(live, now, next)
    ensures CopiesMade(map[], live, start, next) == CopiesMade(map[], live, start, now)
  {
    CopiesSame(map[], live, start, start, now, next);
  }

  lemma CopiesSameStart(copies: map<int, seq<int>>, live: seq<Sequence>, start: map<int, BlockTable>, now: map<int, BlockTable>,
                        next: map<int, BlockTable>)
    requires SameOn(live, start, now)
    ensures CopiesMade(copies, live, now, next) == CopiesMade(copies, live, start, next)
  {
    CopiesSame(copies, live, start, now, next, next);
  }

  lemma ShipVictim(sorted: seq<SequenceGroup>, kept: seq<SequenceGroup>, left: seq<SequenceGroup>, v: SequenceGroup,
                   victims: seq<SequenceGroup>, swaps: map<int, int>, copies: map<int, seq<int>>, moves: map<int, int>,
                   start: map<int, BlockTable>, now: map<int, BlockTable>, next: map<int, BlockTable>,
                   owner: map<int, int>, gpu: set<PhysicalTokenBlock>, cpu: set<PhysicalTokenBlock>)
    requires Shipped(sorted, kept, left + [v], victims, swaps, copies, start, now, owner, gpu, cpu)
    requires AgreeOff(v, now, next)
    requires if v.MaxNumRunningSeqs() == 1 then moves == map[] else Relocated(moves, Unfinished(v.seqs), now, next, cpu)
    ensures Shipped(sorted, kept, left, [v] + victims, swaps + moves, copies, start, next, owner, gpu, cpu)
  {
    hide DistinctRequests, AgreeOff, Unshared, NumberedOn, Owned, Untouched, Transit, Relocated, SameOn, Unfinished;
    hide CopiesMade, LiveOf, SwappedMembers, RequestIds, SequenceGroup.MaxNumRunningSeqs, Grounding;
    var live := Unfinished(v.seqs);
    assert sorted == (kept + left) + [v] + victims;
    assert v in sorted && sorted == kept + left + ([v] + victims);
    OthersDiffer(kept + left, v, victims);
    assert forall h | h in kept :: h in sorted && h in (kept + left) + victims;
    assert forall h | h in victims :: h in sorted && h in (kept + left) + victims;
    OffSame(kept, v, owner, now, next);
    OffSame(victims, v, owner, now, next);
    NotAmong(v, kept, victims);
    NotYetTouched(v, RequestIds(kept) + RequestIds(victims), owner, start, now);
    TouchedMore(v, RequestIds(kept) + RequestIds(victims), owner, start, now, next);
    SwappedMore(v, victims);
    CopiesSameNow(LiveOf(kept), start, now, next);
    if v.MaxNumRunningSeqs() == 1 {
      TransitSame(swaps, SwappedMembers(victims), start, now, next, cpu);
      assert swaps + map[] == swaps && [] + SwappedMembers(victims) == SwappedMembers(victims);
    } else {
      LiveOwner(v, victims, owner);
      GroundedMembers(sorted, v, victims, start, owner, gpu);
      RelocatedNew(moves, SwappedMembers(victims), live, now, next, cpu);
      TransitMore(swaps, moves, SwappedMembers(victims), live, start, now, next, gpu, cpu, owner, v.requestId);
    }
    assert RequestIds(kept) + RequestIds(victims) + {v.requestId} == RequestIds(kept) + RequestIds([v] + victims);
  }

  lemma RelocatedNew(moves: map<int, int>, live: seq<Sequence>, more: seq<Sequence>, now: map<int, BlockTable>,
                     next: map<int, BlockTable>, dst: set<PhysicalTokenBlock>)
    requires Relocated(moves, more, now, next, dst)
    ensures Transit(moves, more, now, next, dst) && NewTo(live, now, more, next)
  {
    hide Transit;
    forall s, t | s in more && t in live && s.id in next && t.id in now ensures Apart(next[s.id], now[t.id]) {
      assert forall b | b in next[s.id] :: Unheld(now, b);
    }
  }

  lemma LiveOwner(v: SequenceGroup, victims: seq<SequenceGroup>, owner: map<int, int>)
    requires Owned(v, owner) && forall s | s in SwappedMembers(victims) :: s.id in owner && owner[s.id] != v.requestId
    ensures ByOwner(SwappedMembers(victims), Unfinished(v.seqs), owner, v.requestId)
  {
    UnfinishedIsSubsequence(v.seqs);
  }

  lemma GroundedMembers(sorted: seq<SequenceGroup>, v: SequenceGroup, victims: seq<SequenceGroup>, start: map<int, BlockTable>,
                        owner: map<int, int>, gpu: set<PhysicalTokenBlock>)
    requires Grounded(sorted, start, owner, gpu) && v in sorted && forall h | h in victims :: h in sorted
    ensures forall t | t in SwappedMembers(victims) + Unfinished(v.seqs) && t.id in start :: LiesIn(start[t.id], gpu)
  {
    hide DistinctRequests, Unshared, NumberedOn, Owned;
    UnfinishedIsSubsequence(v.seqs);
    forall t | t in SwappedMembers(victims) + Unfinished(v.seqs) && t.id in start ensures LiesIn(start[t.id], gpu) {
      if t in Unfinished(v.seqs) {
        assert Grounding(v, start, gpu);
      } else {
        SwappedMembersOf(victims, t);
        var h :| h in victims && t in h.seqs && !t.IsFinished();
        assert h in sorted && Grounding(h, start, gpu);
      }
    }
  }

  // ---- swapped groups that return -----------------------------------------------------------------------------

  /** The tables of `live` still begin as they did. */
  ghost predicate Extends(live: seq<Sequence>, before: map<int, BlockTable>, after: map<int, BlockTable>) {
    forall s | s in live :: s.id in before && s.id in after && before[s.id] <= after[s.id]
  }

  /** Half-way through the swapped queue: `landed` are the tables of the returned groups as they came back, before a slot
      for the newest token was added to them. */
  ghost predicate Fetched(sorted: seq<SequenceGroup>, back: nat, swaps: map<int, int>, start: map<int, BlockTable>,
                          now: map<int, BlockTable>, landed: map<int, BlockTable>,
                          owner: map<int, int>, gpu: set<PhysicalTokenBlock>, cpu: set<PhysicalTokenBlock>) {
    && back <= |sorted| && Grounded(sorted, start, owner, cpu)
    && Untouched(RequestIds(sorted[..back]), owner, start, now) && Untouched(RequestIds(sorted[..back]), owner, start, landed)
    && Transit(swaps, LiveOf(sorted[..back]), start, landed, gpu) && Extends(LiveOf(sorted[..back]), landed, now)
  }

  ghost function Placed(landed: map<int, BlockTable>, live: seq<Sequence>, between: map<int, BlockTable>): map<int, BlockTable> {
    landed + map id | id in Ids(live) && id in between :: between[id]
  }

  lemma PlacedIs(landed: map<int, BlockTable>, live: seq<Sequence>, between: map<int, BlockTable>)
    requires forall s | s in live :: s.id in between
    ensures SameOn(live, between, Placed(landed, live, between))
    ensures forall id | forall s | s in live :: s.id != id ::
      (id in landed <==> id in Placed(landed, live, between)) && (id in landed ==> Placed(landed, live, between)[id] == landed[id])
  {
    forall s | s in live ensures s.id in Ids(live) {
      var k :| 0 <= k < |live| && live[k] == s;
      assert Ids(live)[k] == s.id;
    }
    forall id | forall s | s in live :: s.id != id ensures id !in Ids(live) {
      assert forall k | 0 <= k < |live| :: live[k] in live;
    }
  }

  lemma TransitElsewhere(moves: map<int, int>, live: seq<Sequence>, before: map<int, BlockTable>, before': map<int, BlockTable>,
                         after: map<int, BlockTable>, after': map<int, BlockTable>, dst: set<PhysicalTokenBlock>)
    requires Transit(moves, live, before, after, dst) && SameOn(live, before, before') && SameOn(live, after, after')
    ensures Transit(moves, live, before', after', dst)
  {
    TransitSame(moves, live, before, after, after', dst);
    forall n | n in moves ensures Became(n, moves[n], live, before', after') {
      BecameSame(moves, live, before, after, after');
      assert Became(n, moves[n], live, before, after');
      var t, j: nat :| t in live && t.id in before && t.id in after' && j < |before[t.id]| && j < |after'[t.id]|
        && before[t.id][j].blockNumber == n && after'[t.id][j].blockNumber == moves[n];
      assert before'[t.id][j].blockNumber == n;
    }
    forall s, t, i: nat, j: nat | s in live && t in live && i < |after'[s.id]| && j < |after'[t.id]| && after'[s.id][i] == after'[t.id][j]
      ensures before'[s.id][i] == before'[t.id][j]
    {
      assert before[s.id][i] == before[t.id][j];
    }
  }

  lemma FetchStart(sorted: seq<SequenceGroup>, start: map<int, BlockTable>, owner: map<int, int>,
                   gpu: set<PhysicalTokenBlock>, cpu: set<PhysicalTokenBlock>)
    requires Grounded(sorted, start, owner, cpu)
    ensures Fetched(sorted, 0, map[], start, start, start, owner, gpu, cpu)
  {
    hide Grounded;
    assert sorted[..0] == [] && LiveOf([]) == [];
  }

  lemma FetchMore(sorted: seq<SequenceGroup>, back: nat, swaps: map<int, int>, moves: map<int, int>, start: map<int, BlockTable>,
                  now: map<int, BlockTable>, between: map<int, BlockTable>, next: map<int, BlockTable>, landed: map<int, BlockTable>,
                  owner: map<int, int>, gpu: set<PhysicalTokenBlock>, cpu: set<PhysicalTokenBlock>)
    requires Fetched(sorted, back, swaps, start, now, landed, owner, gpu, cpu) && back < |sorted|
    requires AgreeOff(sorted[back], now, next) && Relocated(moves, Unfinished(sorted[back].seqs), now, between, gpu)
    requires Extends(Unfinished(sorted[back].seqs), between, next)
    ensures Fetched(sorted, back + 1, swaps + moves, start, next, Placed(landed, Unfinished(sorted[back].seqs), between),
                    owner, gpu, cpu)
  {
    hide DistinctRequests, AgreeOff, Unshared, NumberedOn, Owned, Untouched, Transit, SameOn, Unfinished;
    hide LiveOf, RequestIds, Grounding, Extends, Placed;
    var g, done := sorted[back], sorted[..back];
    var live, landed' := Unfinished(g.seqs), Placed(landed, Unfinished(g.seqs), between);
    assert sorted == done + [g] + sorted[back + 1..] && sorted[..back + 1] == done + [g];
    OthersDiffer(done, g, sorted[back + 1..]);
    assert forall h | h in done :: h in sorted && h in done + sorted[back + 1..];
    OffSame(done, g, owner, now, next);
    NotAmong(g, done, []);
    assert RequestIds(done) + RequestIds([]) == RequestIds(done) by { NoIds(); }
    NotYetTouched(g, RequestIds(done), owner, start, now);
    NotYetTouched(g, RequestIds(done), owner, start, landed);
    TouchedMore(g, RequestIds(done), owner, start, now, next);
    LiveOfMore(done, g);
    PlacedOff(g, landed, between, now, moves, gpu);
    TouchedMore(g, RequestIds(done), owner, start, landed, landed');
    OffSame(done, g, owner, landed, landed');
    SameTwice(live, start, now, landed);
    RelocatedNew(moves, LiveOf(done), live, now, between, gpu);
    TransitElsewhere(moves, live, now, landed, between, landed', gpu);
    LandedNew(live, LiveOf(done), landed, now, between, landed');
    LiveApart(done, g, owner);
    GroundedLive(sorted, g, done, start, owner, cpu);
    TransitMore(swaps, moves, LiveOf(done), live, start, landed, landed', cpu, gpu, owner, g.requestId);
    TransitOrder(swaps + moves, live, LiveOf(done), start, landed', gpu);
    ExtendsMore(live, LiveOf(done), landed, now, between, landed', next);
  }

  lemma NoIds()
    ensures RequestIds([]) == {}
  {
  }

  lemma SameTwice(live: seq<Sequence>, start: map<int, BlockTable>, now: map<int, BlockTable>, landed: map<int, BlockTable>)
    requires SameOn(live, start, now) && SameOn(live, start, landed)
    ensures SameOn(live, now, landed)
  {
  }

  lemma PlacedOff(g: SequenceGroup, landed: map<int, BlockTable>, between: map<int, BlockTable>, now: map<int, BlockTable>,
                  moves: map<int, int>, gpu: set<PhysicalTokenBlock>)
    requires Relocated(moves, Unfinished(g.seqs), now, between, gpu)
    ensures AgreeOff(g, landed, Placed(landed, Unfinished(g.seqs), between))
    ensures SameOn(Unfinished(g.seqs), between, Placed(landed, Unfinished(g.seqs), between))
  {
    hide Placed;
    UnfinishedIsSubsequence(g.seqs);
    PlacedIs(landed, Unfinished(g.seqs), between);
  }

  lemma LandedNew(live: seq<Sequence>, done: seq<Sequence>, landed: map<int, BlockTable>, now: map<int, BlockTable>,
                  between: map<int, BlockTable>, landed': map<int, BlockTable>)
    requires Extends(done, landed, now) && NewTo(done, now, live, between) && SameOn(live, between, landed')
    ensures NewTo(done, landed, live, landed')
  {
    forall s, t | s in live && t in done && s.id in landed' && t.id in landed ensures Apart(landed'[s.id], landed[t.id]) {
      assert Apart(between[s.id], now[t.id]);
    }
  }

  lemma LiveApart(done: seq<SequenceGroup>, g: SequenceGroup, owner: map<int, int>)
    requires Owned(g, owner) && forall h | h in done :: Owned(h, owner) && h.requestId != g.requestId
    ensures ByOwner(LiveOf(done), Unfinished(g.seqs), owner, g.requestId)
  {
    UnfinishedIsSubsequence(g.seqs);
    forall s | s in LiveOf(done) ensures s.id in owner && owner[s.id] != g.requestId {
      LiveOfMembers(done, s);
    }
  }

  lemma GroundedLive(sorted: seq<SequenceGroup>, g: SequenceGroup, done: seq<SequenceGroup>, start: map<int, BlockTable>,
                     owner: map<int, int>, device: set<PhysicalTokenBlock>)
    requires Grounded(sorted, start, owner, device) && g in sorted && forall h | h in done :: h in sorted
    ensures forall t | t in LiveOf(done) + Unfinished(g.seqs) && t.id in start :: LiesIn(start[t.id], device)
  {
    hide DistinctRequests, Unshared, NumberedOn, Owned;
    UnfinishedIsSubsequence(g.seqs);
    forall t | t in LiveOf(done) + Unfinished(g.seqs) && t.id in start ensures LiesIn(start[t.id], device) {
      if t in Unfinished(g.seqs) {
        assert Grounding(g, start, device);
      } else {
        LiveOfMembers(done, t);
        var h :| h in done && t in h.seqs && !t.IsFinished();
        assert h in sorted && Grounding(h, start, device);
      }
    }
  }

  lemma TransitOrder(swaps: map<int, int>, a: seq<Sequence>, b: seq<Sequence>, before: map<int, BlockTable>,
                     after: map<int, BlockTable>, dst: set<PhysicalTokenBlock>)
    requires Transit(swaps, a + b, before, after, dst)
    ensures Transit(swaps, b + a, before, after, dst)
  {
    assert forall s :: s in a + b <==> s in b + a;
    forall n | n in swaps ensures Became(n, swaps[n], b + a, before, after) {
      assert Became(n, swaps[n], a + b, before, after);
    }
  }

  lemma ExtendsMore(live: seq<Sequence>, done: seq<Sequence>, landed: map<int, BlockTable>, now: map<int, BlockTable>,
                    between: map<int, BlockTable>, landed': map<int, BlockTable>, next: map<int, BlockTable>)
    requires Extends(done, landed, now) && SameOn(done, now, next) && SameOn(done, landed, landed')
    requires Extends(live, between, next) && SameOn(live, between, landed')
    ensures Extends(done + live, landed', next)
  {
  }

  /** The last block of the table is counted once. */
  ghost predicate OnceHeld<B>(table: seq<B>, l: Ledger<B>) {
    table == [] || (Last(table) in l.refs && l.refs[Last(table)] == 1)
  }

  /** A table that came back alone shares nothing. */
  lemma SoleHolder<B>(before: Ledger<B>, now: Ledger<B>, id: int, mapping: map<B, B>, src: set<B>, dst: set<B>)
    requires Covered(before) && MovedTables(before, now, [id], mapping, src, dst) && id in before.tables
    ensures id in now.tables && OnceHeld(now.tables[id], now)
  {
    var t := now.tables[id];
    assert id in [id] && Remapped(mapping, before.tables[id], t);
    if t != [] {
      var c := Last(t);
      assert Last(before.tables[id]) in mapping && c == mapping[Last(before.tables[id])];
      FreeBlockHasNoHolder(before, c);
      assert Slack(before, c) == 0 && Slack(now, c) == 0;
      forall other | other in now.tables && other != id ensures c !in now.tables[other] {
        assert other !in [id] && now.tables[other] == before.tables[other];
      }
      assert Holders(now.tables, c) == {id};
    }
  }

  lemma AppendExtends<B>(l: Ledger<B>, id: int, n: nat, nb: B)
    requires id in l.tables && OnceHeld(l.tables[id], l)
    requires n <= |l.tables[id]| ==> l.tables[id] != [] && Last(l.tables[id]) in l.refs
    ensures l.tables[id] <= AppendedTable(l, id, n, nb)
  {
  }

  /** A single member whose table only grew needs no copy. */
  lemma NoCopy(copies: map<int, seq<int>>, live: seq<Sequence>, before: map<int, BlockTable>, after: map<int, BlockTable>)
    requires |live| == 1 && Extends(live, before, after)
    ensures CopiesMade(copies, live, before, after) == copies
  {
    var s := live[0];
    var front := live[..|live| - 1];
    assert s in live && front == [];
    assert s.id in before && s.id in after && before[s.id] <= after[s.id];
    if |after[s.id]| == |before[s.id]| {
      assert after[s.id] == before[s.id];
    }
    assert Last(live) == s;
    var none := CopyOf(before[s.id], after[s.id]);
    assert none == map[];
    assert CopiesMade(copies, front, before, after) == copies;
    assert CopiesMade(copies, live, before, after) == Merge(CopiesMade(copies, front, before, after), none);
    MergeNothing(copies);
  }

  lemma MergeNothing(copies: map<int, seq<int>>)
    ensures Merge(copies, map[]) == copies
  {
    var m := Merge(copies, map[]);
    assert m.Keys == copies.Keys;
    forall k | k in copies ensures m[k] == copies[k] {
      assert copies[k] + [] == copies[k];
    }
  }

  ghost predicate AllOnceHeld<B>(live: seq<Sequence>, l: Ledger<B>) {
    forall s | s in live :: s.id in l.tables && OnceHeld(l.tables[s.id], l)
  }

  /** The first `i` members have got their slots; what that means for a single one. */
  ghost predicate GrewAlone(i: nat, live: seq<Sequence>, l0: Ledger<PhysicalTokenBlock>, now: map<int, BlockTable>,
                            l: Ledger<PhysicalTokenBlock>) {
    && (i == 0 ==> l == l0 && now == l0.tables)
    && (i == 1 == |live| && AllOnceHeld(live, l0) ==> Extends(live, l0.tables, now))
  }

  lemma GrewNext(i: nat, live: seq<Sequence>, l0: Ledger<PhysicalTokenBlock>, now: map<int, BlockTable>,
                 l: Ledger<PhysicalTokenBlock>, next: map<int, BlockTable>, l': Ledger<PhysicalTokenBlock>)
    requires GrewAlone(i, live, l0, now, l) && i < |live| && live[i].id in now && live[i].id in next
    requires OnceHeld(now[live[i].id], l) ==> now[live[i].id] <= next[live[i].id]
    ensures GrewAlone(i + 1, live, l0, next, l')
  {
    hide OnceHeld;
    if i + 1 == 1 == |live| && AllOnceHeld(live, l0) {
      assert live[0] in live;
    }
  }

  // ---- the whole step -----------------------------------------------------------------------------------------

  /** `swaps` sends every block that these sequences had to the block now at the same place of the table, says nothing else,
      and sends no two blocks to the same place. */
  ghost predicate Sends(swaps: map<int, int>, live: seq<Sequence>, before: map<int, BlockTable>, after: map<int, BlockTable>) {
    && (forall s | s in live :: s.id in before && s.id in after && |before[s.id]| <= |after[s.id]|)
    && (forall s, i: nat | s in live && i < |before[s.id]| ::
          before[s.id][i].blockNumber in swaps && swaps[before[s.id][i].blockNumber] == after[s.id][i].blockNumber)
    && BecameAll(swaps, live, before, after)
    && forall m, n | m in swaps && n in swaps :: swaps[m] == swaps[n] ==> m == n
  }

  /** What the worker is told in a step that decodes: `victims` go out, `returned` come in, `kept` get their copies. */
  ghost predicate StepTransfers(start: map<int, BlockTable>, now: map<int, BlockTable>, kept: seq<SequenceGroup>,
                                victims: seq<SequenceGroup>, returned: seq<SequenceGroup>,
                                swapIn: map<int, int>, swapOut: map<int, int>, copies: map<int, seq<int>>) {
    && Sends(swapOut, SwappedMembers(victims), start, now)
    && (forall s | s in SwappedMembers(victims) :: |now[s.id]| == |start[s.id]|)
    && Sends(swapIn, LiveOf(returned), start, now)
    && copies == CopiesMade(map[], LiveOf(kept), start, now)
  }

  lemma TransitSends(swaps: map<int, int>, live: seq<Sequence>, before: map<int, BlockTable>, landed: map<int, BlockTable>,
                     after: map<int, BlockTable>, dst: set<PhysicalTokenBlock>)
    requires Transit(swaps, live, before, landed, dst) && NumberedOn(dst) && Extends(live, landed, after)
    ensures Sends(swaps, live, before, after)
  {
    TransitInjective(swaps, live, before, landed, dst);
    forall n | n in swaps ensures Became(n, swaps[n], live, before, after) {
      assert Became(n, swaps[n], live, before, landed);
      var t, j: nat :| t in live && t.id in before && t.id in landed && j < |before[t.id]| && j < |landed[t.id]|
        && before[t.id][j].blockNumber == n && landed[t.id][j].blockNumber == swaps[n];
      assert after[t.id][j].blockNumber == swaps[n];
    }
    forall s, i: nat | s in live && i < |before[s.id]|
      ensures before[s.id][i].blockNumber in swaps && swaps[before[s.id][i].blockNumber] == after[s.id][i].blockNumber
    {
      assert Carries(swaps, before[s.id], landed[s.id]);
    }
  }

  lemma SendsFrom(swaps: map<int, int>, live: seq<Sequence>, before: map<int, BlockTable>, before': map<int, BlockTable>,
                  after: map<int, BlockTable>)
    requires Sends(swaps, live, before, after) && SameOn(live, before, before')
    ensures Sends(swaps, live, before', after)
  {
    forall n | n in swaps ensures Became(n, swaps[n], live, before', after) {
      assert Became(n, swaps[n], live, before, after);
      var t, j: nat :| t in live && t.id in before && t.id in after && j < |before[t.id]| && j < |after[t.id]|
        && before[t.id][j].blockNumber == n && after[t.id][j].blockNumber == swaps[n];
      assert before'[t.id][j].blockNumber == n;
    }
  }

  lemma SendsNothing(before: map<int, BlockTable>, after: map<int, BlockTable>)
    ensures Sends(map[], LiveOf([]), before, after) && LiveOf([]) == []
  {
  }

  lemma ShippedAll(kept: seq<SequenceGroup>, victims: seq<SequenceGroup>, swaps: map<int, int>, copies: map<int, seq<int>>,
                   start: map<int, BlockTable>, now: map<int, BlockTable>,
                   owner: map<int, int>, gpu: set<PhysicalTokenBlock>, cpu: set<PhysicalTokenBlock>)
    requires Shipped(kept + victims, kept, [], victims, swaps, copies, start, now, owner, gpu, cpu) && NumberedOn(cpu)
    ensures StepTransfers(start, now, kept, victims, [], map[], swaps, copies)
  {
    hide BecameAll, CopiesMade, LiveOf, SwappedMembers, Grounded, Untouched, Sends;
    var live := SwappedMembers(victims);
    assert forall s | s in live :: s.id in now && now[s.id] <= now[s.id];
    TransitSends(swaps, live, start, now, now, cpu);
    SendsNothing(start, now);
    forall s | s in live ensures |now[s.id]| == |start[s.id]| {
      assert Carries(swaps, start[s.id], now[s.id]);
    }
  }

  /** Groups whose requests are not among those touched. */
  lemma UntouchedSame(groups: seq<SequenceGroup>, requests: set<int>, owner: map<int, int>,
                      now: map<int, BlockTable>, next: map<int, BlockTable>)
    requires Untouched(requests, owner, now, next)
    requires forall g | g in groups :: Owned(g, owner) && g.requestId !in requests
    ensures SameOn(LiveOf(groups), now, next)
  {
    forall s | s in LiveOf(groups) ensures (s.id in now <==> s.id in next) && (s.id in now ==> next[s.id] == now[s.id]) {
      LiveOfMembers(groups, s);
      var g :| g in groups && s in g.seqs;
      assert Owned(g, owner);
    }
  }

  /** Nothing was preempted, and then some swapped groups returned. */
  lemma ThenFetched(kept: seq<SequenceGroup>, copies: map<int, seq<int>>, sorted: seq<SequenceGroup>, back: nat, swapIn: map<int, int>,
                    start: map<int, BlockTable>, mid: map<int, BlockTable>, now: map<int, BlockTable>, landed: map<int, BlockTable>,
                    owner: map<int, int>, gpu: set<PhysicalTokenBlock>, cpu: set<PhysicalTokenBlock>)
    requires Shipped(kept + [], kept, [], [], map[], copies, start, mid, owner, gpu, cpu)
    requires Fetched(sorted, back, swapIn, mid, now, landed, owner, gpu, cpu)
    requires RequestIds(kept) !! RequestIds(sorted) && NumberedOn(gpu)
    ensures StepTransfers(start, now, kept, [], sorted[..back], swapIn, map[], copies)
  {
    hide Transit, CopiesMade, LiveOf, Untouched, Sends, Extends, SameOn, Owned, Unshared, DistinctRequests, NumberedOn, Grounding;
    var returned := sorted[..back];
    Separately(kept, sorted, back);
    assert forall g | g in kept :: g in kept + [] && Owned(g, owner);
    assert forall g | g in returned :: Owned(g, owner);
    UntouchedSame(kept, RequestIds(returned), owner, mid, now);
    UntouchedSame(returned, RequestIds(kept) + RequestIds([]), owner, start, mid);
    CopiesSameNow(LiveOf(kept), start, mid, now);
    TransitSends(swapIn, LiveOf(returned), mid, landed, now, gpu);
    SameBack(LiveOf(returned), start, mid);
    SendsFrom(swapIn, LiveOf(returned), mid, start, now);
    SendsNothing(start, now);
    assert SwappedMembers([]) == [] == LiveOf([]);
  }

  lemma SameBack(live: seq<Sequence>, a: map<int, BlockTable>, b: map<int, BlockTable>)
    requires SameOn(live, a, b)
    ensures SameOn(live, b, a)
  {
  }

  lemma Separately(kept: seq<SequenceGroup>, sorted: seq<SequenceGroup>, back: nat)
    requires RequestIds(kept) !! RequestIds(sorted) && back <= |sorted|
    ensures forall g | g in kept :: g.requestId !in RequestIds(sorted[..back])
    ensures forall g | g in sorted[..back] :: g in sorted && g.requestId !in RequestIds(kept) + RequestIds([])
  {
    forall g | g in kept ensures g.requestId !in RequestIds(sorted[..back]) {
      assert g.requestId in RequestIds(kept);
      forall h | h in sorted[..back] ensures h.requestId != g.requestId {
        assert h.requestId in RequestIds(sorted);
      }
    }
    forall g | g in sorted[..back] ensures g in sorted && g.requestId !in RequestIds(kept) + RequestIds([]) {
      assert g.requestId in RequestIds(sorted);
    }
  }
}
