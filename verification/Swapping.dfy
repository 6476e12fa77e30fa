/** Moving block tables between devices block by block, with shared blocks moved once (the loops of `swap_in` and
    `swap_out`, vllm/core/block_manager_v1.py:458-517), on values. */
module Swapping {
  import opened Blocks
  import opened Paging

  /** What `swap_in` and `swap_out` know of the blocks they moved: one block of the other device for each. */
  ghost predicate Moves<B>(mapping: map<B, B>, src: set<B>, dst: set<B>) {
    && (forall b | b in mapping :: b in src && mapping[b] in dst)
    && (forall a, b | a in mapping && b in mapping :: mapping[a] == mapping[b] ==> a == b)
  }

  /** Half-way through moving the table of `id`: its first entries are on the other device, and every count has
      followed its holders. */
  ghost predicate HalfMoved<B>(before: Ledger<B>, now: Ledger<B>, id: int, moved: seq<B>)
    requires id in before.tables && Covered(before)
  {
    && |moved| <= |before.tables[id]|
    && now == Recounted(before, before.tables[id := moved + before.tables[id][|moved|..]])
  }

  /** `mapping` has grown from `mapping0` by the entries of `table` seen so far; its new targets were unused. */
  ghost predicate Grown<B>(before: Ledger<B>, now: Ledger<B>, table: seq<B>, moved: seq<B>,
                           mapping0: map<B, B>, mapping: map<B, B>, src: set<B>, dst: set<B>)
  {
    && |moved| <= |table|
    && Moves(mapping, src, dst)
    && (forall b | b in mapping :: mapping[b] in now.refs && now.refs[mapping[b]] > 0)
    && (forall b | b in mapping0 :: b in mapping && mapping[b] == mapping0[b])
    && (forall b | b in mapping && b !in mapping0 :: mapping[b] in before.refs && before.refs[mapping[b]] == 0)
    && mapping.Keys == mapping0.Keys + Elements(table[..|moved|])
    && (forall i | 0 <= i < |moved| :: table[i] in mapping && moved[i] == mapping[table[i]])
  }

  ghost predicate Halfway<B>(before: Ledger<B>, now: Ledger<B>, id: int, moved: seq<B>,
                             mapping0: map<B, B>, mapping: map<B, B>, src: set<B>, dst: set<B>)
    requires id in before.tables && Covered(before)
  {
    && HalfMoved(before, now, id, moved)
    && Grown(before, now, before.tables[id], moved, mapping0, mapping, src, dst)
  }

  lemma TransitDistinct<B>(mapping: map<B, B>, src: set<B>, dst: set<B>, table: seq<B>, moved: seq<B>)
    requires src !! dst && Moves(mapping, src, dst) && |moved| <= |table|
    requires forall i | 0 <= i < |moved| :: table[i] in mapping && moved[i] == mapping[table[i]]
    requires Distinct(table) && LiesIn(table, src)
    ensures Distinct(moved + table[|moved|..])
    ensures |moved| < |table| && table[|moved|] in mapping ==> mapping[table[|moved|]] !in moved + table[|moved|..]
  {
    var t := moved + table[|moved|..];
    forall i, j | 0 <= i < j < |t| ensures t[i] != t[j] {
      if j < |moved| {
        assert table[i] != table[j];
      } else if i < |moved| {
        assert t[i] in dst && t[j] == table[j];
      } else {
        assert t[i] == table[i] && t[j] == table[j];
      }
    }
    if |moved| < |table| && table[|moved|] in mapping {
      forall i | 0 <= i < |t| ensures t[i] != mapping[table[|moved|]] {
        if i < |moved| {
          assert table[i] != table[|moved|];
        } else {
          assert t[i] == table[i];
        }
      }
    }
  }

  lemma HalfwayFacts<B>(before: Ledger<B>, now: Ledger<B>, id: int, moved: seq<B>,
                        mapping0: map<B, B>, mapping: map<B, B>, src: set<B>, dst: set<B>)
    requires id in before.tables && Covered(before) && src !! dst
    requires Halfway(before, now, id, moved, mapping0, mapping, src, dst)
    requires Distinct(before.tables[id]) && LiesIn(before.tables[id], src) && |moved| < |before.tables[id]|
    ensures Covered(now) && now.refs.Keys == before.refs.Keys
    ensures id in now.tables && |now.tables[id]| == |before.tables[id]| && Distinct(now.tables[id])
    ensures var b := before.tables[id][|moved|];
      && now.tables[id][|moved|] == b && now.tables[id] == moved + before.tables[id][|moved|..]
      && (b in mapping ==> mapping[b] in dst && mapping[b] in now.refs && now.refs[mapping[b]] > 0 && mapping[b] !in now.tables[id])
  {
    TransitDistinct(mapping, src, dst, before.tables[id], moved);
  }

  /** When the next block still needs a target, fewer targets were taken than the table needs. */
  lemma GrownShort<B>(table: seq<B>, k: nat, keys0: set<B>, keys: set<B>)
    requires k < |table| && keys == keys0 + Elements(table[..k]) && table[k] !in keys
    ensures |keys| - |keys0| < |Elements(table) - keys0|
  {
    var taken := keys - keys0;
    assert |keys| == |keys0| + |taken| by {
      assert keys == keys0 + taken;
    }
    assert taken <= Elements(table) - keys0 - {table[k]};
    SubsetSize(taken, Elements(table) - keys0 - {table[k]});
    assert table[k] in Elements(table) - keys0;
  }

  lemma HalfMovedStep<B>(before: Ledger<B>, now: Ledger<B>, id: int, moved: seq<B>, c: B)
    requires id in before.tables && Covered(before) && HalfMoved(before, now, id, moved)
    requires |moved| < |before.tables[id]|
    ensures HalfMoved(before, Recounted(now, now.tables[id := now.tables[id][|moved| := c]]), id, moved + [c])
  {
    hide Covered, Slack, Holders, Recounted;
    var table, k := before.tables[id], |moved|;
    var tables := now.tables[id := now.tables[id][k := c]];
    assert now.tables[id][k := c] == (moved + [c]) + table[k + 1..];
    assert tables == before.tables[id := (moved + [c]) + table[k + 1..]];
    RecountTwice(before, now.tables, tables);
  }

  lemma MovesStep<B>(now: Ledger<B>, mapping: map<B, B>, src: set<B>, dst: set<B>, b: B, c: B)
    requires Moves(mapping, src, dst) && b in src && c in dst && c in now.refs
    requires forall a | a in mapping :: mapping[a] in now.refs && now.refs[mapping[a]] > 0
    requires if b in mapping then c == mapping[b] else now.refs[c] == 0
    ensures Moves(mapping[b := c], src, dst)
  {
  }

  lemma GrownStep<B>(before: Ledger<B>, now: Ledger<B>, next: Ledger<B>, table: seq<B>, moved: seq<B>,
                     mapping0: map<B, B>, mapping: map<B, B>, src: set<B>, dst: set<B>, c: B)
    requires Grown(before, now, table, moved, mapping0, mapping, src, dst) && src !! dst
    requires LiesIn(table, src) && |moved| < |table| && c in dst && c in now.refs && c in before.refs
    requires next.refs.Keys == now.refs.Keys && next.refs[c] > 0
    requires forall b | b in now.refs && b in dst && b != c :: next.refs[b] == now.refs[b]
    requires var b := table[|moved|];
      if b in mapping then c == mapping[b] else now.refs[c] == 0 && before.refs[c] == 0
    ensures Grown(before, next, table, moved + [c], mapping0, mapping[table[|moved|] := c], src, dst)
  {
    var b := table[|moved|];
    MovesStep(now, mapping, src, dst, b, c);
    ElementsOfPrefix(table, |moved|);
    hide Moves, LiesIn, Elements;
    var mapping' := mapping[b := c];
    forall i | 0 <= i < |moved| + 1 ensures table[i] in mapping' && (moved + [c])[i] == mapping'[table[i]] {
      assert i < |moved| ==> table[i] in mapping;
    }
  }

  lemma ElementsOfPrefix<B>(table: seq<B>, k: nat)
    requires k < |table|
    ensures Elements(table[..k + 1]) == Elements(table[..k]) + {table[k]}
  {
    assert table[..k + 1] == table[..k] + [table[k]];
  }

  lemma HalfwayStep<B>(before: Ledger<B>, now: Ledger<B>, id: int, moved: seq<B>,
                       mapping0: map<B, B>, mapping: map<B, B>, src: set<B>, dst: set<B>, c: B)
    requires id in before.tables && Covered(before) && before.refs.Keys == src + dst && src !! dst
    requires Halfway(before, now, id, moved, mapping0, mapping, src, dst)
    requires Distinct(before.tables[id]) && LiesIn(before.tables[id], src) && |moved| < |before.tables[id]|
    requires c in dst && c in now.refs && id in now.tables && |moved| < |now.tables[id]|
    requires var b := before.tables[id][|moved|];
      if b in mapping then c == mapping[b] else now.refs[c] == 0
    ensures Halfway(before, Recounted(now, now.tables[id := now.tables[id][|moved| := c]]), id, moved + [c],
                    mapping0, mapping[before.tables[id][|moved|] := c], src, dst)
  {
    hide Covered, Slack, Holders, Recounted, Grown, HalfMoved;
    var table, k := before.tables[id], |moved|;
    HalfwayFacts(before, now, id, moved, mapping0, mapping, src, dst);
    if table[k] !in mapping {
      FreeBlockHasNoHolder(now, c);
      UnusedBefore(before, now, id, moved, c);
    }
    MoveRecounts(now, id, k, c);
    var next := Recounted(now, now.tables[id := now.tables[id][k := c]]);
    HalfMovedStep(before, now, id, moved, c);
    GrownStep(before, now, next, table, moved, mapping0, mapping, src, dst, c);
  }

  /** A block that nothing references while a table moves was not referenced before either. */
  lemma UnusedBefore<B>(before: Ledger<B>, now: Ledger<B>, id: int, moved: seq<B>, c: B)
    requires Covered(before) && id in before.tables && c !in before.tables[id]
    requires HalfMoved(before, now, id, moved)
    requires c in now.refs && now.refs[c] == 0
    ensures before.refs[c] == 0
  {
    FreeBlockHasNoHolder(now, c);
    assert Slack(before, c) == Slack(now, c);
    forall other | other in before.tables ensures c !in before.tables[other] {
      assert other != id ==> now.tables[other] == before.tables[other];
    }
    assert Holders(before.tables, c) == {};
  }

  /** `after` is `before` with each block replaced by the one it moved to. */
  ghost predicate Remapped<B>(mapping: map<B, B>, before: seq<B>, after: seq<B>) {
    |after| == |before| && forall i | 0 <= i < |before| :: before[i] in mapping && after[i] == mapping[before[i]]
  }

  /** The tables of `ids` moved from `src` to `dst`: each of their blocks to its own unused block of `dst`, so two
      tables share a block afterwards exactly where they did before. */
  ghost predicate MovedTables<B>(before: Ledger<B>, now: Ledger<B>, ids: seq<int>, mapping: map<B, B>, src: set<B>, dst: set<B>)
    requires Covered(before)
  {
    && now == Recounted(before, now.tables) && now.tables.Keys == before.tables.Keys
    && Moves(mapping, src, dst) && mapping.Keys == BlocksOf(before.tables, ids)
    && (forall b | b in mapping :: mapping[b] in before.refs && before.refs[mapping[b]] == 0)
    && (forall id | id in before.tables && id in ids :: Remapped(mapping, before.tables[id], now.tables[id]))
    && (forall id | id in before.tables && id !in ids :: now.tables[id] == before.tables[id])
  }

  /** `moves` says of the numbers of blocks what `mapping` says of the blocks. */
  ghost predicate Numbers(moves: map<int, int>, mapping: map<PhysicalTokenBlock, PhysicalTokenBlock>) {
    && (forall b | b in mapping :: b.blockNumber in moves && moves[b.blockNumber] == mapping[b].blockNumber)
    && (forall n | n in moves :: exists b | b in mapping :: b.blockNumber == n)
  }

  /** The tables of `ids` exist and lie on one device. */
  ghost predicate AllOn<B>(tables: map<int, seq<B>>, ids: seq<int>, device: set<B>) {
    forall id | id in ids :: id in tables && LiesIn(tables[id], device)
  }

  lemma AllOnAt<B>(tables: map<int, seq<B>>, ids: seq<int>, device: set<B>, i: nat)
    requires AllOn(tables, ids, device) && i < |ids|
    ensures ids[i] in tables && LiesIn(tables[ids[i]], device)
  {
    var id := ids[i];
    assert id in ids;
  }

  /** Every target of the mapping is referenced. */
  ghost predicate TargetsUsed<B>(now: Ledger<B>, mapping: map<B, B>) {
    forall b | b in mapping :: mapping[b] in now.refs && now.refs[mapping[b]] > 0
  }

  lemma SwapStart<B>(before: Ledger<B>, src: set<B>, dst: set<B>)
    requires Covered(before)
    ensures MovedTables(before, before, [], map[], src, dst) && TargetsUsed(before, map[])
  {
    RecountNothing(before);
    BlocksOfNone(before.tables);
  }

  lemma SwapUnusedBefore<B>(before: Ledger<B>, now: Ledger<B>, ids: seq<int>, mapping: map<B, B>, src: set<B>, dst: set<B>, c: B)
    requires Covered(before) && MovedTables(before, now, ids, mapping, src, dst) && src !! dst
    requires AllOn(before.tables, ids, src)
    requires c in dst && c in now.refs && now.refs[c] == 0
    ensures before.refs[c] == 0
  {
    FreeBlockHasNoHolder(now, c);
    assert Slack(before, c) == Slack(now, c);
    forall id | id in before.tables ensures c !in before.tables[id] {
      assert id !in ids ==> now.tables[id] == before.tables[id];
    }
    assert Holders(before.tables, c) == {};
  }

  lemma SwapStep<B>(before: Ledger<B>, now: Ledger<B>, next: Ledger<B>, ids: seq<int>, i: nat, moved: seq<B>,
                    mapping0: map<B, B>, mapping: map<B, B>, src: set<B>, dst: set<B>)
    requires Covered(before) && Covered(now) && src !! dst && i < |ids| && Distinct(ids)
    requires AllOn(before.tables, ids, src)
    requires MovedTables(before, now, ids[..i], mapping0, src, dst)
    requires ids[i] in now.tables && |moved| == |now.tables[ids[i]]|
    requires Halfway(now, next, ids[i], moved, mapping0, mapping, src, dst)
    ensures MovedTables(before, next, ids[..i + 1], mapping, src, dst)
    ensures next.tables == now.tables[ids[i] := moved] && TargetsUsed(next, mapping)
  {
    hide Covered, Slack, Holders, Recounted, Distinct;
    var id := ids[i];
    NotYet(ids, i);
    var table := before.tables[id];
    assert now.tables[id] == table;
    assert moved + table[|moved|..] == moved;
    RecountTwice(before, now.tables, next.tables);
    BlocksOfPrefix(before.tables, ids, i);
    assert table[..|moved|] == table;
    forall b | b in mapping ensures mapping[b] in before.refs && before.refs[mapping[b]] == 0 {
      if b !in mapping0 {
        SwapUnusedBefore(before, now, ids[..i], mapping0, src, dst, mapping[b]);
      }
    }
    forall other | other in before.tables && other in ids[..i + 1]
      ensures Remapped(mapping, before.tables[other], next.tables[other])
    {
      assert other != id ==> other in ids[..i] && next.tables[other] == now.tables[other];
    }
  }

  lemma SwapKeepsWellFormed<B>(now: Ledger<B>, next: Ledger<B>, id: int, moved: seq<B>,
                               mapping0: map<B, B>, mapping: map<B, B>, src: set<B>, dst: set<B>)
    requires Covered(now) && src !! dst && id in now.tables && |moved| == |now.tables[id]|
    requires Distinct(now.tables[id]) && LiesIn(now.tables[id], src)
    requires Halfway(now, next, id, moved, mapping0, mapping, src, dst) && WellFormed(now.tables, src, dst)
    ensures WellFormed(now.tables[id := moved], src, dst)
  {
    TransitDistinct(mapping, src, dst, now.tables[id], moved);
    assert moved + now.tables[id][|moved|..] == moved;
    assert TableOk(moved, src, dst);
  }

  lemma NotYet(ids: seq<int>, i: nat)
    requires i < |ids| && Distinct(ids)
    ensures ids[i] !in ids[..i]
    ensures forall id :: id in ids[..i + 1] <==> id in ids[..i] || id == ids[i]
  {
  }

  /** The next table of a swap has not moved yet; the mapping so far is a starting point for moving it. */
  lemma SwapNext<B>(before: Ledger<B>, now: Ledger<B>, ids: seq<int>, i: nat, mapping: map<B, B>, src: set<B>, dst: set<B>)
    requires Covered(before) && Covered(now) && i < |ids| && Distinct(ids)
    requires AllOn(before.tables, ids, src) && WellFormed(now.tables, src, dst)
    requires MovedTables(before, now, ids[..i], mapping, src, dst) && TargetsUsed(now, mapping)
    ensures ids[i] in now.tables && now.tables[ids[i]] == before.tables[ids[i]] && Distinct(now.tables[ids[i]])
    ensures ids[i] in before.tables && LiesIn(now.tables[ids[i]], src) && mapping.Keys == BlocksOf(before.tables, ids[..i])
    ensures Halfway(now, now, ids[i], [], mapping, mapping, src, dst)
  {
    hide Covered, Slack, Holders, Recounted;
    NotYet(ids, i);
    AllOnAt(before.tables, ids, src, i);
    var table := now.tables[ids[i]];
    assert table == before.tables[ids[i]];
    assert TableOk(table, src, dst);
    assert [] + table[0..] == table;
    assert now.tables[ids[i] := table] == now.tables;
    RecountNothing(now);
  }

  /** A table that needs more unused blocks than are left means that the group needs more than there were. */
  lemma SwapShort<B>(before: Ledger<B>, ids: seq<int>, i: nat, keys: set<B>)
    requires i < |ids| && ids[i] in before.tables && keys == BlocksOf(before.tables, ids[..i])
    ensures |keys| + |Elements(before.tables[ids[i]]) - keys| <= |BlocksOf(before.tables, ids)|
  {
    var more := Elements(before.tables[ids[i]]) - keys;
    assert |keys + more| == |keys| + |more|;
    forall b | b in keys + more ensures b in BlocksOf(before.tables, ids) {
      if b in keys {
        var id :| id in ids[..i] && id in before.tables && b in before.tables[id];
        InBlocksOf(before.tables, ids, id, b);
      } else {
        InBlocksOf(before.tables, ids, ids[i], b);
      }
    }
    SubsetSize(keys + more, BlocksOf(before.tables, ids));
  }

  lemma SwapEnd<B>(before: Ledger<B>, now: Ledger<B>, ids: seq<int>, mapping: map<B, B>, src: set<B>, dst: set<B>)
    requires Covered(before) && MovedTables(before, now, ids[..|ids|], mapping, src, dst)
    ensures MovedTables(before, now, ids, mapping, src, dst)
    ensures |mapping| == |BlocksOf(before.tables, ids)|
  {
    assert ids[..|ids|] == ids;
    assert |mapping| == |mapping.Keys|;
  }

  /** Two tables of the group share a block after the swap exactly where they shared one before. */
  lemma SharingKept<B>(before: Ledger<B>, now: Ledger<B>, ids: seq<int>, mapping: map<B, B>, src: set<B>, dst: set<B>,
                       p: int, q: int, i: nat, j: nat)
    requires Covered(before) && MovedTables(before, now, ids, mapping, src, dst)
    requires p in ids && q in ids && p in before.tables && q in before.tables
    requires i < |before.tables[p]| && j < |before.tables[q]|
    ensures i < |now.tables[p]| && j < |now.tables[q]|
    ensures now.tables[p][i] == now.tables[q][j] <==> before.tables[p][i] == before.tables[q][j]
  {
    assert Remapped(mapping, before.tables[p], now.tables[p]);
    assert Remapped(mapping, before.tables[q], now.tables[q]);
  }

  lemma SwapTargets<B>(before: Ledger<B>, now: Ledger<B>, ids: seq<int>, mapping: map<B, B>, src: set<B>, dst: set<B>)
    requires Covered(before) && MovedTables(before, now, ids, mapping, src, dst)
    ensures Moves(mapping, src, dst)
  {
  }

  lemma SidesSwap<B>(tables: map<int, seq<B>>, one: set<B>, other: set<B>)
    ensures one + other == other + one
    ensures WellFormed(tables, one, other) <==> WellFormed(tables, other, one)
  {
  }

  lemma MovedSize<B>(before: Ledger<B>, now: Ledger<B>, ids: seq<int>, mapping: map<B, B>, src: set<B>, dst: set<B>)
    requires Covered(before) && MovedTables(before, now, ids, mapping, src, dst)
    ensures |mapping| == |BlocksOf(before.tables, ids)|
  {
    assert |mapping| == |mapping.Keys|;
  }
}
