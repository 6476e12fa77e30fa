/** Block tables over the prefix cache, on values: what a block's hash says about the sequences that hold it. */
module PrefixSharing {
  import opened Arithmetic
  import opened Blocks
  import opened Paging
  import opened Evictors
  import opened CachedAllocator

  /** What the block manager has seen of a sequence: its tokens at its last call, and its LoRA adapter. */
  datatype Text = Text(tokens: seq<int>, lora: int)

  /** `hash_of_block` (sequence.py:244-255): the tokens up to the end of the block, or all of them. */
  function HashOfBlock(t: Text, index: nat, blockSize: nat): Hash {
    var end := (index + 1) * blockSize;
    Content(if end <= |t.tokens| then t.tokens[..end] else t.tokens, t.lora)
  }

  /** A content hash at index `i` of a sequence's table is the hash of that sequence's own tokens up to that block. */
  ghost predicate HashFits(h: Hash, t: Text, i: nat, blockSize: nat) {
    h.Content? ==> h.lora == t.lora && h.tokens <= t.tokens && i * blockSize < |h.tokens| <= (i + 1) * blockSize
  }

  ghost predicate TableFits<B>(table: seq<B>, info: map<B, Info>, t: Text, blockSize: nat) {
    && Distinct(table)
    && forall i: nat | i < |table| :: table[i] in info && HashFits(info[table[i]].hash, t, i, blockSize)
  }

  /** Each count is the number of tables that hold the block, plus one for the block that is `owed`. */
  ghost predicate Counts<B>(tables: map<int, seq<B>>, info: map<B, Info>, owed: set<B>) {
    forall b | b in info :: info[b].refs == |Holders(tables, b)| + if b in owed then 1 else 0
  }

  ghost predicate Sharing<B>(tables: map<int, seq<B>>, info: map<B, Info>, texts: map<int, Text>, blockSize: nat) {
    && texts.Keys == tables.Keys
    && forall id | id in tables :: TableFits(tables[id], info, texts[id], blockSize)
  }

  /** A content-hashed block in two tables sits at the same place in both, and both sequences start with its tokens
      under the same adapter. */
  lemma SharedBlocksAgree<B>(tables: map<int, seq<B>>, info: map<B, Info>, texts: map<int, Text>, blockSize: nat,
                             p: int, i: nat, q: int, j: nat)
    requires Sharing(tables, info, texts, blockSize) && p in tables && q in tables
    requires i < |tables[p]| && j < |tables[q]| && tables[p][i] == tables[q][j] && info[tables[p][i]].hash.Content?
    ensures i == j && texts[p].lora == texts[q].lora
    ensures var h := info[tables[p][i]].hash; h.tokens <= texts[p].tokens && h.tokens <= texts[q].tokens && i * blockSize < |h.tokens|
  {
    assert TableFits(tables[p], info, texts[p], blockSize) && TableFits(tables[q], info, texts[q], blockSize);
    SameIndex(i, j, |info[tables[p][i]].hash.tokens|, blockSize);
  }

  lemma SameIndex(i: nat, j: nat, n: nat, blockSize: nat)
    requires i * blockSize < n <= (i + 1) * blockSize && j * blockSize < n <= (j + 1) * blockSize
    ensures i == j
  {
    if i < j {
      MulAtLeast(i + 1, j, blockSize);
    } else if j < i {
      MulAtLeast(j + 1, i, blockSize);
    }
  }

  // ---- hashes of blocks -------------------------------------------------------------------------------------------------

  lemma HashOfBlockFits(t: Text, i: nat, blockSize: nat)
    requires blockSize > 0 && i * blockSize < |t.tokens|
    ensures HashFits(HashOfBlock(t, i, blockSize), t, i, blockSize)
  {
    assert (i + 1) * blockSize == i * blockSize + blockSize;
  }

  /** A sequence that has grown still starts with what its blocks were hashed for. */
  lemma GrownFits<B>(tables: map<int, seq<B>>, info: map<B, Info>, texts: map<int, Text>, blockSize: nat, id: int, t: Text)
    requires Sharing(tables, info, texts, blockSize) && id in tables && texts[id].tokens <= t.tokens && t.lora == texts[id].lora
    ensures Sharing(tables, info, texts[id := t], blockSize)
  {
    forall other | other in tables ensures TableFits(tables[other], info, texts[id := t][other], blockSize) {
      assert TableFits(tables[other], info, texts[other], blockSize);
    }
  }

  // ---- one more block for a table -----------------------------------------------------------------------------------------

  lemma HoldersMore<B>(tables: map<int, seq<B>>, id: int, b: B, c: B)
    requires id in tables && b !in tables[id]
    ensures Holders(tables[id := tables[id] + [b]], c) == Holders(tables, c) + if c == b then {id} else {}
    ensures id !in Holders(tables, b)
  {
  }

  /** An unused block is in no table. */
  lemma UnusedUnheld<B>(tables: map<int, seq<B>>, info: map<B, Info>, owed: set<B>, b: B, id: int)
    requires Counts(tables, info, owed) && b in info && info[b].refs == 0 && id in tables
    ensures b !in tables[id]
  {
    assert Holders(tables, b) == {};
    assert b in tables[id] <==> id in Holders(tables, b);
  }

  /** No block of the table bears the hash. */
  ghost predicate NotAmong<B>(h: Hash, table: seq<B>, info: map<B, Info>) {
    forall i: nat | i < |table| :: table[i] in info ==> info[table[i]].hash != h
  }

  /** The hash for the end of a table is not that of a block in it. */
  lemma EndNotAmong<B>(f: Files<B>, h: Hash, tables: map<int, seq<B>>, texts: map<int, Text>, blockSize: nat, id: int)
    requires FilesOk(f) && Sharing(tables, f.info, texts, blockSize) && id in tables
    requires (h.Content? && HashFits(h, texts[id], |tables[id]|, blockSize)) || (h.Fresh? && !Known(f, h))
    ensures NotAmong(h, tables[id], f.info)
  {
    hide FilesOk;
    assert TableFits(tables[id], f.info, texts[id], blockSize);
    forall i: nat | i < |tables[id]| ensures f.info[tables[id][i]].hash != h {
      OneBlockPerHash(f, tables[id][i]);
      MulAtLeast(i + 1, |tables[id]|, blockSize);
    }
  }

  /** The block that an allocation returns is not yet in the table it is for. */
  lemma GrantedElsewhere<B>(f: Files<B>, h: Hash, room: bool, b: B, after: Files<B>,
                            tables: map<int, seq<B>>, texts: map<int, Text>, owed: set<B>, blockSize: nat, id: int)
    requires FilesOk(f) && Allotted(f, h, room, b, after) && Counts(tables, f.info, owed)
    requires Sharing(tables, f.info, texts, blockSize) && id in tables && NotAmong(h, tables[id], f.info)
    ensures b !in tables[id]
  {
    assert TableFits(tables[id], f.info, texts[id], blockSize);
    AllottedIs(f, h, room, b, after);
    if b in f.info && f.info[b].refs == 0 {
      UnusedUnheld(tables, f.info, owed, b, id);
    }
  }

  /** What an allocation does to the hashes and counts: one more reference to the block of that hash. */
  lemma AllottedIs<B>(f: Files<B>, h: Hash, room: bool, b: B, after: Files<B>)
    requires FilesOk(f) && Allotted(f, h, room, b, after)
    ensures after.info == f.info[b := Info(h, (if b in f.info then f.info[b].refs else 0) + 1)]
    ensures b in f.info ==> f.info[b].refs >= 0 && (f.info[b].refs > 0 ==> f.info[b].hash == h)
  {
  }

  /** The block that bears `h` now follows the table of `id`. */
  lemma AllotAppends<B>(f: Files<B>, h: Hash, room: bool, b: B, after: Files<B>,
                        tables: map<int, seq<B>>, texts: map<int, Text>, owed: set<B>, blockSize: nat, id: int)
    requires FilesOk(f) && Allotted(f, h, room, b, after) && Counts(tables, f.info, owed) && owed <= f.info.Keys
    requires Sharing(tables, f.info, texts, blockSize) && id in tables
    requires NotAmong(h, tables[id], f.info) && HashFits(h, texts[id], |tables[id]|, blockSize)
    ensures Sharing(tables[id := tables[id] + [b]], after.info, texts, blockSize)
    ensures Counts(tables[id := tables[id] + [b]], after.info, owed)
  {
    hide FilesOk, Allotted, HashFits, Holders, NotAmong;
    AllottedIs(f, h, room, b, after);
    var t := tables[id];
    GrantedElsewhere(f, h, room, b, after, tables, texts, owed, blockSize, id);
    forall c | c in after.info ensures after.info[c].refs == |Holders(tables[id := t + [b]], c)| + if c in owed then 1 else 0 {
      HoldersMore(tables, id, b, c);
      if c == b && b !in f.info {
        NewUnheld(tables, f.info, texts, blockSize, b);
      }
    }
    forall other | other in tables ensures TableFits(tables[id := t + [b]][other], after.info, texts[other], blockSize) {
      AllotFits(f.info, after.info, h, b, tables, texts, owed, blockSize, other);
    }
  }

  lemma NewUnheld<B>(tables: map<int, seq<B>>, info: map<B, Info>, texts: map<int, Text>, blockSize: nat, b: B)
    requires Sharing(tables, info, texts, blockSize) && b !in info
    ensures Holders(tables, b) == {}
  {
    forall id | id in tables ensures b !in tables[id] {
      assert TableFits(tables[id], info, texts[id], blockSize);
    }
  }

  /** Tables keep fitting when an unused block gets another hash. */
  lemma AllotFits<B>(before: map<B, Info>, after: map<B, Info>, h: Hash, b: B, tables: map<int, seq<B>>, texts: map<int, Text>,
                     owed: set<B>, blockSize: nat, id: int)
    requires Sharing(tables, before, texts, blockSize) && Counts(tables, before, owed) && id in tables
    requires after == before[b := Info(h, (if b in before then before[b].refs else 0) + 1)]
    requires b in before ==> before[b].refs >= 0 && (before[b].refs > 0 ==> before[b].hash == h)
    ensures TableFits(tables[id], after, texts[id], blockSize)
  {
    hide HashFits, Holders, Distinct;
    assert TableFits(tables[id], before, texts[id], blockSize);
    if b in before && before[b].refs == 0 {
      UnusedUnheld(tables, before, owed, b, id);
    }
  }

  // ---- blocks that leave a table ------------------------------------------------------------------------------------------

  /** A table is given up: its blocks' references are still owed. */
  lemma TableOwed<B>(tables: map<int, seq<B>>, info: map<B, Info>, texts: map<int, Text>, blockSize: nat, id: int)
    requires Counts(tables, info, {}) && Sharing(tables, info, texts, blockSize) && id in tables
    ensures Counts(tables - {id}, info, Elements(tables[id])) && Sharing(tables - {id}, info, texts - {id}, blockSize)
    ensures Elements(tables[id]) <= info.Keys
  {
    assert TableFits(tables[id], info, texts[id], blockSize);
    forall b | b in info ensures info[b].refs == |Holders(tables - {id}, b)| + if b in Elements(tables[id]) then 1 else 0 {
      assert Holders(tables - {id}, b) == Holders(tables, b) - {id};
      assert id in Holders(tables, b) <==> b in tables[id];
    }
  }

  /** The last block leaves a table: its reference is still owed. */
  lemma LastOwed<B>(tables: map<int, seq<B>>, info: map<B, Info>, texts: map<int, Text>, blockSize: nat, id: int)
    requires Counts(tables, info, {}) && Sharing(tables, info, texts, blockSize) && id in tables && tables[id] != []
    ensures var t := tables[id];
      && Last(t) in info && info[Last(t)].refs > 0
      && Counts(tables[id := t[..|t| - 1]], info, {Last(t)}) && Sharing(tables[id := t[..|t| - 1]], info, texts, blockSize)
  {
    var t, n := tables[id], |tables[id]| - 1;
    assert TableFits(t, info, texts[id], blockSize);
    var tables' := tables[id := t[..n]];
    forall b | b in info ensures info[b].refs == |Holders(tables', b)| + if b == t[n] then 1 else 0 {
      assert b in t <==> b in t[..n] || b == t[n];
      assert t[n] !in t[..n];
      assert Holders(tables', b) == Holders(tables, b) - if b == t[n] then {id} else {};
      assert id in Holders(tables, t[n]);
    }
    forall other | other in tables ensures TableFits(tables'[other], info, texts[other], blockSize) {
      assert TableFits(tables[other], info, texts[other], blockSize);
    }
  }

  /** An owed reference is dropped. */
  lemma OwedReleased<B>(f: Files<B>, b: B, tables: map<int, seq<B>>, texts: map<int, Text>, owed: set<B>, blockSize: nat)
    requires FilesOk(f) && Counts(tables, f.info, owed) && Sharing(tables, f.info, texts, blockSize) && b in owed && b in f.info
    ensures f.info[b].refs > 0
    ensures Counts(tables, Released(f, b).info, owed - {b}) && Sharing(tables, Released(f, b).info, texts, blockSize)
  {
    hide FilesOk, HashFits, Holders, Distinct;
    var after := Released(f, b).info;
    assert after == f.info[b := Info(f.info[b].hash, f.info[b].refs - 1)];
    forall id | id in tables ensures TableFits(tables[id], after, texts[id], blockSize) {
      assert TableFits(tables[id], f.info, texts[id], blockSize);
    }
  }

  /** A block held by one sequence alone is rehashed for what it now holds. */
  lemma RehashFits<B>(f: Files<B>, tables: map<int, seq<B>>, texts: map<int, Text>, blockSize: nat, id: int, h: Hash)
    requires Counts(tables, f.info, {}) && Sharing(tables, f.info, texts, blockSize) && id in tables && tables[id] != []
    requires var last := Last(tables[id]); last in f.info && f.info[last].refs == 1
    requires HashFits(h, texts[id], |tables[id]| - 1, blockSize)
    ensures Sharing(tables, Rehashed(f, Last(tables[id]), h).info, texts, blockSize)
    ensures Counts(tables, Rehashed(f, Last(tables[id]), h).info, {})
  {
    hide HashFits;
    var last := Last(tables[id]);
    var after := Rehashed(f, last, h).info;
    assert id in Holders(tables, last);
    forall other | other in tables ensures TableFits(tables[other], after, texts[other], blockSize) {
      assert TableFits(tables[other], f.info, texts[other], blockSize);
      if other != id {
        NotElse(Holders(tables, last), id, other);
      }
    }
  }

  lemma NotElse(holders: set<int>, id: int, other: int)
    requires |holders| == 1 && id in holders && other != id
    ensures other !in holders
  {
    if other in holders {
      SubsetSize({id, other}, holders);
    }
  }

  // ---- forking --------------------------------------------------------------------------------------------------------------

  /** The child holds the first `k` blocks of its parent. */
  lemma ForkNext<B>(f: Files<B>, tables: map<int, seq<B>>, texts: map<int, Text>, blockSize: nat, parent: int, child: int, k: nat)
    requires FilesOk(f) && parent in tables && child in tables && child != parent
    requires k < |tables[parent]| && tables[child] == tables[parent][..k]
    requires Counts(tables, f.info, {}) && Sharing(tables, f.info, texts, blockSize) && texts[child] == texts[parent]
    ensures var b := tables[parent][k];
      && b in f.info && f.info[b].refs > 0 && f.info[b].hash in f.cached && f.cached[f.info[b].hash] == b
      && Counts(tables[child := tables[parent][..k + 1]], Shared(f, f.info[b].hash).info, {})
      && Sharing(tables[child := tables[parent][..k + 1]], Shared(f, f.info[b].hash).info, texts, blockSize)
  {
    hide HashFits, FilesOk, Distinct, Holders;
    var t, b := tables[parent], tables[parent][k];
    assert TableFits(t, f.info, texts[parent], blockSize);
    InHolders(tables, parent, b);
    UsedIsCached(f, b, Holders(tables, b));
    ForkCounts(f.info, tables, parent, child, k);
    ForkFits(f.info, tables, texts, blockSize, parent, child, k);
  }

  lemma InHolders<B>(tables: map<int, seq<B>>, id: int, b: B)
    requires id in tables && b in tables[id]
    ensures id in Holders(tables, b)
  {
  }

  lemma ForkCounts<B>(info: map<B, Info>, tables: map<int, seq<B>>, parent: int, child: int, k: nat)
    requires parent in tables && child in tables && k < |tables[parent]| && tables[child] == tables[parent][..k]
    requires Counts(tables, info, {}) && Distinct(tables[parent]) && tables[parent][k] in info
    ensures var b := tables[parent][k];
      Counts(tables[child := tables[parent][..k + 1]], info[b := Info(info[b].hash, info[b].refs + 1)], {})
  {
    var t, b := tables[parent], tables[parent][k];
    assert t[..k + 1] == tables[child] + [b] && b !in tables[child];
    hide Holders;
    forall c | c in info ensures |Holders(tables[child := t[..k + 1]], c)| == |Holders(tables, c)| + if c == b then 1 else 0 {
      HoldersMore(tables, child, b, c);
    }
  }

  lemma ForkFits<B>(info: map<B, Info>, tables: map<int, seq<B>>, texts: map<int, Text>, blockSize: nat, parent: int, child: int, k: nat)
    requires parent in tables && child in tables && k < |tables[parent]| && texts.Keys == tables.Keys && texts[child] == texts[parent]
    requires Sharing(tables, info, texts, blockSize) && tables[parent][k] in info
    ensures var b := tables[parent][k];
      Sharing(tables[child := tables[parent][..k + 1]], info[b := Info(info[b].hash, info[b].refs + 1)], texts, blockSize)
  {
    hide HashFits;
    var t, b := tables[parent], tables[parent][k];
    var after := info[b := Info(info[b].hash, info[b].refs + 1)];
    forall other | other in tables ensures TableFits(tables[child := t[..k + 1]][other], after, texts[other], blockSize) {
      assert TableFits(tables[other], info, texts[other], blockSize) && TableFits(t, info, texts[parent], blockSize);
    }
  }

  lemma UsedIsCached<B>(f: Files<B>, b: B, holders: set<int>)
    requires FilesOk(f) && b in f.info && f.info[b].refs == |holders| && holders != {}
    ensures f.info[b].refs > 0 && f.info[b].hash in f.cached && f.cached[f.info[b].hash] == b
  {
  }
}
