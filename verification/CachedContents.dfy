/** What the blocks hold with prefix caching: every sequence reads its own entries through its table, also where blocks are
    shared, promoted, replaced or used again after they were free (vllm/core/block_manager_v1.py:268-431). */
module CachedContents {
  import opened Arithmetic
  import opened Blocks
  import opened Paging
  import opened Sequences
  import opened Evictors
  import opened CachedAllocator
  import opened PrefixSharing
  import opened PrefixLaws
  import Swapping

  type Block = PhysicalTokenBlock

  /** The entries of all blocks of the device, by block number. */
  type Memory<K> = seq<seq<K>>

  /** The entries of a token depend on all tokens before it: `e` gives those of the last of some tokens under an adapter. */
  type Entries<!K> = (seq<int>, int) -> K

  ghost function At<K>(m: Memory<K>, b: Block): seq<K> { if 0 <= b.blockNumber < |m| then m[b.blockNumber] else [] }

  /** The slots of a block hold the entries of `t` from place `base` on, as far as place `upto`. */
  ghost predicate Holds<K>(e: Entries<K>, slots: seq<K>, t: Text, base: int, upto: int) {
    forall k | 0 <= k < |slots| && 0 <= base + k < upto && base + k < |t.tokens| :: slots[k] == e(t.tokens[..base + k + 1], t.lora)
  }

  lemma HoldsSame<K>(e: Entries<K>, slots: seq<K>, a: Text, b: Text, base: int, upto: int, upto': int)
    requires Holds(e, slots, a, base, upto) && AgreeUpTo(a, b, upto') && upto' <= upto && upto' <= |a.tokens|
    ensures Holds(e, slots, b, base, upto')
  {
    forall k | 0 <= k < |slots| && 0 <= base + k < upto' && base + k < |b.tokens|
      ensures slots[k] == e(b.tokens[..base + k + 1], b.lora)
    {
      assert a.tokens[..base + k + 1] == b.tokens[..base + k + 1];
    }
  }

  /** The same for a text that is longer or shorter than the other. */
  lemma HoldsPrefix<K>(e: Entries<K>, slots: seq<K>, a: Text, b: Text, base: int, upto: int, upto': int)
    requires Holds(e, slots, a, base, upto) && upto' <= upto && a.lora == b.lora && upto' <= |a.tokens|
    requires a.tokens <= b.tokens || b.tokens <= a.tokens
    ensures Holds(e, slots, b, base, upto')
  {
    HoldsSame(e, slots, a, b, base, upto, upto');
  }

  // ---- the refinement -------------------------------------------------------------------------------------------------

  /** The hashes of the texts that have been filled up by the sequences `recent`, whose newest tokens have no entries yet. */
  ghost function Pending(texts: map<int, Text>, recent: set<int>, blockSize: nat): set<Hash>
    requires blockSize > 0
  {
    set d | d in recent && d in texts && FillsUp(texts[d], blockSize) :: Content(texts[d].tokens, texts[d].lora)
  }

  /** Up to which place a block of hash `h` is right, of the first `n`. */
  ghost function Limit(h: Hash, pending: set<Hash>, n: int): int {
    if h in pending && h.Content? && |h.tokens| - 1 < n then |h.tokens| - 1 else n
  }

  /** A sequence's tokens with entries. */
  ghost function Computed(texts: map<int, Text>, recent: set<int>, id: int): int
    requires id in texts
  {
    |texts[id].tokens| - if id in recent then 1 else 0
  }

  ghost predicate EndsIn(length: nat, i: nat, blockSize: nat) { i * blockSize < length <= (i + 1) * blockSize }

  /** Through its table every sequence reads the entries of its tokens. */
  ghost predicate Shows<K>(e: Entries<K>, s: Shelf<Block>, m: Memory<K>, recent: set<int>, blockSize: nat)
    requires blockSize > 0
  {
    forall id, i: nat | id in s.tables && id in s.texts && i < |s.tables[id]| && s.tables[id][i] in s.info ::
      Holds(e, At(m, s.tables[id][i]), s.texts[id], i * blockSize,
            Limit(s.info[s.tables[id][i]].hash, Pending(s.texts, recent, blockSize), Computed(s.texts, recent, id)))
  }

  /** A block with a hash of contents holds their entries, whether it is in use or not. */
  ghost predicate Remembers<K>(e: Entries<K>, s: Shelf<Block>, m: Memory<K>, recent: set<int>, blockSize: nat)
    requires blockSize > 0
  {
    forall b, i: nat | b in s.info && s.info[b].hash.Content? && EndsIn(|s.info[b].hash.tokens|, i, blockSize) ::
      Holds(e, At(m, b), Text(s.info[b].hash.tokens, s.info[b].hash.lora), i * blockSize,
            Limit(s.info[b].hash, Pending(s.texts, recent, blockSize), |s.info[b].hash.tokens|))
  }

  /** Where a new token is to be written nobody else has a block, or it is the block of all with that text. */
  ghost predicate Stands(s: Shelf<Block>, recent: set<int>, blockSize: nat)
    requires blockSize > 0
  {
    forall d | d in recent :: d in s.tables && d in s.texts && s.tables[d] != [] && |s.texts[d].tokens| > 0
      && if FillsUp(s.texts[d], blockSize)
         then Last(s.tables[d]) in s.info && s.info[Last(s.tables[d])].hash == Content(s.texts[d].tokens, s.texts[d].lora)
         else forall q | q in s.tables && q != d :: Last(s.tables[d]) !in s.tables[q]
  }

  /** The blocks have different numbers below `n`, and different hashes. */
  ghost predicate Located(s: Shelf<Block>, n: nat, blockSize: nat) {
    && ShelfOk(s, blockSize)
    && (forall b | b in s.info :: 0 <= b.blockNumber < n)
    && (forall b, c | b in s.info && c in s.info && b.blockNumber == c.blockNumber :: b == c)
    && forall b, c | b in s.info && c in s.info && s.info[b].hash == s.info[c].hash :: b == c
  }

  ghost predicate Placed<K>(s: Shelf<Block>, m: Memory<K>, blockSize: nat) {
    Located(s, |m|, blockSize) && forall b | b in s.info :: |At(m, b)| == blockSize
  }

  /** The memory is right but for the newest tokens of the sequences `recent`, which are still to be computed. */
  ghost predicate Right<K>(e: Entries<K>, s: Shelf<Block>, m: Memory<K>, recent: set<int>, blockSize: nat) {
    && blockSize > 0 && Placed(s, m, blockSize)
    && Shows(e, s, m, recent, blockSize) && Remembers(e, s, m, recent, blockSize) && Stands(s, recent, blockSize)
  }

  /** For one block in a table. */
  lemma ShowsAt<K>(e: Entries<K>, s: Shelf<Block>, m: Memory<K>, recent: set<int>, blockSize: nat, id: int, i: nat)
    requires blockSize > 0 && Right(e, s, m, recent, blockSize) && id in s.tables && i < |s.tables[id]|
    ensures id in s.texts && s.tables[id][i] in s.info
    ensures Holds(e, At(m, s.tables[id][i]), s.texts[id], i * blockSize,
                  Limit(s.info[s.tables[id][i]].hash, Pending(s.texts, recent, blockSize), Computed(s.texts, recent, id)))
  {
    hide Counts, Covers, Holds, Limit, Pending;
    assert TableFits(s.tables[id], s.info, s.texts[id], blockSize);
  }

  lemma RememberedAt<K>(e: Entries<K>, s: Shelf<Block>, m: Memory<K>, recent: set<int>, blockSize: nat, b: Block, i: nat)
    requires blockSize > 0 && Right(e, s, m, recent, blockSize) && b in s.info && s.info[b].hash.Content?
    requires EndsIn(|s.info[b].hash.tokens|, i, blockSize)
    ensures Holds(e, At(m, b), Text(s.info[b].hash.tokens, s.info[b].hash.lora), i * blockSize,
                  Limit(s.info[b].hash, Pending(s.texts, recent, blockSize), |s.info[b].hash.tokens|))
  {
    hide Counts, Covers, Holds, Limit, Pending;
  }

  // ---- one member gets its slot ---------------------------------------------------------------------------------------

  /** A block that is not full has no hash that is pending. */
  lemma PartNotPending(texts: map<int, Text>, recent: set<int>, blockSize: nat, h: Hash, t: Text, i: nat)
    requires blockSize > 0 && HashFits(h, t, i, blockSize) && |t.tokens| < (i + 1) * blockSize
    ensures h !in Pending(texts, recent, blockSize)
  {
    if h in Pending(texts, recent, blockSize) {
      var d :| d in recent && d in texts && FillsUp(texts[d], blockSize) && h == Content(texts[d].tokens, texts[d].lora);
      FillsUpIs(texts[d], blockSize);
      var n := NumBlocks(|texts[d].tokens|, blockSize);
      assert i * blockSize < n * blockSize < (i + 1) * blockSize;
      LessFactor(i, n, blockSize);
      LessFactor(n, i + 1, blockSize);
    }
  }

  /** The last block before, if the new token belongs to it, is right for the new text but for that token. */
  lemma OldLastHolds<K>(e: Entries<K>, s: Shelf<Block>, m: Memory<K>, recent: set<int>, blockSize: nat, id: int, t: Text)
    requires blockSize > 0 && Right(e, s, m, recent, blockSize) && id in s.tables && id in s.texts && id !in recent
    requires Continued(s.texts[id], t)
    requires |s.tables[id]| == NumBlocks(|t.tokens|, blockSize) > 0
    ensures Last(s.tables[id]) in s.info
    ensures Holds(e, At(m, Last(s.tables[id])), t, (|s.tables[id]| - 1) * blockSize, |t.tokens| - 1)
  {
    hide Counts, Covers, Holds, Pending, Shows, Remembers, Stands;
    var n := |s.tables[id]|;
    BlocksHold(|t.tokens|, blockSize);
    ShowsAt(e, s, m, recent, blockSize, id, n - 1);
    assert TableFits(s.tables[id], s.info, s.texts[id], blockSize);
    PartNotPending(s.texts, recent, blockSize, s.info[Last(s.tables[id])].hash, s.texts[id], n - 1);
    HoldsPrefix(e, At(m, Last(s.tables[id])), s.texts[id], t, (n - 1) * blockSize, |t.tokens| - 1, |t.tokens| - 1);
  }

  /** Whether the last block has to be copied: it is in use by others as well. */
  ghost predicate Copies(s: Shelf<Block>, id: int, n: nat) {
    id in s.tables && |s.tables[id]| == n > 0 && Last(s.tables[id]) in s.info && s.info[Last(s.tables[id])].refs != 1
  }

  /** What the worker has made of the memory: it has copied the last block, if it had to.  If the new block was known it holds
      the same entries without the copy. */
  ghost predicate Followed<K>(s: Shelf<Block>, s': Shelf<Block>, id: int, t: Text, m: Memory<K>, m': Memory<K>, blockSize: nat)
    requires blockSize > 0 && id in s.tables && id in s'.tables && s'.tables[id] != []
  {
    || (m' == m && (Copies(s, id, |s'.tables[id]|) ==> Found(s.info, Last(s'.tables[id]), t, blockSize)))
    || (Copies(s, id, |s'.tables[id]|)
        && 0 <= Last(s'.tables[id]).blockNumber < |m| && 0 <= Last(s.tables[id]).blockNumber < |m|
        && m' == m[Last(s'.tables[id]).blockNumber := m[Last(s.tables[id]).blockNumber]])
  }

  /** The block of the whole text is right but perhaps for the newest token. */
  lemma FoundHolds<K>(e: Entries<K>, s: Shelf<Block>, m: Memory<K>, recent: set<int>, blockSize: nat, last: Block, t: Text, n: nat)
    requires blockSize > 0 && Right(e, s, m, recent, blockSize) && Found(s.info, last, t, blockSize)
    requires n == NumBlocks(|t.tokens|, blockSize) > 0
    ensures Holds(e, At(m, last), t, (n - 1) * blockSize, |t.tokens| - 1)
  {
    hide Right, Holds, Pending, FillsUp;
    assert last in s.info && s.info[last].hash == Content(t.tokens, t.lora);
    BlocksHold(|t.tokens|, blockSize);
    assert EndsIn(|t.tokens|, n - 1, blockSize);
    RememberedAt(e, s, m, recent, blockSize, last, n - 1);
    HoldsPrefix(e, At(m, last), Text(t.tokens, t.lora), t, (n - 1) * blockSize,
                Limit(s.info[last].hash, Pending(s.texts, recent, blockSize), |t.tokens|), |t.tokens| - 1);
  }

  /** The new last block is right but for the new token. */
  lemma NewLastHolds<K>(e: Entries<K>, s: Shelf<Block>, s': Shelf<Block>, id: int, t: Text, m: Memory<K>, m': Memory<K>, recent: set<int>,
                        blockSize: nat)
    requires blockSize > 0 && Right(e, s, m, recent, blockSize) && Appended(s, s', id, t, blockSize)
    requires id !in recent && Continued(s.texts[id], t) && Followed(s, s', id, t, m, m', blockSize)
    ensures Holds(e, At(m', Last(s'.tables[id])), t, (|s'.tables[id]| - 1) * blockSize, |t.tokens| - 1)
  {
    hide Right, Holds, Found, FillsUp, NumBlocks;
    var n, last := |s'.tables[id]|, Last(s'.tables[id]);
    if |s.tables[id]| == n - 1 {
      TableCovers(e, s, m, recent, blockSize, id);
      BlocksHold(|s.texts[id].tokens|, blockSize);
      NothingYet(e, At(m', last), t, (n - 1) * blockSize, |t.tokens| - 1);
    } else {
      OldLastHolds(e, s, m, recent, blockSize, id, t);
      if m' == m && last != Last(s.tables[id]) && (Copies(s, id, n) ==> Found(s.info, last, t, blockSize)) {
        FoundHolds(e, s, m, recent, blockSize, last, t, n);
      }
    }
  }

  lemma TableCovers<K>(e: Entries<K>, s: Shelf<Block>, m: Memory<K>, recent: set<int>, blockSize: nat, id: int)
    requires blockSize > 0 && Right(e, s, m, recent, blockSize) && id in s.tables && id in s.texts
    ensures |s.tables[id]| == NumBlocks(|s.texts[id].tokens|, blockSize)
  {
    hide Sharing, Counts, Shows, Remembers, Stands;
  }

  lemma NothingYet<K>(e: Entries<K>, slots: seq<K>, t: Text, base: int, upto: int)
    requires upto <= base
    ensures Holds(e, slots, t, base, upto)
  {
  }

  lemma PendingGrows(texts: map<int, Text>, recent: set<int>, id: int, t: Text, blockSize: nat)
    requires blockSize > 0 && id !in recent
    ensures Pending(texts, recent, blockSize) <= Pending(texts[id := t], recent + {id}, blockSize)
    ensures FillsUp(t, blockSize) ==> Content(t.tokens, t.lora) in Pending(texts[id := t], recent + {id}, blockSize)
  {
    hide FillsUp;
    forall h | h in Pending(texts, recent, blockSize) ensures h in Pending(texts[id := t], recent + {id}, blockSize) {
      var d :| d in recent && d in texts && FillsUp(texts[d], blockSize) && h == Content(texts[d].tokens, texts[d].lora);
      assert texts[id := t][d] == texts[d];
    }
    if FillsUp(t, blockSize) {
      assert texts[id := t][id] == t;
    }
  }

  lemma LimitFalls(h: Hash, pending: set<Hash>, pending': set<Hash>, n: int)
    requires pending <= pending'
    ensures Limit(h, pending', n) <= Limit(h, pending, n) <= n
    ensures h in pending' && h.Content? ==> Limit(h, pending', n) <= |h.tokens| - 1
  {
  }

  /** Blocks that are not the new last one, and all others if nothing was copied, keep their entries. */
  lemma CellStays<K>(s: Shelf<Block>, s': Shelf<Block>, id: int, t: Text, m: Memory<K>, m': Memory<K>, blockSize: nat, b: Block)
    requires blockSize > 0 && Appended(s, s', id, t, blockSize) && Followed(s, s', id, t, m, m', blockSize) && Placed(s', m, blockSize)
    requires b in s'.info && (b != Last(s'.tables[id]) || m' == m)
    ensures At(m', b) == At(m, b)
  {
    hide ShelfOk, Found, LastIs;
    var last := Last(s'.tables[id]);
    LastInInfo(s, s', id, t, blockSize);
    if m' != m {
      assert b.blockNumber != last.blockNumber;
    }
  }

  lemma LastInInfo(s: Shelf<Block>, s': Shelf<Block>, id: int, t: Text, blockSize: nat)
    requires blockSize > 0 && Appended(s, s', id, t, blockSize)
    ensures s'.tables[id] != [] && Last(s'.tables[id]) in s'.info && Last(s'.tables[id]) in s'.tables[id]
    ensures forall b | b in s'.info && b != Last(s'.tables[id]) :: b in s.info && s'.info[b].hash == s.info[b].hash
  {
    var now := s'.tables[id];
    assert now[|now| - 1] in now;
  }

  /** Another sequence that holds the new last block has the same text there, which fills it up. */
  lemma SharesLast<K>(s: Shelf<Block>, s': Shelf<Block>, id: int, t: Text, m: Memory<K>, blockSize: nat, q: int, j: nat)
    requires blockSize > 0 && Placed(s', m, blockSize) && Appended(s, s', id, t, blockSize)
    requires q in s.tables && q != id && j < |s.tables[q]| && s.tables[q][j] == Last(s'.tables[id])
    ensures FillsUp(t, blockSize) && q in s'.texts && j == |s'.tables[id]| - 1 && AgreeUpTo(t, s'.texts[q], |t.tokens|)
    ensures t.tokens <= s'.texts[q].tokens && t.lora == s'.texts[q].lora
  {
    hide Counts, Covers, Holders, HashFits, FillsUp, NumBlocks;
    var n, last := |s'.tables[id]|, Last(s'.tables[id]);
    assert s'.tables[id][n - 1] in s'.tables[id] && s'.tables[q][j] in s'.tables[q];
    HeldTwice(s', blockSize, id, q, last);
    SharedBlocksAgree(s'.tables, s'.info, s'.texts, blockSize, id, n - 1, q, j);
  }

  /** What another sequence reads. */
  lemma OtherShows<K>(e: Entries<K>, s: Shelf<Block>, s': Shelf<Block>, id: int, t: Text, m: Memory<K>, m': Memory<K>, recent: set<int>,
                      blockSize: nat, q: int, j: nat)
    requires blockSize > 0 && Right(e, s, m, recent, blockSize) && Appended(s, s', id, t, blockSize) && Placed(s', m, blockSize)
    requires id !in recent && Continued(s.texts[id], t) && Followed(s, s', id, t, m, m', blockSize)
    requires q in s.tables && q != id && j < |s.tables[q]|
    ensures q in s'.texts && s.tables[q][j] in s'.info
    ensures Holds(e, At(m', s.tables[q][j]), s'.texts[q], j * blockSize,
                  Limit(s'.info[s.tables[q][j]].hash, Pending(s'.texts, recent + {id}, blockSize), Computed(s'.texts, recent + {id}, q)))
  {
    hide Right, Holds, Pending, FillsUp, NumBlocks, Limit, ShelfOk, Followed, LastIs;
    var b, pending, pending' := s.tables[q][j], Pending(s.texts, recent, blockSize), Pending(s'.texts, recent + {id}, blockSize);
    RightPlaced(e, s, m, recent, blockSize);
    ShowsAt(e, s, m, recent, blockSize, q, j);
    OthersKeepHash(s, s', id, t, blockSize, q, b);
    PendingGrows(s.texts, recent, id, t, blockSize);
    var h, c := s.info[b].hash, Computed(s'.texts, recent + {id}, q);
    assert c == Computed(s.texts, recent, q);
    LimitFalls(h, pending, pending', c);
    if b != Last(s'.tables[id]) || m' == m {
      CellStays(s, s', id, t, m, m', blockSize, b);
      HoldsPrefix(e, At(m', b), s.texts[q], s'.texts[q], j * blockSize, Limit(h, pending, c), Limit(h, pending', c));
    } else {
      SharesLast(s, s', id, t, m, blockSize, q, j);
      NewLastHolds(e, s, s', id, t, m, m', recent, blockSize);
      FilledLast(s, s', id, t, blockSize);
      HoldsPrefix(e, At(m', b), t, s'.texts[q], j * blockSize, |t.tokens| - 1, Limit(h, pending', c));
    }
  }

  lemma FilledLast(s: Shelf<Block>, s': Shelf<Block>, id: int, t: Text, blockSize: nat)
    requires blockSize > 0 && Appended(s, s', id, t, blockSize) && FillsUp(t, blockSize)
    ensures s'.tables[id] != [] && Last(s'.tables[id]) in s'.info && s'.info[Last(s'.tables[id])].hash == Content(t.tokens, t.lora)
  {
  }

  lemma RightPlaced<K>(e: Entries<K>, s: Shelf<Block>, m: Memory<K>, recent: set<int>, blockSize: nat)
    requires Right(e, s, m, recent, blockSize)
    ensures Placed(s, m, blockSize) && ShelfOk(s, blockSize) && Stands(s, recent, blockSize)
    ensures s.texts.Keys == s.tables.Keys
  {
  }

  /** What the member itself reads. */
  lemma OwnShows<K>(e: Entries<K>, s: Shelf<Block>, s': Shelf<Block>, id: int, t: Text, m: Memory<K>, m': Memory<K>, recent: set<int>,
                    blockSize: nat, i: nat, b: Block)
    requires blockSize > 0 && id in s'.tables && i < |s'.tables[id]| && b == s'.tables[id][i]
    requires Appended(s, s', id, t, blockSize) && id !in recent && Continued(s.texts[id], t)
    requires Followed(s, s', id, t, m, m', blockSize) && Placed(s', m, blockSize) && Right(e, s, m, recent, blockSize)
    ensures b in s'.info
    ensures Holds(e, At(m', b), t, i * blockSize, Limit(s'.info[b].hash, Pending(s'.texts, recent + {id}, blockSize), |t.tokens| - 1))
  {
    hide Right, Holds, Pending, FillsUp, NumBlocks, Limit, Followed, LastIs, HashFits, Counts, Covers;
    var was, now, pending, pending' := s.tables[id], s'.tables[id], Pending(s.texts, recent, blockSize),
      Pending(s'.texts, recent + {id}, blockSize);
    var n := |now|;
    assert TableFits(now, s'.info, t, blockSize);
    PendingGrows(s.texts, recent, id, t, blockSize);
    LimitFalls(s'.info[b].hash, pending, pending', |t.tokens| - 1);
    if i == n - 1 {
      NewLastHolds(e, s, s', id, t, m, m', recent, blockSize);
      HoldsPrefix(e, At(m', b), t, t, i * blockSize, |t.tokens| - 1, Limit(s'.info[b].hash, pending', |t.tokens| - 1));
    } else {
      assert was[i] == was[..n - 1][i] == now[..n - 1][i] == b && b != Last(now);
      ShowsAt(e, s, m, recent, blockSize, id, i);
      LastInInfo(s, s', id, t, blockSize);
      CellStays(s, s', id, t, m, m', blockSize, b);
      HoldsPrefix(e, At(m', b), s.texts[id], t, i * blockSize, Limit(s.info[b].hash, pending, |t.tokens| - 1),
                  Limit(s'.info[b].hash, pending', |t.tokens| - 1));
    }
  }

  /** What the blocks with hashes of contents hold. */
  lemma NewRemembers<K>(e: Entries<K>, s: Shelf<Block>, s': Shelf<Block>, id: int, t: Text, m: Memory<K>, m': Memory<K>, recent: set<int>,
                        blockSize: nat, b: Block, h: Hash, i: nat)
    requires h.Content? && EndsIn(|h.tokens|, i, blockSize) && b in s'.info && s'.info[b].hash == h
    requires blockSize > 0 && Appended(s, s', id, t, blockSize) && id !in recent && Continued(s.texts[id], t)
    requires Followed(s, s', id, t, m, m', blockSize) && Placed(s', m, blockSize) && Right(e, s, m, recent, blockSize)
    ensures Holds(e, At(m', b), Text(h.tokens, h.lora), i * blockSize,
                  Limit(h, Pending(s'.texts, recent + {id}, blockSize), |h.tokens|))
  {
    hide Right, Holds, Pending, NumBlocks, Limit, Followed, ShelfOk, LastIs, FillsUp, EndsIn;
    var pending, pending' := Pending(s.texts, recent, blockSize), Pending(s'.texts, recent + {id}, blockSize);
    PendingGrows(s.texts, recent, id, t, blockSize);
    LimitFalls(h, pending, pending', |h.tokens|);
    if b == Last(s'.tables[id]) && FillsUp(t, blockSize) {
      FilledLast(s, s', id, t, blockSize);
      EndsAt(t, |s'.tables[id]|, i, blockSize);
      NewLastHolds(e, s, s', id, t, m, m', recent, blockSize);
      HoldsPrefix(e, At(m', b), t, Text(h.tokens, h.lora), i * blockSize, |t.tokens| - 1, Limit(h, pending', |h.tokens|));
    } else {
      NotTouched(s, s', id, t, m, m', blockSize, b);
      CellStays(s, s', id, t, m, m', blockSize, b);
      RememberedAt(e, s, m, recent, blockSize, b, i);
      HoldsPrefix(e, At(m', b), Text(h.tokens, h.lora), Text(h.tokens, h.lora), i * blockSize, Limit(h, pending, |h.tokens|),
                  Limit(h, pending', |h.tokens|));
    }
  }

  lemma EndsAt(t: Text, n: nat, i: nat, blockSize: nat)
    requires blockSize > 0 && n == NumBlocks(|t.tokens|, blockSize) > 0 && EndsIn(|t.tokens|, i, blockSize)
    ensures i == n - 1
  {
    BlocksHold(|t.tokens|, blockSize);
    SameIndex(i, n - 1, |t.tokens|, blockSize);
  }

  /** A block with a hash of contents that is not the whole text has neither been copied to nor rehashed. */
  lemma NotTouched<K>(s: Shelf<Block>, s': Shelf<Block>, id: int, t: Text, m: Memory<K>, m': Memory<K>, blockSize: nat, b: Block)
    requires blockSize > 0 && Appended(s, s', id, t, blockSize) && Followed(s, s', id, t, m, m', blockSize)
    requires b in s'.info && s'.info[b].hash.Content? && (b != Last(s'.tables[id]) || !FillsUp(t, blockSize))
    ensures b in s.info && s.info[b].hash == s'.info[b].hash && (b != Last(s'.tables[id]) || m' == m)
  {
    hide FillsUp, NumBlocks;
  }

  /** Where the new tokens go is still nobody else's. */
  lemma StandsStill<K>(e: Entries<K>, s: Shelf<Block>, s': Shelf<Block>, id: int, t: Text, m: Memory<K>, recent: set<int>, blockSize: nat)
    requires blockSize > 0 && Right(e, s, m, recent, blockSize) && Appended(s, s', id, t, blockSize) && Placed(s', m, blockSize)
    requires id !in recent && Continued(s.texts[id], t)
    ensures Stands(s', recent + {id}, blockSize)
  {
    hide Right, NumBlocks, ShelfOk, FillsUp, LastIs;
    RightPlaced(e, s, m, recent, blockSize);
    LastInInfo(s, s', id, t, blockSize);
    forall d | d in recent + {id}
      ensures d in s'.tables && d in s'.texts && s'.tables[d] != [] && |s'.texts[d].tokens| > 0
      ensures FillsUp(s'.texts[d], blockSize) ==>
        Last(s'.tables[d]) in s'.info && s'.info[Last(s'.tables[d])].hash == Content(s'.texts[d].tokens, s'.texts[d].lora)
      ensures !FillsUp(s'.texts[d], blockSize) ==> forall q | q in s'.tables && q != d :: Last(s'.tables[d]) !in s'.tables[q]
    {
      if d == id {
        LastStands(s, s', id, t, m, blockSize);
      } else {
        assert s.tables[d][|s.tables[d]| - 1] in s.tables[d];
        OthersKeepHash(s, s', id, t, blockSize, d, Last(s.tables[d]));
        if !FillsUp(s.texts[d], blockSize) {
          NotTakenUp(s, s', id, t, m, blockSize, d);
        }
      }
    }
  }

  lemma LastStands<K>(s: Shelf<Block>, s': Shelf<Block>, id: int, t: Text, m: Memory<K>, blockSize: nat)
    requires blockSize > 0 && Appended(s, s', id, t, blockSize) && Placed(s', m, blockSize)
    ensures FillsUp(t, blockSize) ==> s'.info[Last(s'.tables[id])].hash == Content(t.tokens, t.lora)
    ensures !FillsUp(t, blockSize) ==> forall q | q in s'.tables && q != id :: Last(s'.tables[id]) !in s'.tables[q]
  {
    hide ShelfOk, FillsUp, NumBlocks;
    var last := Last(s'.tables[id]);
    assert s'.tables[id][|s'.tables[id]| - 1] in s'.tables[id];
    if !FillsUp(t, blockSize) {
      forall q | q in s'.tables && q != id ensures last !in s'.tables[q] {
        if last in s'.tables[q] {
          HeldTwice(s', blockSize, id, q, last);
        }
      }
    }
  }

  /** The last block of a text that does not fill it up is not taken up by another sequence. */
  lemma NotTakenUp<K>(s: Shelf<Block>, s': Shelf<Block>, id: int, t: Text, m: Memory<K>, blockSize: nat, d: int)
    requires blockSize > 0 && Appended(s, s', id, t, blockSize) && Placed(s, m, blockSize) && d in s.tables && d in s.texts && d != id
    requires s.tables[d] != [] && !FillsUp(s.texts[d], blockSize)
    requires forall q | q in s.tables && q != d :: Last(s.tables[d]) !in s.tables[q]
    ensures forall q | q in s'.tables && q != d :: Last(s.tables[d]) !in s'.tables[q]
  {
    hide Counts, Holders, FillsUp, NumBlocks, Covers;
    var mine, was, now := Last(s.tables[d]), s.tables[id], s'.tables[id];
    assert s.tables[d][|s.tables[d]| - 1] in s.tables[d];
    HeldCounted(s, blockSize, d, mine);
    if mine in now {
      OldOrLast(was, now, mine);
      if Found(s.info, mine, t, blockSize) {
        PartNotWhole(s, blockSize, d, mine, t);
      }
    }
  }

  lemma OldOrLast(was: BlockTable, now: BlockTable, b: Block)
    requires now != [] && |was| >= |now| - 1 && was[..|now| - 1] == now[..|now| - 1] && b in now
    ensures b in was || b == Last(now)
    ensures was != [] ==> Last(was) in was
  {
    var k: nat :| k < |now| && now[k] == b;
    if k < |now| - 1 {
      assert was[k] == was[..|now| - 1][k] == now[..|now| - 1][k];
    }
  }

  lemma PartNotWhole(s: Shelf<Block>, blockSize: nat, d: int, mine: Block, t: Text)
    requires blockSize > 0 && ShelfOk(s, blockSize) && d in s.tables && d in s.texts && s.tables[d] != [] && mine == Last(s.tables[d])
    requires Found(s.info, mine, t, blockSize)
    ensures FillsUp(s.texts[d], blockSize)
  {
    hide Counts;
    var n, i := NumBlocks(|t.tokens|, blockSize), |s.tables[d]| - 1;
    assert TableFits(s.tables[d], s.info, s.texts[d], blockSize);
    assert HashFits(s.info[mine].hash, s.texts[d], i, blockSize);
    FillsUpIs(t, blockSize);
    FillsUpIs(s.texts[d], blockSize);
    BlocksHold(|t.tokens|, blockSize);
    BlocksHold(|s.texts[d].tokens|, blockSize);
    SameIndex(n - 1, i, |t.tokens|, blockSize);
  }

  /** After `append_slots` for a sequence that has got a token, and the copy if it asks for one, the memory is right but for
      the new token. */
  lemma MemberKeeps<K>(e: Entries<K>, s: Shelf<Block>, s': Shelf<Block>, id: int, t: Text, m: Memory<K>, m': Memory<K>, recent: set<int>,
                       blockSize: nat)
    requires blockSize > 0 && Right(e, s, m, recent, blockSize) && Appended(s, s', id, t, blockSize) && Placed(s', m, blockSize)
    requires id !in recent && Continued(s.texts[id], t) && Followed(s, s', id, t, m, m', blockSize)
    ensures Right(e, s', m', recent + {id}, blockSize)
  {
    hide ShelfOk, Holds, Pending, NumBlocks, Limit, LastIs, Followed, FillsUp;
    RightPlaced(e, s, m, recent, blockSize);
    PlacedAfter(s, s', id, t, m, m', blockSize);
    StandsStill(e, s, s', id, t, m, recent, blockSize);
    forall q, i: nat | q in s'.tables && q in s'.texts && i < |s'.tables[q]| && s'.tables[q][i] in s'.info
      ensures Holds(e, At(m', s'.tables[q][i]), s'.texts[q], i * blockSize,
                    Limit(s'.info[s'.tables[q][i]].hash, Pending(s'.texts, recent + {id}, blockSize), Computed(s'.texts, recent + {id}, q)))
    {
      if q == id {
        OwnShows(e, s, s', id, t, m, m', recent, blockSize, i, s'.tables[id][i]);
      } else {
        OtherShows(e, s, s', id, t, m, m', recent, blockSize, q, i);
      }
    }
    forall b, i: nat | b in s'.info && s'.info[b].hash.Content? && EndsIn(|s'.info[b].hash.tokens|, i, blockSize)
      ensures Holds(e, At(m', b), Text(s'.info[b].hash.tokens, s'.info[b].hash.lora), i * blockSize,
                    Limit(s'.info[b].hash, Pending(s'.texts, recent + {id}, blockSize), |s'.info[b].hash.tokens|))
    {
      NewRemembers(e, s, s', id, t, m, m', recent, blockSize, b, s'.info[b].hash, i);
    }
  }

  lemma PlacedAfter<K>(s: Shelf<Block>, s': Shelf<Block>, id: int, t: Text, m: Memory<K>, m': Memory<K>, blockSize: nat)
    requires blockSize > 0 && Appended(s, s', id, t, blockSize) && Followed(s, s', id, t, m, m', blockSize)
    requires Placed(s, m, blockSize) && Placed(s', m, blockSize)
    ensures Placed(s', m', blockSize) && |m'| == |m|
  {
    hide ShelfOk, LastIs, Found;
  }

  // ---- the members of a group -----------------------------------------------------------------------------------------

  /** The members `ids` get their slots one after the other; `trail` are the states before, between and after. */
  ghost predicate Turns(trail: seq<Shelf<Block>>, ids: seq<int>, ts: seq<Text>, blockSize: nat) {
    && blockSize > 0 && |trail| == |ids| + 1 && |ts| == |ids| && Distinct(ids)
    && (forall k: nat | k < |ids| :: Appended(trail[k], trail[k + 1], ids[k], ts[k], blockSize))
    && forall k: nat | k < |ids| :: ids[k] in trail[0].texts && ids[k] in trail[0].tables && Continued(trail[0].texts[ids[k]], ts[k])
  }

  /** The copy that `append_slots` asks for (412-418). */
  ghost function CopyFor(s: Shelf<Block>, s': Shelf<Block>, id: int): map<int, seq<int>>
    requires id in s'.tables && s'.tables[id] != []
  {
    if Copies(s, id, |s'.tables[id]|) then map[Last(s.tables[id]).blockNumber := [Last(s'.tables[id]).blockNumber]] else map[]
  }

  /** One of the copies is from block `a` to block `b`. */
  ghost predicate Says(copies: seq<map<int, seq<int>>>, a: int, b: int) {
    exists k | 0 <= k < |copies| :: a in copies[k] && b in copies[k][a]
  }

  /** A block holds what one of its sources held, or what it held itself. */
  ghost predicate Filled<K>(m: Memory<K>, copies: seq<map<int, seq<int>>>, b: nat, slots: seq<K>)
    requires b < |m|
  {
    if exists a | 0 <= a < |m| :: Says(copies, a, b) then exists a | 0 <= a < |m| :: Says(copies, a, b) && slots == m[a] else slots == m[b]
  }

  /** The worker has carried out the copies, as if all at once: in what order, and which of several sources of one block wins,
      is open. */
  ghost predicate Carried<K>(m: Memory<K>, copies: seq<map<int, seq<int>>>, m': Memory<K>) {
    |m'| == |m| && forall b: nat | b < |m| :: Filled(m, copies, b, m'[b])
  }

  lemma SaysMore(copies: seq<map<int, seq<int>>>, c: map<int, seq<int>>, a: int, b: int)
    ensures Says(copies + [c], a, b) <==> Says(copies, a, b) || (a in c && b in c[a])
  {
    var all := copies + [c];
    if a in c && b in c[a] {
      assert all[|copies|] == c;
    }
    if Says(copies, a, b) {
      var k :| 0 <= k < |copies| && a in copies[k] && b in copies[k][a];
      assert all[k] == copies[k];
    }
  }

  lemma NoCopyMore<K>(m: Memory<K>, copies: seq<map<int, seq<int>>>, m': Memory<K>)
    requires Carried(m, copies + [map[]], m')
    ensures Carried(m, copies, m')
  {
    hide Says;
    forall b: nat | b < |m| ensures Filled(m, copies, b, m'[b]) {
      assert Filled(m, copies + [map[]], b, m'[b]);
      forall a ensures Says(copies + [map[]], a, b) <==> Says(copies, a, b) {
        SaysMore(copies, map[], a, b);
      }
    }
  }

  /** The memory before the last of the copies, whose source none of the others writes to. */
  lemma BeforeCopy<K>(m: Memory<K>, copies: seq<map<int, seq<int>>>, src: nat, dst: nat, m': Memory<K>) returns (mid: Memory<K>)
    requires src < |m| && dst < |m| && src != dst && forall a :: !Says(copies, a, src)
    requires Carried(m, copies + [map[src := [dst]]], m')
    ensures Carried(m, copies, mid)
    ensures m' == mid[dst := mid[src]] || (m' == mid && exists a | 0 <= a < |m| :: Says(copies, a, dst))
  {
    hide Says;
    var all := copies + [map[src := [dst]]];
    forall a, b ensures Says(all, a, b) <==> Says(copies, a, b) || (a == src && b == dst) {
      SaysMore(copies, map[src := [dst]], a, b);
    }
    assert Filled(m, all, src, m'[src]) && Filled(m, all, dst, m'[dst]);
    assert Says(all, src, dst);
    var x :| 0 <= x < |m| && Says(all, x, dst) && m'[dst] == m[x];
    if exists a | 0 <= a < |m| :: Says(copies, a, dst) {
      var y :| 0 <= y < |m| && Says(copies, y, dst);
      mid := if Says(copies, x, dst) then m' else m'[dst := m[y]];
    } else {
      mid := m'[dst := m[dst]];
    }
    forall b: nat | b < |m| ensures Filled(m, copies, b, mid[b]) {
      assert Filled(m, all, b, m'[b]);
    }
  }

  lemma {:induction false} Unmoved(trail: seq<Shelf<Block>>, ids: seq<int>, ts: seq<Text>, blockSize: nat, j: nat, k: nat, q: int)
    requires Turns(trail, ids, ts, blockSize) && j <= k <= |ids| && q in trail[j].tables && q in trail[j].texts && q !in ids[j..k]
    ensures q in trail[k].tables && trail[k].tables[q] == trail[j].tables[q]
    ensures q in trail[k].texts && trail[k].texts[q] == trail[j].texts[q]
    decreases k
  {
    if j < k {
      assert ids[j..k][k - 1 - j] == ids[k - 1];
      assert forall x | x in ids[j..k - 1] :: x in ids[j..k];
      Unmoved(trail, ids, ts, blockSize, j, k - 1, q);
      assert Appended(trail[k - 1], trail[k], ids[k - 1], ts[k - 1], blockSize);
    }
  }

  /** A member has its old table and text until its turn comes. */
  lemma BeforeTurn(trail: seq<Shelf<Block>>, ids: seq<int>, ts: seq<Text>, blockSize: nat, j: nat, k: nat)
    requires Turns(trail, ids, ts, blockSize) && j <= k < |ids|
    ensures ids[k] in trail[j].tables && trail[j].tables[ids[k]] == trail[0].tables[ids[k]]
    ensures ids[k] in trail[j].texts && trail[j].texts[ids[k]] == trail[0].texts[ids[k]]
    ensures ids[k] !in ids[..j]
  {
    assert ids[0..j] == ids[..j];
    Unmoved(trail, ids, ts, blockSize, 0, j, ids[k]);
  }

  /** A copy does not go to a last block that is not full. */
  lemma TargetNotPart(s: Shelf<Block>, s': Shelf<Block>, id: int, t: Text, blockSize: nat, q: int)
    requires blockSize > 0 && ShelfOk(s, blockSize) && Appended(s, s', id, t, blockSize) && Copies(s, id, |s'.tables[id]|)
    requires q in s.tables && q in s.texts && s.tables[q] != [] && !FillsUp(s.texts[q], blockSize)
    ensures Last(s'.tables[id]) != Last(s.tables[q])
  {
    hide Counts, Sharing, Covers, Holders, FillsUp, NumBlocks;
    var mine := Last(s.tables[q]);
    assert s.tables[q][|s.tables[q]| - 1] in s.tables[q];
    HeldCounted(s, blockSize, q, mine);
    if Last(s'.tables[id]) == mine && Found(s.info, mine, t, blockSize) {
      PartNotWhole(s, blockSize, q, mine, t);
    }
  }

  /** A last block to which a token can be added is not full. */
  lemma OldPart(s: Shelf<Block>, id: int, t: Text, blockSize: nat)
    requires blockSize > 0 && ShelfOk(s, blockSize) && id in s.tables && id in s.texts && Continued(s.texts[id], t)
    requires |s.tables[id]| == NumBlocks(|t.tokens|, blockSize)
    ensures !FillsUp(s.texts[id], blockSize)
  {
    hide Counts, Sharing;
    FillsUpIs(s.texts[id], blockSize);
    BlocksHold(|t.tokens|, blockSize);
  }

  /** The copies of the first `k` members. */
  ghost predicate Asked(trail: seq<Shelf<Block>>, ids: seq<int>, copies: seq<map<int, seq<int>>>, k: nat) {
    && |trail| == |ids| + 1 && |copies| == |ids| && k <= |ids|
    && forall j: nat | j < k :: ids[j] in trail[j + 1].tables && trail[j + 1].tables[ids[j]] != []
                                && copies[j] == CopyFor(trail[j], trail[j + 1], ids[j])
  }

  /** The memory and its blocks at all times. */
  ghost predicate Housed<K>(trail: seq<Shelf<Block>>, m: Memory<K>, blockSize: nat) {
    && (forall b: nat | b < |m| :: |m[b]| == blockSize)
    && forall k: nat | k < |trail| :: Located(trail[k], |m|, blockSize)
  }

  lemma HousedAt<K>(trail: seq<Shelf<Block>>, m: Memory<K>, blockSize: nat, k: nat)
    requires Housed(trail, m, blockSize) && k < |trail|
    ensures Placed(trail[k], m, blockSize) && Located(trail[k], |m|, blockSize)
  {
    hide ShelfOk;
  }

  /** Whoever asked for a copy holds the block it goes to from then on. */
  lemma TargetHeld<K>(trail: seq<Shelf<Block>>, ids: seq<int>, ts: seq<Text>, copies: seq<map<int, seq<int>>>, m: Memory<K>,
                      blockSize: nat, k: nat, a: int, b: int)
    returns (j: nat)
    requires Turns(trail, ids, ts, blockSize) && Asked(trail, ids, copies, |ids|) && Housed(trail, m, blockSize) && k <= |ids|
    requires Says(copies[..k], a, b)
    ensures j < k && Copies(trail[j], ids[j], |trail[j + 1].tables[ids[j]]|)
    ensures ids[j] in trail[j + 1].tables && trail[j + 1].tables[ids[j]] != [] && Last(trail[j + 1].tables[ids[j]]).blockNumber == b
    ensures ids[j] in trail[k].tables && trail[k].tables[ids[j]] == trail[j + 1].tables[ids[j]]
  {
    hide Appended, Placed, Located, Copies, Housed;
    var i :| 0 <= i < |copies[..k]| && a in copies[..k][i] && b in copies[..k][i][a];
    j := i;
    assert copies[..k][j] == copies[j];
    assert Appended(trail[j], trail[j + 1], ids[j], ts[j], blockSize);
    HasText(trail[j], trail[j + 1], ids[j], ts[j], blockSize);
    assert ids[j] !in ids[j + 1..k];
    Unmoved(trail, ids, ts, blockSize, j + 1, k, ids[j]);
  }

  lemma HasText(s: Shelf<Block>, s': Shelf<Block>, id: int, t: Text, blockSize: nat)
    requires blockSize > 0 && Appended(s, s', id, t, blockSize)
    ensures id in s.tables && id in s.texts && id in s'.tables && id in s'.texts && s'.tables[id] != [] && s'.texts[id] == t
    ensures |s'.tables[id]| == NumBlocks(|t.tokens|, blockSize)
  {
  }

  /** The source of a member's copy has not been copied to before. */
  lemma SourceSpared<K>(trail: seq<Shelf<Block>>, ids: seq<int>, ts: seq<Text>, copies: seq<map<int, seq<int>>>, m: Memory<K>,
                        blockSize: nat, k: nat, a: int)
    requires Turns(trail, ids, ts, blockSize) && Asked(trail, ids, copies, |ids|) && Housed(trail, m, blockSize)
    requires k < |ids| && ids[k] in trail[k + 1].tables && Copies(trail[k], ids[k], |trail[k + 1].tables[ids[k]]|)
    ensures !Says(copies[..k], a, Last(trail[k].tables[ids[k]]).blockNumber)
  {
    hide Appended, LastIs, ShelfOk;
    var last := Last(trail[k].tables[ids[k]]);
    HousedAt(trail, m, blockSize, k);
    assert Appended(trail[k], trail[k + 1], ids[k], ts[k], blockSize);
    HasText(trail[k], trail[k + 1], ids[k], ts[k], blockSize);
    BeforeTurn(trail, ids, ts, blockSize, k, k);
    OldPart(trail[k], ids[k], ts[k], blockSize);
    LastHeld(trail[k], blockSize, ids[k]);
    if Says(copies[..k], a, last.blockNumber) {
      var j := TargetHeld(trail, ids, ts, copies, m, blockSize, k, a, last.blockNumber);
      LastHeld(trail[k], blockSize, ids[j]);
      BeforeTurn(trail, ids, ts, blockSize, j, k);
      HousedAt(trail, m, blockSize, j);
      assert Appended(trail[j], trail[j + 1], ids[j], ts[j], blockSize);
      TargetNotPart(trail[j], trail[j + 1], ids[j], ts[j], blockSize, ids[k]);
    }
  }

  lemma LastHeld(s: Shelf<Block>, blockSize: nat, id: int)
    requires ShelfOk(s, blockSize) && id in s.tables && s.tables[id] != []
    ensures Last(s.tables[id]) in s.info && s.info[Last(s.tables[id])].refs > 0
  {
    var t := s.tables[id];
    assert t[|t| - 1] in t;
    HeldCounted(s, blockSize, id, Last(t));
  }

  /** What a member's turn makes of the memory, given what was carried out before. */
  lemma TurnFollowed<K>(trail: seq<Shelf<Block>>, ids: seq<int>, ts: seq<Text>, copies: seq<map<int, seq<int>>>, m: Memory<K>,
                        blockSize: nat, k: nat, m': Memory<K>)
    returns (mid: Memory<K>)
    requires Turns(trail, ids, ts, blockSize) && Asked(trail, ids, copies, |ids|) && Housed(trail, m, blockSize)
    requires k < |ids| && Carried(m, copies[..k + 1], m')
    ensures Carried(m, copies[..k], mid)
    ensures ids[k] in trail[k].tables && ids[k] in trail[k + 1].tables && trail[k + 1].tables[ids[k]] != []
    ensures Followed(trail[k], trail[k + 1], ids[k], ts[k], mid, m', blockSize)
  {
    hide Appended, Placed, Located, Says, Filled;
    var s, s', id, t := trail[k], trail[k + 1], ids[k], ts[k];
    assert Appended(s, s', id, t, blockSize);
    HasText(s, s', id, t, blockSize);
    assert copies[..k + 1] == copies[..k] + [copies[k]];
    if !Copies(s, id, |s'.tables[id]|) {
      NoCopyMore(m, copies[..k], m');
      mid := m';
    } else {
      var last, next := Last(s.tables[id]), Last(s'.tables[id]);
      NumbersDiffer(trail, ids, ts, m, blockSize, k);
      forall a ensures !Says(copies[..k], a, last.blockNumber) {
        SourceSpared(trail, ids, ts, copies, m, blockSize, k, a);
      }
      mid := BeforeCopy(m, copies[..k], last.blockNumber, next.blockNumber, m');
      if m' == mid && exists a | 0 <= a < |m| :: Says(copies[..k], a, next.blockNumber) {
        var a :| 0 <= a < |m| && Says(copies[..k], a, next.blockNumber);
        KnownAgain(trail, ids, ts, copies, m, blockSize, k, a);
      }
    }
  }

  lemma NumbersDiffer<K>(trail: seq<Shelf<Block>>, ids: seq<int>, ts: seq<Text>, m: Memory<K>, blockSize: nat, k: nat)
    requires Turns(trail, ids, ts, blockSize) && Housed(trail, m, blockSize) && k < |ids|
    requires ids[k] in trail[k + 1].tables && Copies(trail[k], ids[k], |trail[k + 1].tables[ids[k]]|)
    ensures trail[k].tables[ids[k]] != [] && trail[k + 1].tables[ids[k]] != []
    ensures var a, b := Last(trail[k].tables[ids[k]]).blockNumber, Last(trail[k + 1].tables[ids[k]]).blockNumber;
      0 <= a < |m| && 0 <= b < |m| && a != b
  {
    hide LastIs, ShelfOk, Appended;
    var s, s', id, t := trail[k], trail[k + 1], ids[k], ts[k];
    HousedAt(trail, m, blockSize, k);
    HousedAt(trail, m, blockSize, k + 1);
    assert Appended(s, s', id, t, blockSize);
    HasText(s, s', id, t, blockSize);
    BeforeTurn(trail, ids, ts, blockSize, k, k);
    OldPart(s, id, t, blockSize);
    TargetNotPart(s, s', id, t, blockSize, id);
    LastHeld(s, blockSize, id);
    LastHeld(s', blockSize, id);
    StillThere(s, s', id, t, blockSize, Last(s.tables[id]));
  }

  /** The block that was copied stays on the device. */
  lemma StillThere(s: Shelf<Block>, s': Shelf<Block>, id: int, t: Text, blockSize: nat, b: Block)
    requires blockSize > 0 && Appended(s, s', id, t, blockSize) && b in s.info
    ensures b in s'.info
  {
  }

  /** A block that was copied to before was known when it was taken again. */
  lemma KnownAgain<K>(trail: seq<Shelf<Block>>, ids: seq<int>, ts: seq<Text>, copies: seq<map<int, seq<int>>>, m: Memory<K>,
                      blockSize: nat, k: nat, a: int)
    requires Turns(trail, ids, ts, blockSize) && Asked(trail, ids, copies, |ids|) && Housed(trail, m, blockSize)
    requires k < |ids| && ids[k] in trail[k + 1].tables && Copies(trail[k], ids[k], |trail[k + 1].tables[ids[k]]|)
    requires trail[k + 1].tables[ids[k]] != [] && Says(copies[..k], a, Last(trail[k + 1].tables[ids[k]]).blockNumber)
    ensures Found(trail[k].info, Last(trail[k + 1].tables[ids[k]]), ts[k], blockSize)
  {
    hide ShelfOk, FillsUp;
    var s, s', last := trail[k], trail[k + 1], Last(trail[k + 1].tables[ids[k]]);
    HousedAt(trail, m, blockSize, k);
    HousedAt(trail, m, blockSize, k + 1);
    assert Appended(s, s', ids[k], ts[k], blockSize);
    var j := TargetHeld(trail, ids, ts, copies, m, blockSize, k, a, last.blockNumber);
    LastHeld(s, blockSize, ids[j]);
    LastHeld(s', blockSize, ids[k]);
    StillThere(s, s', ids[k], ts[k], blockSize, Last(s.tables[ids[j]]));
  }

  /** After `append_slots` for the members of a group, each a token longer, and all the copies, the memory is right but for the
      new tokens. */
  lemma {:induction false} CopiesServe<K>(e: Entries<K>, trail: seq<Shelf<Block>>, ids: seq<int>, ts: seq<Text>,
                                          copies: seq<map<int, seq<int>>>, m: Memory<K>, m': Memory<K>, blockSize: nat, k: nat)
    requires Turns(trail, ids, ts, blockSize) && Asked(trail, ids, copies, |ids|) && Housed(trail, m, blockSize)
    requires Right(e, trail[0], m, {}, blockSize) && k <= |ids| && Carried(m, copies[..k], m')
    ensures Right(e, trail[k], m', Elements(ids[..k]), blockSize)
    decreases k
  {
    hide Right, Appended, Placed, Located, Says, Filled, Followed;
    if k == 0 {
      assert copies[..0] == [] && Elements(ids[..0]) == {};
      NothingCarried(m, m');
    } else {
      var j := k - 1;
      var mid := TurnFollowed(trail, ids, ts, copies, m, blockSize, j, m');
      CopiesServe(e, trail, ids, ts, copies, m, mid, blockSize, j);
      assert Appended(trail[j], trail[k], ids[j], ts[j], blockSize);
      BeforeTurn(trail, ids, ts, blockSize, j, j);
      assert ids[j] !in Elements(ids[..j]);
      Swapping.ElementsOfPrefix(ids, j);
      HousedAt(trail, m, blockSize, k);
      SameShape(m, copies[..j], mid, trail[k], blockSize);
      MemberKeeps(e, trail[j], trail[k], ids[j], ts[j], mid, m', Elements(ids[..j]), blockSize);
    }
  }

  lemma NothingCarried<K>(m: Memory<K>, m': Memory<K>)
    requires Carried(m, [], m')
    ensures m' == m
  {
    forall b: nat | b < |m| ensures m'[b] == m[b] {
      assert Filled(m, [], b, m'[b]);
    }
  }

  lemma SameShape<K>(m: Memory<K>, copies: seq<map<int, seq<int>>>, m': Memory<K>, s: Shelf<Block>, blockSize: nat)
    requires Carried(m, copies, m') && Placed(s, m, blockSize) && forall b: nat | b < |m| :: |m[b]| == blockSize
    ensures Placed(s, m', blockSize)
  {
    hide ShelfOk;
    forall b | b in s.info ensures 0 <= b.blockNumber < |m'| && |m'[b.blockNumber]| == blockSize {
      assert Filled(m, copies, b.blockNumber, m'[b.blockNumber]);
    }
  }

  // ---- the new tokens are computed ------------------------------------------------------------------------------------

  ghost function Written<K>(m: Memory<K>, b: Block, slot: int, x: K): Memory<K> {
    if 0 <= b.blockNumber < |m| && 0 <= slot < |m[b.blockNumber]| then m[b.blockNumber := m[b.blockNumber][slot := x]] else m
  }

  /** The memory once the model has written the entries of the newest token of `d` through its table. */
  ghost function Stored<K>(e: Entries<K>, s: Shelf<Block>, m: Memory<K>, d: int, blockSize: nat): Memory<K>
    requires d in s.tables && d in s.texts && s.tables[d] != []
  {
    Written(m, Last(s.tables[d]), |s.texts[d].tokens| - 1 - (|s.tables[d]| - 1) * blockSize, e(s.texts[d].tokens, s.texts[d].lora))
  }

  /** A slot is written for the last token of `t`. */
  lemma HoldsWritten<K>(e: Entries<K>, slots: seq<K>, slot: nat, t: Text, a: Text, base: int, upto: int, upto': int)
    requires Holds(e, slots, a, base, upto) && slot < |slots| && base + slot == |t.tokens| - 1 >= 0
    requires |t.tokens| <= |a.tokens| ==> t.tokens <= a.tokens && t.lora == a.lora
    requires upto' <= upto || (|t.tokens| - 1 <= upto && (upto' <= |t.tokens| || base + |slots| <= |t.tokens|))
    ensures Holds(e, slots[slot := e(t.tokens, t.lora)], a, base, upto')
  {
    var after := slots[slot := e(t.tokens, t.lora)];
    forall k | 0 <= k < |after| && 0 <= base + k < upto' && base + k < |a.tokens|
      ensures after[k] == e(a.tokens[..base + k + 1], a.lora)
    {
      if k == slot {
        assert a.tokens[..base + k + 1] == t.tokens;
      } else {
        assert after[k] == slots[k];
      }
    }
  }

  /** A block that ends before place `end` is right up to any later place if it is up to that one. */
  lemma HoldsEarlier<K>(e: Entries<K>, slots: seq<K>, t: Text, base: int, upto: int, upto': int)
    requires Holds(e, slots, t, base, upto) && (base + |slots| <= upto || upto' <= upto)
    ensures Holds(e, slots, t, base, upto')
  {
  }

  /** The slot of the newest token. */
  lemma NewestSlot<K>(e: Entries<K>, s: Shelf<Block>, m: Memory<K>, recent: set<int>, blockSize: nat, d: int)
    requires blockSize > 0 && Right(e, s, m, recent, blockSize) && d in recent
    ensures d in s.tables && d in s.texts && s.tables[d] != [] && |s.tables[d]| == NumBlocks(|s.texts[d].tokens|, blockSize)
    ensures Last(s.tables[d]) in s.info && |At(m, Last(s.tables[d]))| == blockSize && 0 <= Last(s.tables[d]).blockNumber < |m|
    ensures var slot := |s.texts[d].tokens| - 1 - (|s.tables[d]| - 1) * blockSize;
      0 <= slot < blockSize && Stored(e, s, m, d, blockSize) ==
        m[Last(s.tables[d]).blockNumber := At(m, Last(s.tables[d]))[slot := e(s.texts[d].tokens, s.texts[d].lora)]]
  {
    hide Shows, Remembers, Sharing, Counts, NumBlocks;
    BlocksHold(|s.texts[d].tokens|, blockSize);
    RightPlaced(e, s, m, recent, blockSize);
    LastHeld(s, blockSize, d);
    assert |s.tables[d]| * blockSize == (|s.tables[d]| - 1) * blockSize + blockSize;
  }

  /** The other blocks are what they were, and what was pending for their hashes still is. */
  lemma OtherBlock<K>(e: Entries<K>, s: Shelf<Block>, m: Memory<K>, recent: set<int>, blockSize: nat, d: int, b: Block)
    requires blockSize > 0 && Right(e, s, m, recent, blockSize) && d in recent && b in s.info
    ensures d in s.tables && d in s.texts && s.tables[d] != []
    ensures b != Last(s.tables[d]) ==> At(Stored(e, s, m, d, blockSize), b) == At(m, b)
    ensures b != Last(s.tables[d]) ==>
      (s.info[b].hash in Pending(s.texts, recent - {d}, blockSize) <==> s.info[b].hash in Pending(s.texts, recent, blockSize))
  {
    hide Shows, Remembers, ShelfOk, FillsUp, Pending;
    NewestSlot(e, s, m, recent, blockSize, d);
    RightPlaced(e, s, m, recent, blockSize);
    PendingWithout(s.texts, recent, d, blockSize, s.info[b].hash);
  }

  lemma PendingWithout(texts: map<int, Text>, recent: set<int>, d: int, blockSize: nat, h: Hash)
    requires blockSize > 0 && d in recent && d in texts
    ensures h in Pending(texts, recent, blockSize) <==>
            h in Pending(texts, recent - {d}, blockSize) || (FillsUp(texts[d], blockSize) && h == Content(texts[d].tokens, texts[d].lora))
  {
    hide FillsUp;
    if h in Pending(texts, recent, blockSize) {
      var c :| c in recent && c in texts && FillsUp(texts[c], blockSize) && h == Content(texts[c].tokens, texts[c].lora);
      assert c != d ==> c in recent - {d};
    }
  }

  /** Who holds the block that is written. */
  lemma HolderOfNewest<K>(e: Entries<K>, s: Shelf<Block>, m: Memory<K>, recent: set<int>, blockSize: nat, d: int, t: Text, q: int, i: nat)
    requires q in s.tables && i < |s.tables[q]| && d in s.texts && t == s.texts[d]
    requires blockSize > 0 && Right(e, s, m, recent, blockSize) && d in recent
    requires d in s.tables && s.tables[d] != [] && s.tables[q][i] == Last(s.tables[d])
    ensures i == |s.tables[d]| - 1 && q in s.texts && Last(s.tables[d]) in s.info
    ensures q != d ==> FillsUp(t, blockSize) && t.tokens <= s.texts[q].tokens && t.lora == s.texts[q].lora
    ensures var h := s.info[Last(s.tables[d])].hash; if FillsUp(t, blockSize)
      then h == Content(t.tokens, t.lora) && |t.tokens| == |s.tables[d]| * blockSize
      else h !in Pending(s.texts, recent, blockSize) && HashFits(h, t, |s.tables[d]| - 1, blockSize)
  {
    hide Shows, Remembers, Counts, FillsUp, NumBlocks, Pending;
    var n, last := |s.tables[d]|, Last(s.tables[d]);
    assert s.tables[q][i] in s.tables[q];
    assert TableFits(s.tables[d], s.info, t, blockSize) && TableFits(s.tables[q], s.info, s.texts[q], blockSize);
    FillsUpIs(t, blockSize);
    BlocksHold(|t.tokens|, blockSize);
    if q != d {
      SharedBlocksAgree(s.tables, s.info, s.texts, blockSize, d, n - 1, q, i);
    }
    if !FillsUp(t, blockSize) {
      PartNotPending(s.texts, recent, blockSize, s.info[last].hash, t, n - 1);
    }
  }

  lemma CellSize<K>(e: Entries<K>, s: Shelf<Block>, m: Memory<K>, recent: set<int>, blockSize: nat, b: Block)
    requires Right(e, s, m, recent, blockSize) && b in s.info
    ensures |At(m, b)| == blockSize
  {
    hide Shows, Remembers, ShelfOk, Stands;
  }

  /** A table reads the new entry where it has the written block, and otherwise what it read before. */
  lemma StoredShows<K>(e: Entries<K>, s: Shelf<Block>, m: Memory<K>, recent: set<int>, blockSize: nat, d: int, q: int, i: nat, b: Block)
    requires q in s.tables && i < |s.tables[q]| && b == s.tables[q][i]
    requires d in s.tables && d in s.texts && s.tables[d] != [] && q in s.texts && b in s.info
    requires blockSize > 0 && Right(e, s, m, recent, blockSize) && d in recent
    ensures Holds(e, At(Stored(e, s, m, d, blockSize), b), s.texts[q], i * blockSize,
                  Limit(s.info[b].hash, Pending(s.texts, recent - {d}, blockSize), Computed(s.texts, recent - {d}, q)))
  {
    hide Right, Holds, FillsUp, Pending, NumBlocks, Stored, HashFits;
    NewestSlot(e, s, m, recent, blockSize, d);
    ShowsAt(e, s, m, recent, blockSize, q, i);
    OtherBlock(e, s, m, recent, blockSize, d, b);
    CellSize(e, s, m, recent, blockSize, b);
    var t, n, h := s.texts[d], |s.tables[d]|, s.info[b].hash;
    var c, c' := Computed(s.texts, recent, q), Computed(s.texts, recent - {d}, q);
    var limit, limit' := Limit(h, Pending(s.texts, recent, blockSize), c), Limit(h, Pending(s.texts, recent - {d}, blockSize), c');
    BlocksHold(|t.tokens|, blockSize);
    assert (i + 1) * blockSize == i * blockSize + blockSize;
    if b == Last(s.tables[d]) {
      HolderOfNewest(e, s, m, recent, blockSize, d, t, q, i);
      PendingWithout(s.texts, recent, d, blockSize, h);
      HoldsWritten(e, At(m, b), |t.tokens| - 1 - (n - 1) * blockSize, t, s.texts[q], i * blockSize, limit, limit');
    } else if q == d {
      MulAtLeast(i + 1, n - 1, blockSize);
      HoldsEarlier(e, At(m, b), s.texts[q], i * blockSize, limit, limit');
    }
  }

  /** A block with a hash of contents holds them still, with the new entry if it is among them. */
  lemma StoredRemembers<K>(e: Entries<K>, s: Shelf<Block>, m: Memory<K>, recent: set<int>, blockSize: nat, d: int, b: Block, h: Hash,
                           i: nat)
    requires h.Content? && EndsIn(|h.tokens|, i, blockSize) && b in s.info && s.info[b].hash == h
    requires d in s.tables && d in s.texts && s.tables[d] != []
    requires blockSize > 0 && Right(e, s, m, recent, blockSize) && d in recent
    ensures Holds(e, At(Stored(e, s, m, d, blockSize), b), Text(h.tokens, h.lora), i * blockSize,
                  Limit(h, Pending(s.texts, recent - {d}, blockSize), |h.tokens|))
  {
    hide Right, Holds, FillsUp, Pending, NumBlocks, Stored;
    NewestSlot(e, s, m, recent, blockSize, d);
    RememberedAt(e, s, m, recent, blockSize, b, i);
    OtherBlock(e, s, m, recent, blockSize, d, b);
    if b == Last(s.tables[d]) {
      var t, n, a := s.texts[d], |s.tables[d]|, Text(h.tokens, h.lora);
      CellSize(e, s, m, recent, blockSize, b);
      HolderOfNewest(e, s, m, recent, blockSize, d, t, d, n - 1);
      PendingWithout(s.texts, recent, d, blockSize, h);
      SameIndex(i, n - 1, |h.tokens|, blockSize);
      HoldsWritten(e, At(m, b), |t.tokens| - 1 - (n - 1) * blockSize, t, a, i * blockSize,
                   Limit(h, Pending(s.texts, recent, blockSize), |h.tokens|),
                   Limit(h, Pending(s.texts, recent - {d}, blockSize), |h.tokens|));
    }
  }

  /** When the model has computed the newest token of `d`, the memory is right for it as well. */
  lemma StoreKeeps<K>(e: Entries<K>, s: Shelf<Block>, m: Memory<K>, recent: set<int>, blockSize: nat, d: int)
    requires blockSize > 0 && Right(e, s, m, recent, blockSize) && d in recent
    ensures d in s.tables && d in s.texts && s.tables[d] != []
    ensures Right(e, s, Stored(e, s, m, d, blockSize), recent - {d}, blockSize)
  {
    hide Holds, Pending, NumBlocks, Limit, FillsUp, Stored, ShelfOk;
    NewestSlot(e, s, m, recent, blockSize, d);
    var m' := Stored(e, s, m, d, blockSize);
    RightPlaced(e, s, m, recent, blockSize);
    forall q, i: nat | q in s.tables && q in s.texts && i < |s.tables[q]| && s.tables[q][i] in s.info
      ensures Holds(e, At(m', s.tables[q][i]), s.texts[q], i * blockSize,
                    Limit(s.info[s.tables[q][i]].hash, Pending(s.texts, recent - {d}, blockSize), Computed(s.texts, recent - {d}, q)))
    {
      StoredShows(e, s, m, recent, blockSize, d, q, i, s.tables[q][i]);
    }
    forall b, i: nat | b in s.info && s.info[b].hash.Content? && EndsIn(|s.info[b].hash.tokens|, i, blockSize)
      ensures Holds(e, At(m', b), Text(s.info[b].hash.tokens, s.info[b].hash.lora), i * blockSize,
                    Limit(s.info[b].hash, Pending(s.texts, recent - {d}, blockSize), |s.info[b].hash.tokens|))
    {
      StoredRemembers(e, s, m, recent, blockSize, d, b, s.info[b].hash, i);
    }
  }

  /** The model writes the new tokens of the sequences `order`, one after the other. */
  ghost function AllStored<K>(e: Entries<K>, s: Shelf<Block>, m: Memory<K>, order: seq<int>, blockSize: nat): Memory<K>
    requires forall d | d in order :: d in s.tables && d in s.texts && s.tables[d] != []
    decreases order
  {
    if order == [] then m else AllStored(e, s, Stored(e, s, m, order[0], blockSize), order[1..], blockSize)
  }

  /** In whatever order the new tokens are written, the memory is right in the end. */
  lemma {:induction false} StoresServe<K>(e: Entries<K>, s: Shelf<Block>, m: Memory<K>, order: seq<int>, blockSize: nat)
    requires blockSize > 0 && Right(e, s, m, Elements(order), blockSize) && Distinct(order)
    ensures forall d | d in order :: d in s.tables && d in s.texts && s.tables[d] != []
    ensures Right(e, s, AllStored(e, s, m, order, blockSize), {}, blockSize)
    decreases order
  {
    hide Right, Stored;
    if order == [] {
      assert Elements(order) == {};
    } else {
      var d := order[0];
      assert d in Elements(order);
      StoreKeeps(e, s, m, Elements(order), blockSize, d);
      assert Elements(order) - {d} == Elements(order[1..]) by {
        forall x | x in order && x != d ensures x in order[1..] {
          var k :| 0 <= k < |order| && order[k] == x;
          assert order[1..][k - 1] == x;
        }
      }
      StoresServe(e, s, Stored(e, s, m, d, blockSize), order[1..], blockSize);
    }
  }

  /** So a decoding step with prefix caching is right: slots for all members of a group, the copies, the new tokens. */
  lemma GroupServes<K>(e: Entries<K>, trail: seq<Shelf<Block>>, ids: seq<int>, ts: seq<Text>, copies: seq<map<int, seq<int>>>,
                       m: Memory<K>, m': Memory<K>, order: seq<int>, blockSize: nat)
    requires Turns(trail, ids, ts, blockSize) && Asked(trail, ids, copies, |ids|) && Housed(trail, m, blockSize)
    requires Right(e, trail[0], m, {}, blockSize) && Carried(m, copies, m') && Distinct(order) && Elements(order) == Elements(ids)
    ensures forall d | d in order :: d in trail[|ids|].tables && d in trail[|ids|].texts && trail[|ids|].tables[d] != []
    ensures Right(e, trail[|ids|], AllStored(e, trail[|ids|], m', order, blockSize), {}, blockSize)
  {
    hide Right, Turns, Asked, Housed, Carried;
    LengthsAre(trail, ids, ts, copies, blockSize);
    assert copies[..|ids|] == copies && ids[..|ids|] == ids;
    CopiesServe(e, trail, ids, ts, copies, m, m', blockSize, |ids|);
    StoresServe(e, trail[|ids|], m', order, blockSize);
  }

  lemma LengthsAre(trail: seq<Shelf<Block>>, ids: seq<int>, ts: seq<Text>, copies: seq<map<int, seq<int>>>, blockSize: nat)
    requires Turns(trail, ids, ts, blockSize) && Asked(trail, ids, copies, |ids|)
    ensures blockSize > 0 && |copies| == |ids| == |ts| && |trail| == |ids| + 1
  {
  }

  // ---- the order of the copies ----------------------------------------------------------------------------------------

  ghost function Copied<K>(m: Memory<K>, c: map<int, seq<int>>): (r: Memory<K>)
    ensures |r| == |m|
  {
    if exists a, b :: Pair(c, a, b, |m|) then
      var a, b :| Pair(c, a, b, |m|);
      m[b := m[a]]
    else m
  }

  ghost predicate Pair(c: map<int, seq<int>>, a: int, b: int, n: nat) { c == map[a := [b]] && 0 <= a < n && 0 <= b < n }

  /** The copies one after the other. */
  ghost function OneByOne<K>(m: Memory<K>, copies: seq<map<int, seq<int>>>): (r: Memory<K>)
    ensures |r| == |m|
  {
    if copies == [] then m else Copied(OneByOne(m, copies[..|copies| - 1]), copies[|copies| - 1])
  }

  lemma PairIs<K>(m: Memory<K>, src: nat, dst: nat)
    ensures src < |m| && dst < |m| ==> Copied(m, map[src := [dst]]) == m[dst := m[src]]
    ensures Copied(m, map[]) == m
  {
    var c := map[src := [dst]];
    forall a, b ensures !Pair(map[], a, b, |m|) {
      assert a in map[a := [b]];
    }
    if src >= |m| || dst >= |m| {
      return;
    }
    assert Pair(c, src, dst, |m|);
    forall a, b | Pair(c, a, b, |m|) ensures a == src && b == dst {
      assert a in c && c[a] == [b];
    }
  }

  /** One copy more, from a block that none before it went to. */
  lemma CarryOne<K>(m: Memory<K>, copies: seq<map<int, seq<int>>>, mid: Memory<K>, src: nat, dst: nat)
    requires Carried(m, copies, mid) && src < |m| && dst < |m| && forall a :: !Says(copies, a, src)
    ensures Carried(m, copies + [map[src := [dst]]], mid[dst := mid[src]])
  {
    hide Says;
    var all, after := copies + [map[src := [dst]]], mid[dst := mid[src]];
    assert Filled(m, copies, src, mid[src]);
    forall b: nat | b < |m| ensures Filled(m, all, b, after[b]) {
      assert Filled(m, copies, b, mid[b]);
      forall a ensures Says(all, a, b) <==> Says(copies, a, b) || (a == src && b == dst) {
        SaysMore(copies, map[src := [dst]], a, b);
      }
    }
  }

  lemma CarryNone<K>(m: Memory<K>, copies: seq<map<int, seq<int>>>, mid: Memory<K>)
    requires Carried(m, copies, mid)
    ensures Carried(m, copies + [map[]], mid)
  {
    hide Says;
    forall b: nat | b < |m| ensures Filled(m, copies + [map[]], b, mid[b]) {
      assert Filled(m, copies, b, mid[b]);
      forall a ensures Says(copies + [map[]], a, b) <==> Says(copies, a, b) {
        SaysMore(copies, map[], a, b);
      }
    }
  }

  /** In the order of the members the copies may be made one after the other: none reads what one before it has written. */
  lemma {:induction false} InOrderCarries<K>(trail: seq<Shelf<Block>>, ids: seq<int>, ts: seq<Text>, copies: seq<map<int, seq<int>>>,
                                             m: Memory<K>, blockSize: nat, k: nat)
    requires Turns(trail, ids, ts, blockSize) && Asked(trail, ids, copies, |ids|) && Housed(trail, m, blockSize) && k <= |ids|
    ensures Carried(m, copies[..k], OneByOne(m, copies[..k]))
    decreases k
  {
    hide Turns, Asked, Housed, Copied, Says, CopyFor;
    LengthsAre(trail, ids, ts, copies, blockSize);
    if k == 0 {
      assert copies[..0] == [];
      CarriedNone(m);
    } else {
      var j := k - 1;
      InOrderCarries(trail, ids, ts, copies, m, blockSize, j);
      var mid := OneByOne(m, copies[..j]);
      assert copies[..k] == copies[..j] + [copies[j]] && copies[..k][..|copies[..k]| - 1] == copies[..j];
      CopyOrNot(trail, ids, ts, copies, m, blockSize, j);
      if copies[j] == map[] {
        CarryNone(m, copies[..j], mid);
        PairIs(mid, 0, 0);
      } else {
        var last, next := Last(trail[j].tables[ids[j]]), Last(trail[k].tables[ids[j]]);
        forall a ensures !Says(copies[..j], a, last.blockNumber) {
          SourceSpared(trail, ids, ts, copies, m, blockSize, j, a);
        }
        CarryOne(m, copies[..j], mid, last.blockNumber, next.blockNumber);
        PairIs(mid, last.blockNumber, next.blockNumber);
      }
    }
  }

  lemma CarriedNone<K>(m: Memory<K>)
    ensures Carried(m, [], m)
  {
  }

  lemma CopyOrNot<K>(trail: seq<Shelf<Block>>, ids: seq<int>, ts: seq<Text>, copies: seq<map<int, seq<int>>>, m: Memory<K>,
                     blockSize: nat, j: nat)
    requires Turns(trail, ids, ts, blockSize) && Asked(trail, ids, copies, |ids|) && Housed(trail, m, blockSize) && j < |ids|
    ensures ids[j] in trail[j].tables && ids[j] in trail[j + 1].tables && trail[j + 1].tables[ids[j]] != []
    ensures copies[j] != map[] ==>
      && Copies(trail[j], ids[j], |trail[j + 1].tables[ids[j]]|) && trail[j].tables[ids[j]] != []
      && 0 <= Last(trail[j].tables[ids[j]]).blockNumber < |m| && 0 <= Last(trail[j + 1].tables[ids[j]]).blockNumber < |m|
      && copies[j] == map[Last(trail[j].tables[ids[j]]).blockNumber := [Last(trail[j + 1].tables[ids[j]]).blockNumber]]
  {
    hide Appended, Located;
    assert Appended(trail[j], trail[j + 1], ids[j], ts[j], blockSize);
    HasText(trail[j], trail[j + 1], ids[j], ts[j], blockSize);
    if Copies(trail[j], ids[j], |trail[j + 1].tables[ids[j]]|) {
      NumbersDiffer(trail, ids, ts, m, blockSize, j);
    }
  }

  /** In another order they may not: here the source of one copy is the target of the next, and in the other order its own
      contents are lost. */
  lemma OrderMatters<K>(m: Memory<K>, a: nat, b: nat, c: nat)
    requires a < |m| && b < |m| && c < |m| && a != b && a != c && b != c && m[b] != m[c]
    ensures OneByOne(m, [map[b := [a]], map[c := [b]]])[a] == m[b]
    ensures !Carried(m, [map[b := [a]], map[c := [b]]], OneByOne(m, [map[c := [b]], map[b := [a]]]))
  {
    hide OneByOne, Says;
    OneByOneTwice(m, b, a, c, b);
    OneByOneTwice(m, c, b, b, a);
    var copies, wrong := [map[b := [a]], map[c := [b]]], OneByOne(m, [map[c := [b]], map[b := [a]]]);
    assert wrong[a] == m[c];
    forall x ensures Says(copies, x, a) <==> x == b {
      SaysPair(x, a, b, c);
    }
    assert Says(copies, b, a);
    assert !Filled(m, copies, a, wrong[a]);
  }

  lemma SaysPair(x: int, a: int, b: int, c: int)
    requires a != b
    ensures Says([map[b := [a]], map[c := [b]]], x, a) <==> x == b
  {
    SaysMore([map[b := [a]]], map[c := [b]], x, a);
    SaysMore([], map[b := [a]], x, a);
    assert [map[b := [a]]] + [map[c := [b]]] == [map[b := [a]], map[c := [b]]] && [] + [map[b := [a]]] == [map[b := [a]]];
  }

  lemma OneByOneTwice<K>(m: Memory<K>, a: nat, b: nat, c: nat, d: nat)
    requires a < |m| && b < |m| && c < |m| && d < |m|
    ensures var once := m[b := m[a]]; OneByOne(m, [map[a := [b]], map[c := [d]]]) == once[d := once[c]]
  {
    hide Copied;
    var first, second: map<int, seq<int>> := map[a := [b]], map[c := [d]];
    assert [first, second][..1] == [first] && [first][..0] == [];
    assert OneByOne(m, [first]) == Copied(OneByOne(m, []), first);
    assert OneByOne(m, [first, second]) == Copied(OneByOne(m, [first]), second);
    PairIs(m, a, b);
    PairIs(m[b := m[a]], c, d);
  }

  // ---- what the sequences read once the copies are made ---------------------------------------------------------------

  /** The text of a sequence at the end begins with that before. */
  lemma TextGrows(trail: seq<Shelf<Block>>, ids: seq<int>, ts: seq<Text>, blockSize: nat, q: int)
    requires Turns(trail, ids, ts, blockSize) && q in trail[0].tables && q in trail[0].texts
    ensures q in trail[|ids|].tables && q in trail[|ids|].texts && trail[0].texts[q].tokens <= trail[|ids|].texts[q].tokens
    ensures trail[0].texts[q].lora == trail[|ids|].texts[q].lora
    ensures |trail[0].texts[q].tokens| == Computed(trail[|ids|].texts, Elements(ids), q)
  {
    hide Appended;
    if q in ids {
      var k: nat :| k < |ids| && ids[k] == q;
      assert Appended(trail[k], trail[k + 1], ids[k], ts[k], blockSize);
      HasText(trail[k], trail[k + 1], q, ts[k], blockSize);
      assert q !in ids[k + 1..|ids|];
      Unmoved(trail, ids, ts, blockSize, k + 1, |ids|, q);
    } else {
      assert forall x | x in ids[0..|ids|] :: x in ids;
      Unmoved(trail, ids, ts, blockSize, 0, |ids|, q);
    }
  }

  /** Once the copies are made, a sequence reads through its new table what it read through its old one, at every place that is
      not that of the new token in a block that another member of the group has filled up. */
  lemma GroupReads<K>(e: Entries<K>, trail: seq<Shelf<Block>>, ids: seq<int>, ts: seq<Text>, copies: seq<map<int, seq<int>>>,
                      m: Memory<K>, m': Memory<K>, blockSize: nat, q: int, i: nat, slot: nat, place: nat)
    requires Turns(trail, ids, ts, blockSize) && Asked(trail, ids, copies, |ids|) && Housed(trail, m, blockSize)
    requires Right(e, trail[0], m, {}, blockSize) && Carried(m, copies, m')
    requires q in trail[0].tables && q in trail[0].texts && slot < blockSize && place == i * blockSize + slot
    requires place < |trail[0].texts[q].tokens| && forall k: nat | k < |ts| :: |ts[k].tokens| != place + 1
    ensures q in trail[|ids|].tables && i < |trail[0].tables[q]| && i < |trail[|ids|].tables[q]|
    ensures slot < |At(m', trail[|ids|].tables[q][i])| && slot < |At(m, trail[0].tables[q][i])|
    ensures At(m', trail[|ids|].tables[q][i])[slot] == At(m, trail[0].tables[q][i])[slot]
  {
    hide Right, Holds, Asked, Carried, Housed, Pending;
    var last := trail[|ids|];
    LengthsAre(trail, ids, ts, copies, blockSize);
    assert copies[..|ids|] == copies && ids[..|ids|] == ids;
    CopiesServe(e, trail, ids, ts, copies, m, m', blockSize, |ids|);
    TextGrows(trail, ids, ts, blockSize, q);
    InTable(e, trail[0], m, {}, blockSize, q, i, slot, place);
    InTable(e, last, m', Elements(ids), blockSize, q, i, slot, place);
    NonePending(trail[0].texts, blockSize);
    ShowsAt(e, trail[0], m, {}, blockSize, q, i);
    ShowsAt(e, last, m', Elements(ids), blockSize, q, i);
    NotAtLimit(e, trail, ids, ts, m', blockSize, q, i, slot, place);
    ReadsAt(e, At(m, trail[0].tables[q][i]), trail[0].texts[q], i * blockSize, |trail[0].texts[q].tokens|, slot);
    ReadsAt(e, At(m', last.tables[q][i]), last.texts[q], i * blockSize,
            Limit(last.info[last.tables[q][i]].hash, Pending(last.texts, Elements(ids), blockSize), |trail[0].texts[q].tokens|), slot);
    assert last.texts[q].tokens[..place + 1] == trail[0].texts[q].tokens[..place + 1];
  }

  lemma NonePending(texts: map<int, Text>, blockSize: nat)
    requires blockSize > 0
    ensures Pending(texts, {}, blockSize) == {}
  {
  }

  lemma ReadsAt<K>(e: Entries<K>, slots: seq<K>, t: Text, base: int, upto: int, slot: nat)
    requires Holds(e, slots, t, base, upto) && slot < |slots| && 0 <= base + slot < upto && base + slot < |t.tokens|
    ensures slots[slot] == e(t.tokens[..base + slot + 1], t.lora)
  {
  }

  lemma InTable<K>(e: Entries<K>, s: Shelf<Block>, m: Memory<K>, recent: set<int>, blockSize: nat, q: int, i: nat, slot: nat, place: nat)
    requires blockSize > 0 && Right(e, s, m, recent, blockSize) && q in s.tables && q in s.texts
    requires slot < blockSize && place == i * blockSize + slot < |s.texts[q].tokens|
    ensures i < |s.tables[q]| && s.tables[q][i] in s.info && |At(m, s.tables[q][i])| == blockSize
  {
    hide Shows, Remembers, Counts, HashFits;
    var n := |s.tables[q]|;
    BlocksHold(|s.texts[q].tokens|, blockSize);
    LessFactor(i, n, blockSize);
    assert TableFits(s.tables[q], s.info, s.texts[q], blockSize);
  }

  /** The place is not the last one of a block that has just been filled up. */
  lemma NotAtLimit<K>(e: Entries<K>, trail: seq<Shelf<Block>>, ids: seq<int>, ts: seq<Text>, m: Memory<K>, blockSize: nat, q: int, i: nat,
                      slot: nat, place: nat)
    requires Turns(trail, ids, ts, blockSize) && Right(e, trail[|ids|], m, Elements(ids), blockSize)
    requires q in trail[|ids|].tables && q in trail[|ids|].texts && i < |trail[|ids|].tables[q]|
    requires trail[|ids|].tables[q][i] in trail[|ids|].info
    requires slot < blockSize && place == i * blockSize + slot && forall k: nat | k < |ts| :: |ts[k].tokens| != place + 1
    ensures var h := trail[|ids|].info[trail[|ids|].tables[q][i]].hash;
      forall n: int | place < n :: place < Limit(h, Pending(trail[|ids|].texts, Elements(ids), blockSize), n)
  {
    hide Appended, Shows, Remembers, Counts, Covers, FillsUp;
    var s := trail[|ids|];
    var h := s.info[s.tables[q][i]].hash;
    if h in Pending(s.texts, Elements(ids), blockSize) {
      var d :| d in Elements(ids) && d in s.texts && FillsUp(s.texts[d], blockSize) && h == Content(s.texts[d].tokens, s.texts[d].lora);
      var k: nat :| k < |ids| && ids[k] == d;
      assert Appended(trail[k], trail[k + 1], ids[k], ts[k], blockSize);
      HasText(trail[k], trail[k + 1], d, ts[k], blockSize);
      assert d !in ids[k + 1..|ids|];
      Unmoved(trail, ids, ts, blockSize, k + 1, |ids|, d);
      assert TableFits(s.tables[q], s.info, s.texts[q], blockSize);
      assert HashFits(h, s.texts[q], i, blockSize);
      FillsUpIs(ts[k], blockSize);
      assert (i + 1) * blockSize == i * blockSize + blockSize;
      FullAtEnd(|ts[k].tokens|, NumBlocks(|ts[k].tokens|, blockSize), i, blockSize);
    }
  }

  lemma FullAtEnd(length: nat, n: nat, i: nat, blockSize: nat)
    requires length == n * blockSize && i * blockSize < length <= (i + 1) * blockSize
    ensures length == (i + 1) * blockSize
  {
    LessFactor(i, n, blockSize);
    MulAtLeast(i + 1, n, blockSize);
  }

  // ---- prompts, forks, and sequences that leave -----------------------------------------------------------------------

  /** The prompt of `id` has been computed: each of its tokens has its entries in its slot.  A block that was known may have
      been left alone. */
  ghost predicate Prefilled<K>(e: Entries<K>, s: Shelf<Block>, s': Shelf<Block>, id: int, t: Text, m: Memory<K>, m': Memory<K>,
                               blockSize: nat)
    requires id in s'.tables
  {
    && |m'| == |m| && (forall b: nat | b < |m| :: |m'[b]| == |m[b]|)
    && (forall b | b in s'.info && b !in s'.tables[id] :: At(m', b) == At(m, b))
    && forall i: nat, k | i < |s'.tables[id]| && 0 <= k < |At(m', s'.tables[id][i])| ::
         var b := s'.tables[id][i];
         || (k < |At(m, b)| && At(m', b)[k] == At(m, b)[k]
             && (i * blockSize + k < |t.tokens| ==> b in s.info && b in s'.info && s.info[b].hash == s'.info[b].hash))
         || (i * blockSize + k < |t.tokens| && At(m', b)[k] == e(t.tokens[..i * blockSize + k + 1], t.lora))
  }

  lemma PrefilledAt<K>(e: Entries<K>, s: Shelf<Block>, s': Shelf<Block>, id: int, t: Text, m: Memory<K>, m': Memory<K>, blockSize: nat,
                       i: nat, b: Block, a: Text, upto: int)
    requires id in s'.tables && i < |s'.tables[id]| && b == s'.tables[id][i] && Prefilled(e, s, s', id, t, m, m', blockSize)
    requires forall p | i * blockSize <= p < (i + 1) * blockSize && p < |t.tokens| && p < upto && p < |a.tokens| ::
      a.tokens[p] == t.tokens[p]
    requires |At(m', b)| <= blockSize && a.lora == t.lora && i * blockSize <= |a.tokens| && i * blockSize <= |t.tokens|
    requires a.tokens[..i * blockSize] == t.tokens[..i * blockSize]
    requires b in s.info && b in s'.info && s.info[b].hash == s'.info[b].hash ==> Holds(e, At(m, b), a, i * blockSize, upto)
    requires !(b in s.info && b in s'.info && s.info[b].hash == s'.info[b].hash) ==> upto <= |t.tokens| || |a.tokens| <= |t.tokens|
    ensures Holds(e, At(m', b), a, i * blockSize, upto)
  {
    var base := i * blockSize;
    assert (i + 1) * blockSize == base + blockSize;
    forall k | 0 <= k < |At(m', b)| && 0 <= base + k < upto && base + k < |a.tokens|
      ensures At(m', b)[k] == e(a.tokens[..base + k + 1], a.lora)
    {
      if base + k < |t.tokens| {
        assert a.tokens[..base + k + 1] == t.tokens[..base + k + 1] by {
          forall p | 0 <= p < base + k + 1 ensures a.tokens[p] == t.tokens[p] {
            assert p < base ==> a.tokens[..base][p] == t.tokens[..base][p];
          }
        }
      }
    }
  }

  /** When nothing is left to compute, blocks are right as far as they go. */
  lemma NowShows<K>(e: Entries<K>, s: Shelf<Block>, m: Memory<K>, blockSize: nat, q: int, i: nat)
    requires blockSize > 0 && Right(e, s, m, {}, blockSize) && q in s.tables && i < |s.tables[q]|
    ensures q in s.texts && s.tables[q][i] in s.info && Holds(e, At(m, s.tables[q][i]), s.texts[q], i * blockSize, |s.texts[q].tokens|)
  {
    hide Right, Holds, Pending;
    NonePending(s.texts, blockSize);
    ShowsAt(e, s, m, {}, blockSize, q, i);
  }

  lemma NowRemembers<K>(e: Entries<K>, s: Shelf<Block>, m: Memory<K>, blockSize: nat, b: Block, h: Hash, i: nat)
    requires blockSize > 0 && Right(e, s, m, {}, blockSize) && b in s.info && s.info[b].hash == h && h.Content?
    requires EndsIn(|h.tokens|, i, blockSize)
    ensures Holds(e, At(m, b), Text(h.tokens, h.lora), i * blockSize, |h.tokens|)
  {
    hide Right, Holds, Pending;
    NonePending(s.texts, blockSize);
    RememberedAt(e, s, m, {}, blockSize, b, i);
  }

  lemma IsRight<K>(e: Entries<K>, s: Shelf<Block>, m: Memory<K>, blockSize: nat)
    requires blockSize > 0 && Placed(s, m, blockSize)
    requires forall id, i: nat | id in s.tables && id in s.texts && i < |s.tables[id]| && s.tables[id][i] in s.info ::
      Holds(e, At(m, s.tables[id][i]), s.texts[id], i * blockSize, |s.texts[id].tokens|)
    requires forall b, i: nat | b in s.info && s.info[b].hash.Content? && EndsIn(|s.info[b].hash.tokens|, i, blockSize) ::
      Holds(e, At(m, b), Text(s.info[b].hash.tokens, s.info[b].hash.lora), i * blockSize, |s.info[b].hash.tokens|)
    ensures Right(e, s, m, {}, blockSize)
  {
    hide Holds, Pending, ShelfOk;
    NonePending(s.texts, blockSize);
  }

  /** A block of the prompt: its hash covers the prompt's tokens in it. */
  lemma PromptCovers(h: Hash, t: Text, i: nat, n: nat, blockSize: nat)
    requires blockSize > 0 && PromptHash(h, t, i, blockSize) && n == NumBlocks(|t.tokens|, blockSize) && i < n
    ensures EndsIn(|h.tokens|, i, blockSize) && h.tokens <= t.tokens && h.lora == t.lora
    ensures i * blockSize <= |t.tokens| && (i + 1) * blockSize == i * blockSize + blockSize
    ensures |h.tokens| == |t.tokens| || |h.tokens| == i * blockSize + blockSize
  {
    BlocksHold(|t.tokens|, blockSize);
    MulAtLeast(i + 1, n, blockSize);
    MulAtLeast(i, n - 1, blockSize);
  }

  /** Another sequence that has a block of the prompt reads what it read. */
  lemma PromptSpares<K>(e: Entries<K>, s: Shelf<Block>, s': Shelf<Block>, id: int, t: Text, m: Memory<K>, m': Memory<K>, blockSize: nat,
                        q: int, j: nat, b: Block)
    requires q in s.tables && j < |s.tables[q]| && b == s.tables[q][j]
    requires blockSize > 0 && Right(e, s, m, {}, blockSize) && Admitted(s, s', id, t, blockSize) && Placed(s', m, blockSize)
    requires Prefilled(e, s, s', id, t, m, m', blockSize)
    ensures q in s.texts && Holds(e, At(m', b), s.texts[q], j * blockSize, |s.texts[q].tokens|)
  {
    hide Right, Holds, PromptHash, Prefilled, Counts, Covers, HashesStay, HashFits;
    NowShows(e, s, m, blockSize, q, j);
    if b in s'.tables[id] {
      var i: nat :| i < |s'.tables[id]| && s'.tables[id][i] == b;
      PromptSharesAt(e, s, s', id, t, m, m', blockSize, q, j, i, b);
    } else {
      PrefilledOff(e, s, s', id, t, m, m', blockSize, b);
    }
  }

  lemma PromptSharesAt<K>(e: Entries<K>, s: Shelf<Block>, s': Shelf<Block>, id: int, t: Text, m: Memory<K>, m': Memory<K>, blockSize: nat,
                          q: int, j: nat, i: nat, b: Block)
    requires q in s.tables && j < |s.tables[q]| && b == s.tables[q][j] && q in s.texts
    requires id in s'.tables && i < |s'.tables[id]| && b == s'.tables[id][i]
    requires blockSize > 0 && Admitted(s, s', id, t, blockSize) && Placed(s', m, blockSize)
    requires Prefilled(e, s, s', id, t, m, m', blockSize)
    requires Holds(e, At(m, b), s.texts[q], j * blockSize, |s.texts[q].tokens|)
    ensures Holds(e, At(m', b), s.texts[q], j * blockSize, |s.texts[q].tokens|)
  {
    hide Holds, Prefilled, Admitted, Located, ShelfOk, HashFits;
    PromptMeets(s, s', id, t, m, blockSize, q, j, i, b);
    PrefilledSize(e, s, s', id, t, m, m', blockSize, b);
    PrefilledAt(e, s, s', id, t, m, m', blockSize, i, b, s.texts[q], |s.texts[q].tokens|);
  }

  /** The texts have the tokens before place `base` in common, and those up to `end` as far as both go. */
  ghost predicate SameStart(a: Text, b: Text, base: int, end: int) {
    && 0 <= base <= |a.tokens| && base <= |b.tokens| && a.tokens[..base] == b.tokens[..base]
    && forall k | base <= k < end && k < |a.tokens| && k < |b.tokens| :: a.tokens[k] == b.tokens[k]
  }

  /** A block that a prompt shares lies at the same index, after the same tokens, and it kept its hash. */
  lemma PromptMeets<K>(s: Shelf<Block>, s': Shelf<Block>, id: int, t: Text, m: Memory<K>, blockSize: nat, q: int, j: nat, i: nat, b: Block)
    requires q in s.tables && j < |s.tables[q]| && b == s.tables[q][j] && q in s.texts
    requires id in s'.tables && i < |s'.tables[id]| && b == s'.tables[id][i]
    requires blockSize > 0 && Admitted(s, s', id, t, blockSize) && Placed(s', m, blockSize)
    ensures i == j && b in s.info && b in s'.info && s.info[b].hash == s'.info[b].hash && s.texts[q].lora == t.lora
    ensures SameStart(s.texts[q], t, i * blockSize, (i + 1) * blockSize)
  {
    hide Counts, Covers, HashesStay, PromptHash, HashFits;
    StaysAt(s.tables, s.info, s'.info, q, j);
    var h := s'.info[b].hash;
    ContentOfPrompt(h, t, i, blockSize);
    SharedBlocksAgree(s'.tables, s'.info, s'.texts, blockSize, id, i, q, j);
    AdmittedSize(s, s', id, t, m, blockSize);
    PromptCovers(h, t, i, |s'.tables[id]|, blockSize);
    BothPrefix(h.tokens, s.texts[q].tokens, t.tokens, i * blockSize);
  }

  lemma BothPrefix(h: seq<int>, a: seq<int>, b: seq<int>, base: nat)
    requires h <= a && h <= b && base <= |h|
    ensures a[..base] == b[..base]
  {
    assert a[..base] == h[..base] == b[..base];
  }

  lemma StaysAt(tables: map<int, BlockTable>, info: map<Block, Info>, info': map<Block, Info>, q: int, j: nat)
    requires HashesStay(tables, info, info') && q in tables && j < |tables[q]|
    ensures var b := tables[q][j]; b in info && b in info' && info'[b].hash == info[b].hash
  {
  }

  lemma ContentOfPrompt(h: Hash, t: Text, i: nat, blockSize: nat)
    requires PromptHash(h, t, i, blockSize)
    ensures h.Content? && h.lora == t.lora && h.tokens <= t.tokens
  {
  }

  lemma AdmittedSize<K>(s: Shelf<Block>, s': Shelf<Block>, id: int, t: Text, m: Memory<K>, blockSize: nat)
    requires Admitted(s, s', id, t, blockSize) && Placed(s', m, blockSize)
    ensures blockSize > 0 && |s'.tables[id]| == NumBlocks(|t.tokens|, blockSize)
  {
    hide Sharing, Counts;
  }

  lemma PrefilledSize<K>(e: Entries<K>, s: Shelf<Block>, s': Shelf<Block>, id: int, t: Text, m: Memory<K>, m': Memory<K>, blockSize: nat,
                         b: Block)
    requires id in s'.tables && Prefilled(e, s, s', id, t, m, m', blockSize) && Placed(s', m, blockSize) && b in s'.info
    ensures |At(m', b)| == blockSize
  {
    hide ShelfOk;
  }

  lemma PrefilledOff<K>(e: Entries<K>, s: Shelf<Block>, s': Shelf<Block>, id: int, t: Text, m: Memory<K>, m': Memory<K>, blockSize: nat,
                        b: Block)
    requires id in s'.tables && Prefilled(e, s, s', id, t, m, m', blockSize) && Admitted(s, s', id, t, blockSize)
    requires b !in s'.tables[id] && (b in s'.info || exists q, j: nat :: q in s.tables && j < |s.tables[q]| && s.tables[q][j] == b)
    ensures b in s'.info && At(m', b) == At(m, b)
  {
  }

  /** The prompt itself reads its entries. */
  lemma PromptReads<K>(e: Entries<K>, s: Shelf<Block>, s': Shelf<Block>, id: int, t: Text, m: Memory<K>, m': Memory<K>, blockSize: nat,
                       i: nat, b: Block)
    requires id in s'.tables && i < |s'.tables[id]| && b == s'.tables[id][i]
    requires blockSize > 0 && Right(e, s, m, {}, blockSize) && Admitted(s, s', id, t, blockSize) && Placed(s', m, blockSize)
    requires Prefilled(e, s, s', id, t, m, m', blockSize)
    ensures b in s'.info && Holds(e, At(m', b), t, i * blockSize, |t.tokens|)
    ensures var h := s'.info[b].hash;
      h.Content? && EndsIn(|h.tokens|, i, blockSize) && Holds(e, At(m', b), Text(h.tokens, h.lora), i * blockSize, |h.tokens|)
  {
    hide Right, Holds, PromptHash, Prefilled, ShelfOk, HashesStay;
    var h := s'.info[b].hash;
    ContentOfPrompt(h, t, i, blockSize);
    AdmittedSize(s, s', id, t, m, blockSize);
    PromptCovers(h, t, i, |s'.tables[id]|, blockSize);
    PrefilledSize(e, s, s', id, t, m, m', blockSize, b);
    if b in s.info && s.info[b].hash == h {
      NowRemembers(e, s, m, blockSize, b, h, i);
      HoldsPrefix(e, At(m, b), Text(h.tokens, h.lora), t, i * blockSize, |h.tokens|, |h.tokens|);
      CellSize(e, s, m, {}, blockSize, b);
      HoldsEarlier(e, At(m, b), t, i * blockSize, |h.tokens|, |t.tokens|);
    }
    PrefilledAt(e, s, s', id, t, m, m', blockSize, i, b, t, |t.tokens|);
    HoldsPrefix(e, At(m', b), t, Text(h.tokens, h.lora), i * blockSize, |t.tokens|, |h.tokens|);
  }

  /** After `allocate` and the prefill of the prompt the memory is right, also for the sequences it shares blocks with. */
  lemma PromptServes<K>(e: Entries<K>, s: Shelf<Block>, s': Shelf<Block>, id: int, t: Text, m: Memory<K>, m': Memory<K>, blockSize: nat)
    requires blockSize > 0 && Right(e, s, m, {}, blockSize) && Admitted(s, s', id, t, blockSize) && Placed(s', m, blockSize)
    requires Prefilled(e, s, s', id, t, m, m', blockSize)
    ensures Right(e, s', m', {}, blockSize)
  {
    hide Right, Holds, PromptHash, ShelfOk, HashesStay;
    RightPlaced(e, s, m, {}, blockSize);
    assert Placed(s', m', blockSize);
    hide Placed;
    forall q, i: nat | q in s'.tables && q in s'.texts && i < |s'.tables[q]| && s'.tables[q][i] in s'.info
      ensures Holds(e, At(m', s'.tables[q][i]), s'.texts[q], i * blockSize, |s'.texts[q].tokens|)
    {
      if q == id {
        PromptReads(e, s, s', id, t, m, m', blockSize, i, s'.tables[id][i]);
      } else {
        PromptSpares(e, s, s', id, t, m, m', blockSize, q, i, s.tables[q][i]);
      }
    }
    forall b, i: nat | b in s'.info && s'.info[b].hash.Content? && EndsIn(|s'.info[b].hash.tokens|, i, blockSize)
      ensures Holds(e, At(m', b), Text(s'.info[b].hash.tokens, s'.info[b].hash.lora), i * blockSize, |s'.info[b].hash.tokens|)
    {
      if b in s'.tables[id] {
        var k: nat :| k < |s'.tables[id]| && s'.tables[id][k] == b;
        PromptReads(e, s, s', id, t, m, m', blockSize, k, b);
        SameIndex(i, k, |s'.info[b].hash.tokens|, blockSize);
      } else {
        NowRemembers(e, s, m, blockSize, b, s'.info[b].hash, i);
        PrefilledOff(e, s, s', id, t, m, m', blockSize, b);
      }
    }
    IsRight(e, s', m', blockSize);
  }

  /** A fork leaves the memory right: the child reads what its parent reads. */
  lemma ForkServes<K>(e: Entries<K>, s: Shelf<Block>, s': Shelf<Block>, parent: int, child: int, m: Memory<K>, blockSize: nat)
    requires blockSize > 0 && Right(e, s, m, {}, blockSize) && Placed(s', m, blockSize) && parent in s.tables && parent in s.texts
    requires s'.tables == s.tables[child := s.tables[parent]] && s'.texts == s.texts[child := s.texts[parent]]
    requires s'.info.Keys == s.info.Keys && forall b | b in s'.info :: s'.info[b].hash == s.info[b].hash
    ensures Right(e, s', m, {}, blockSize)
  {
    hide Right, Holds, Placed;
    forall q, i: nat | q in s'.tables && q in s'.texts && i < |s'.tables[q]| && s'.tables[q][i] in s'.info
      ensures Holds(e, At(m, s'.tables[q][i]), s'.texts[q], i * blockSize, |s'.texts[q].tokens|)
    {
      NowShows(e, s, m, blockSize, if q == child then parent else q, i);
    }
    forall b, i: nat | b in s'.info && s'.info[b].hash.Content? && EndsIn(|s'.info[b].hash.tokens|, i, blockSize)
      ensures Holds(e, At(m, b), Text(s'.info[b].hash.tokens, s'.info[b].hash.lora), i * blockSize, |s'.info[b].hash.tokens|)
    {
      NowRemembers(e, s, m, blockSize, b, s'.info[b].hash, i);
    }
    IsRight(e, s', m, blockSize);
  }

  /** Freeing leaves it right for the others, and for the free blocks with their hashes. */
  lemma FreeServes<K>(e: Entries<K>, s: Shelf<Block>, s': Shelf<Block>, ids: set<int>, m: Memory<K>, blockSize: nat)
    requires blockSize > 0 && Right(e, s, m, {}, blockSize) && Placed(s', m, blockSize)
    requires s'.tables == s.tables - ids && s'.texts == s.texts - ids
    requires s'.info.Keys == s.info.Keys && forall b | b in s'.info :: s'.info[b].hash == s.info[b].hash
    ensures Right(e, s', m, {}, blockSize)
  {
    hide Right, Holds, Placed;
    forall q, i: nat | q in s'.tables && q in s'.texts && i < |s'.tables[q]| && s'.tables[q][i] in s'.info
      ensures Holds(e, At(m, s'.tables[q][i]), s'.texts[q], i * blockSize, |s'.texts[q].tokens|)
    {
      NowShows(e, s, m, blockSize, q, i);
    }
    forall b, i: nat | b in s'.info && s'.info[b].hash.Content? && EndsIn(|s'.info[b].hash.tokens|, i, blockSize)
      ensures Holds(e, At(m, b), Text(s'.info[b].hash.tokens, s'.info[b].hash.lora), i * blockSize, |s'.info[b].hash.tokens|)
    {
      NowRemembers(e, s, m, blockSize, b, s'.info[b].hash, i);
    }
    IsRight(e, s', m, blockSize);
  }

  // ---- the members of a group, once more ------------------------------------------------------------------------------

  /** The tables at a member's turn: those before have theirs already. */
  ghost function TurnTables<B>(before: map<int, seq<B>>, after: map<int, seq<B>>, done: seq<int>): map<int, seq<B>> {
    map id | id in before :: if id in done && id in after then after[id] else before[id]
  }

  lemma TrailTables(trail: seq<Shelf<Block>>, ids: seq<int>, ts: seq<Text>, blockSize: nat, k: nat)
    requires Turns(trail, ids, ts, blockSize) && k <= |ids| && forall j: nat | j < |trail| :: trail[j].texts.Keys == trail[j].tables.Keys
    ensures trail[k].tables == TurnTables(trail[0].tables, trail[|ids|].tables, ids[..k])
  {
    hide Appended;
    KeysStay(trail, ids, ts, blockSize, k);
    KeysStay(trail, ids, ts, blockSize, |ids|);
    forall q | q in trail[0].tables
      ensures trail[k].tables[q] == if q in ids[..k] then trail[|ids|].tables[q] else trail[0].tables[q]
    {
      if q in ids[..k] {
        var j: nat :| j < k && ids[j] == q;
        assert forall x | x in ids[k..|ids|] :: exists l: nat :: k <= l < |ids| && ids[l] == x;
        assert q !in ids[k..|ids|];
        assert q in trail[k].tables.Keys;
        Unmoved(trail, ids, ts, blockSize, k, |ids|, q);
      } else {
        assert ids[0..k] == ids[..k];
        Unmoved(trail, ids, ts, blockSize, 0, k, q);
      }
    }
  }

  lemma {:induction false} KeysStay(trail: seq<Shelf<Block>>, ids: seq<int>, ts: seq<Text>, blockSize: nat, k: nat)
    requires Turns(trail, ids, ts, blockSize) && k <= |ids|
    ensures trail[k].tables.Keys == trail[0].tables.Keys
    decreases k
  {
    hide LastIs;
    if k > 0 {
      KeysStay(trail, ids, ts, blockSize, k - 1);
      assert Appended(trail[k - 1], trail[k], ids[k - 1], ts[k - 1], blockSize);
    }
  }

  /** The copy that a member asks for: of its old last block, just when the new token belongs there and another sequence held
      the block as well when its turn came. */
  ghost function CopyAtTurn(before: map<int, BlockTable>, after: map<int, BlockTable>, done: seq<int>, id: int): map<int, seq<int>>
    requires id in before && id in after
  {
    var was, now := before[id], after[id];
    if |was| == |now| > 0 && |Holders(TurnTables(before, after, done), Last(was))| != 1
    then map[Last(was).blockNumber := [Last(now).blockNumber]] else map[]
  }

  /** The first `k` members have had their turns. */
  ghost predicate SoFar(trail: seq<Shelf<Block>>, ids: seq<int>, ts: seq<Text>, copies: seq<map<int, seq<int>>>, k: nat, n: nat,
                        blockSize: nat) {
    && blockSize > 0 && |trail| == k + 1 && |copies| == k <= |ids| == |ts|
    && (forall j: nat | j <= k :: Located(trail[j], n, blockSize))
    && forall j: nat | j < k :: Appended(trail[j], trail[j + 1], ids[j], ts[j], blockSize)
                                && copies[j] == CopyFor(trail[j], trail[j + 1], ids[j])
  }

  lemma SoFarNext(trail: seq<Shelf<Block>>, ids: seq<int>, ts: seq<Text>, copies: seq<map<int, seq<int>>>, k: nat, n: nat,
                  blockSize: nat, s: Shelf<Block>, copy: map<int, seq<int>>)
    requires SoFar(trail, ids, ts, copies, k, n, blockSize) && k < |ids| && Located(s, n, blockSize)
    requires Appended(trail[k], s, ids[k], ts[k], blockSize) && copy == CopyFor(trail[k], s, ids[k])
    ensures SoFar(trail + [s], ids, ts, copies + [copy], k + 1, n, blockSize)
  {
    hide Located, Appended, CopyFor;
  }

  lemma SoFarEnds(trail: seq<Shelf<Block>>, ids: seq<int>, ts: seq<Text>, copies: seq<map<int, seq<int>>>, n: nat, blockSize: nat)
    requires SoFar(trail, ids, ts, copies, |ids|, n, blockSize) && Distinct(ids)
    requires forall k: nat | k < |ids| :: ids[k] in trail[0].texts && ids[k] in trail[0].tables && Continued(trail[0].texts[ids[k]], ts[k])
    ensures Turns(trail, ids, ts, blockSize) && Asked(trail, ids, copies, |ids|)
    ensures forall j: nat | j < |trail| :: Located(trail[j], n, blockSize)
    ensures forall k: nat | k < |ids| ::
      ids[k] in trail[0].tables && ids[k] in trail[|ids|].tables
      && copies[k] == CopyAtTurn(trail[0].tables, trail[|ids|].tables, ids[..k], ids[k])
  {
    hide Located, LastIs, CopyAtTurn;
    assert Turns(trail, ids, ts, blockSize);
    KeysStay(trail, ids, ts, blockSize, |ids|);
    forall k: nat | k < |ids|
      ensures copies[k] == CopyAtTurn(trail[0].tables, trail[|ids|].tables, ids[..k], ids[k])
    {
      CopyIsAtTurn(trail, ids, ts, copies, n, blockSize, k);
    }
  }

  lemma LocatedKeys(s: Shelf<Block>, n: nat, blockSize: nat)
    requires Located(s, n, blockSize)
    ensures s.texts.Keys == s.tables.Keys && ShelfOk(s, blockSize)
  {
  }

  lemma CopyIsAtTurn(trail: seq<Shelf<Block>>, ids: seq<int>, ts: seq<Text>, copies: seq<map<int, seq<int>>>, n: nat, blockSize: nat,
                     k: nat)
    requires Turns(trail, ids, ts, blockSize) && SoFar(trail, ids, ts, copies, |ids|, n, blockSize) && k < |ids|
    ensures ids[k] in trail[0].tables && ids[k] in trail[|ids|].tables
    ensures copies[k] == CopyAtTurn(trail[0].tables, trail[|ids|].tables, ids[..k], ids[k])
  {
    hide Located, Appended, ShelfOk;
    forall j: nat | j < |trail| ensures trail[j].texts.Keys == trail[j].tables.Keys {
      LocatedKeys(trail[j], n, blockSize);
    }
    LocatedKeys(trail[k], n, blockSize);
    assert Appended(trail[k], trail[k + 1], ids[k], ts[k], blockSize);
    HasText(trail[k], trail[k + 1], ids[k], ts[k], blockSize);
    TrailTables(trail, ids, ts, blockSize, k);
    BeforeTurn(trail, ids, ts, blockSize, k, k);
    assert ids[k] !in ids[k + 1..|ids|];
    Unmoved(trail, ids, ts, blockSize, k + 1, |ids|, ids[k]);
    if trail[k].tables[ids[k]] != [] {
      var t := trail[k].tables[ids[k]];
      assert t[|t| - 1] in t;
      HeldCounted(trail[k], blockSize, ids[k], Last(t));
    }
  }

  // ---- swapping -------------------------------------------------------------------------------------------------------

  /** Some sequence that has the block has all tokens that `t` has in it. */
  ghost predicate Backs(src: Shelf<Block>, x: Block, i: nat, t: Text, blockSize: nat) {
    exists p :: p in src.tables && p in src.texts && BacksFor(src, p, x, i, t, blockSize)
  }

  ghost predicate BacksFor(src: Shelf<Block>, p: int, x: Block, i: nat, t: Text, blockSize: nat)
    requires p in src.tables && p in src.texts
  {
    && i < |src.tables[p]| && src.tables[p][i] == x && AgreeUpTo(src.texts[p], t, (i + 1) * blockSize)
    && (|t.tokens| <= |src.texts[p].tokens| || (i + 1) * blockSize <= |src.texts[p].tokens|)
  }

  /** The sequences that are swapped lose nobody's entries: where they bear the hash of a block of the other device, their own
      block holds all that its sequences have in it. */
  ghost predicate NoLoss(src: Shelf<Block>, dst: Shelf<Block>, ids: set<int>, blockSize: nat) {
    forall p, i: nat, q, j: nat | p in ids && p in src.tables && q in dst.tables && q in dst.texts
      && i < |src.tables[p]| && j < |dst.tables[q]| && src.tables[p][i] in src.info && dst.tables[q][j] in dst.info
      && src.info[src.tables[p][i]].hash == dst.info[dst.tables[q][j]].hash ::
        i == j && Backs(src, src.tables[p][i], i, dst.texts[q], blockSize)
  }

  /** What moves are the blocks of these sequences. */
  ghost predicate FromTables(tables: map<int, BlockTable>, ids: set<int>, moved: map<Block, Block>) {
    forall x | x in moved :: exists p, i: nat :: p in ids && p in tables && i < |tables[p]| && tables[p][i] == x
  }

  /** The worker has carried out the moves, from the memory `from` of one device to `to` of the other. */
  ghost predicate MovesCarried<K>(moved: map<Block, Block>, from: Memory<K>, to: Memory<K>, to': Memory<K>) {
    && |to'| == |to| && (forall x | x in moved :: At(to', moved[x]) == At(from, x))
    && forall b: nat | b < |to| && (forall x | x in moved :: moved[x].blockNumber != b) :: to'[b] == to[b]
  }

  /** What another sequence reads from a block that was moved to. */
  lemma OverwrittenReads<K>(e: Entries<K>, slots: seq<K>, a: Text, b: Text, i: nat, blockSize: nat)
    requires |slots| == blockSize && Holds(e, slots, a, i * blockSize, |a.tokens|) && AgreeUpTo(a, b, (i + 1) * blockSize)
    requires |b.tokens| <= |a.tokens| || (i + 1) * blockSize <= |a.tokens|
    ensures Holds(e, slots, b, i * blockSize, |b.tokens|)
  {
    var end := (i + 1) * blockSize;
    assert end == i * blockSize + blockSize;
    var upto := if |b.tokens| <= end then |b.tokens| else end;
    HoldsSame(e, slots, a, b, i * blockSize, |a.tokens|, upto);
    HoldsEarlier(e, slots, b, i * blockSize, upto, |b.tokens|);
  }

  lemma BroughtCell<K>(src: Shelf<Block>, dst: Shelf<Block>, dst': Shelf<Block>, ids: set<int>, moved: map<Block, Block>, from: Memory<K>,
                       to: Memory<K>, to': Memory<K>, blockSize: nat, b: Block)
    requires Brought(src, dst, dst', ids, moved) && Placed(dst', to, blockSize) && MovesCarried(moved, from, to, to') && b in dst'.info
    ensures b !in moved.Values ==> At(to', b) == At(to, b)
    ensures b in moved.Values ==>
      exists x :: x in moved && moved[x] == b && x in src.info && src.info[x].hash == dst'.info[b].hash && At(to', b) == At(from, x)
  {
    hide ShelfOk, HashesStay, Swapping.Remapped;
    if b !in moved.Values {
      forall x | x in moved ensures moved[x].blockNumber != b.blockNumber {
        assert moved[x] in moved.Values && moved[x] in dst'.info;
      }
    } else {
      var x :| x in moved && moved[x] == b;
      assert x in src.info && src.info[x].hash == dst'.info[b].hash && At(to', b) == At(from, x);
    }
  }

  /** What a sequence reads that was there before. */
  lemma StayerReads<K>(e: Entries<K>, src: Shelf<Block>, dst: Shelf<Block>, dst': Shelf<Block>, ids: set<int>, moved: map<Block, Block>,
                       from: Memory<K>, to: Memory<K>, to': Memory<K>, blockSize: nat, q: int, j: nat, b: Block)
    requires q in dst.tables && q in dst.texts && j < |dst.tables[q]| && b == dst.tables[q][j]
    requires Brought(src, dst, dst', ids, moved) && FromTables(src.tables, ids, moved) && NoLoss(src, dst, ids, blockSize)
    requires MovesCarried(moved, from, to, to') && Placed(dst', to, blockSize)
    requires blockSize > 0 && Right(e, src, from, {}, blockSize) && Right(e, dst, to, {}, blockSize)
    ensures Holds(e, At(to', b), dst.texts[q], j * blockSize, |dst.texts[q].tokens|)
  {
    hide Right, Holds, Placed, MovesCarried, Brought, NoLoss, AgreeUpTo;
    BroughtStays(src, dst, dst', ids, moved, q, j);
    NowShows(e, dst, to, blockSize, q, j);
    BroughtCell(src, dst, dst', ids, moved, from, to, to', blockSize, b);
    if b in moved.Values {
      var x :| x in moved && moved[x] == b && x in src.info && src.info[x].hash == dst'.info[b].hash && At(to', b) == At(from, x);
      var p, i: nat :| p in ids && p in src.tables && i < |src.tables[p]| && src.tables[p][i] == x;
      LossNot(src, dst, ids, blockSize, p, i, q, j);
      var r :| r in src.tables && r in src.texts && BacksFor(src, r, x, i, dst.texts[q], blockSize);
      NowShows(e, src, from, blockSize, r, i);
      CellSize(e, src, from, {}, blockSize, x);
      OverwrittenReads(e, At(from, x), src.texts[r], dst.texts[q], i, blockSize);
    }
  }

  lemma LossNot(src: Shelf<Block>, dst: Shelf<Block>, ids: set<int>, blockSize: nat, p: int, i: nat, q: int, j: nat)
    requires NoLoss(src, dst, ids, blockSize)
    requires p in ids && p in src.tables && q in dst.tables && q in dst.texts
    requires i < |src.tables[p]| && j < |dst.tables[q]| && src.tables[p][i] in src.info && dst.tables[q][j] in dst.info
    requires src.info[src.tables[p][i]].hash == dst.info[dst.tables[q][j]].hash
    ensures i == j && Backs(src, src.tables[p][i], i, dst.texts[q], blockSize)
  {
    hide Backs;
  }

  lemma BroughtStays(src: Shelf<Block>, dst: Shelf<Block>, dst': Shelf<Block>, ids: set<int>, moved: map<Block, Block>, q: int, j: nat)
    requires Brought(src, dst, dst', ids, moved) && q in dst.tables && j < |dst.tables[q]|
    ensures var b := dst.tables[q][j]; b in dst.info && b in dst'.info && dst'.info[b].hash == dst.info[b].hash
  {
  }

  lemma BroughtTable(src: Shelf<Block>, dst: Shelf<Block>, dst': Shelf<Block>, ids: set<int>, moved: map<Block, Block>, p: int, i: nat)
    requires Brought(src, dst, dst', ids, moved) && p in ids && p in dst'.tables && i < |dst'.tables[p]|
    ensures p in src.tables && i < |src.tables[p]| && src.tables[p][i] in moved && dst'.tables[p][i] == moved[src.tables[p][i]]
    ensures p in src.texts && p in dst'.texts && dst'.texts[p] == src.texts[p]
  {
  }

  /** After a swap that loses nothing, the memory of the device the group came to is right for all its sequences. */
  lemma SwapServes<K>(e: Entries<K>, src: Shelf<Block>, dst: Shelf<Block>, dst': Shelf<Block>, ids: set<int>, moved: map<Block, Block>,
                      from: Memory<K>, to: Memory<K>, to': Memory<K>, blockSize: nat)
    requires Brought(src, dst, dst', ids, moved) && FromTables(src.tables, ids, moved) && NoLoss(src, dst, ids, blockSize)
    requires forall b | b in dst'.info && b !in moved.Values :: b in dst.info && dst'.info[b].hash == dst.info[b].hash
    requires MovesCarried(moved, from, to, to') && Placed(dst', to, blockSize) && Placed(dst', to', blockSize)
    requires blockSize > 0 && Right(e, src, from, {}, blockSize) && Right(e, dst, to, {}, blockSize)
    ensures Right(e, dst', to', {}, blockSize)
  {
    hide Right, Holds, Placed, MovesCarried, NoLoss, FromTables, HashesStay, Swapping.Remapped;
    RightPlaced(e, dst, to, {}, blockSize);
    forall q, i: nat | q in dst'.tables && q in dst'.texts && i < |dst'.tables[q]| && dst'.tables[q][i] in dst'.info
      ensures Holds(e, At(to', dst'.tables[q][i]), dst'.texts[q], i * blockSize, |dst'.texts[q].tokens|)
    {
      if q in ids {
        BroughtTable(src, dst, dst', ids, moved, q, i);
        NowShows(e, src, from, blockSize, q, i);
        MovedCell(moved, from, to, to', src.tables[q][i]);
      } else {
        assert q in dst.tables.Keys && q in dst.texts.Keys;
        StayerReads(e, src, dst, dst', ids, moved, from, to, to', blockSize, q, i, dst.tables[q][i]);
      }
    }
    forall b, i: nat | b in dst'.info && dst'.info[b].hash.Content? && EndsIn(|dst'.info[b].hash.tokens|, i, blockSize)
      ensures Holds(e, At(to', b), Text(dst'.info[b].hash.tokens, dst'.info[b].hash.lora), i * blockSize, |dst'.info[b].hash.tokens|)
    {
      BroughtCell(src, dst, dst', ids, moved, from, to, to', blockSize, b);
      if b in moved.Values {
        var x :| x in moved && moved[x] == b && x in src.info && src.info[x].hash == dst'.info[b].hash && At(to', b) == At(from, x);
        NowRemembers(e, src, from, blockSize, x, dst'.info[b].hash, i);
      } else {
        NowRemembers(e, dst, to, blockSize, b, dst'.info[b].hash, i);
      }
    }
    IsRight(e, dst', to', blockSize);
  }

  lemma MovedCell<K>(moved: map<Block, Block>, from: Memory<K>, to: Memory<K>, to': Memory<K>, x: Block)
    requires MovesCarried(moved, from, to, to') && x in moved
    ensures At(to', moved[x]) == At(from, x)
  {
  }

  // ---- what right memory tells ----------------------------------------------------------------------------------------

  /** Different tokens before it give a token other entries. */
  ghost predicate TellsApart<K(!new)>(e: Entries<K>) {
    forall a: seq<int>, la: int, b: seq<int>, lb: int :: e(a, la) == e(b, lb) ==> a == b && la == lb
  }

  /** A block that holds the entries of two texts that reach into it lies at one place in both, which agree up to its end. */
  lemma OnlyOneText<K(!new)>(e: Entries<K>, slots: seq<K>, a: Text, i: nat, b: Text, j: nat, blockSize: nat)
    requires TellsApart(e) && blockSize > 0 && |slots| == blockSize
    requires i * blockSize < |a.tokens| && Holds(e, slots, a, i * blockSize, |a.tokens|)
    requires j * blockSize < |b.tokens| && Holds(e, slots, b, j * blockSize, |b.tokens|)
    ensures i == j && AgreeUpTo(a, b, (i + 1) * blockSize)
  {
    hide TellsApart;
    SlotTells(e, slots, a, i * blockSize, b, j * blockSize, 0);
    SameFactor(i, j, blockSize);
    var base, end := i * blockSize, (i + 1) * blockSize;
    assert end == base + blockSize;
    var n := if |a.tokens| < |b.tokens| then |a.tokens| else |b.tokens|;
    var last := if n < end then n else end;
    SlotTells(e, slots, a, base, b, base, last - 1 - base);
    forall k | 0 <= k < end && k < |a.tokens| && k < |b.tokens| ensures a.tokens[k] == b.tokens[k] {
      assert a.tokens[..last][k] == b.tokens[..last][k];
    }
  }

  lemma SlotTells<K(!new)>(e: Entries<K>, slots: seq<K>, a: Text, base: int, b: Text, base': int, k: int)
    requires TellsApart(e) && Holds(e, slots, a, base, |a.tokens|) && Holds(e, slots, b, base', |b.tokens|)
    requires 0 <= base && 0 <= base' && 0 <= k < |slots| && base + k < |a.tokens| && base' + k < |b.tokens|
    ensures a.lora == b.lora && a.tokens[..base + k + 1] == b.tokens[..base' + k + 1] && base == base'
  {
    assert slots[k] == e(a.tokens[..base + k + 1], a.lora) == e(b.tokens[..base' + k + 1], b.lora);
    assert |a.tokens[..base + k + 1]| == |b.tokens[..base' + k + 1]|;
  }

  lemma SameFactor(i: nat, j: nat, blockSize: nat)
    requires blockSize > 0 && i * blockSize == j * blockSize
    ensures i == j
  {
    DivMod(i, 0, blockSize);
    DivMod(j, 0, blockSize);
  }

  /** Memory can only be right if blocks are shared by sequences that agree on what is in them, unless the model gives
      different tokens the same entries.  So a swap with a clash of hashes leaves some sequence with entries of other tokens. */
  lemma RightAgrees<K(!new)>(e: Entries<K>, s: Shelf<Block>, m: Memory<K>, blockSize: nat)
    requires TellsApart(e) && blockSize > 0 && Right(e, s, m, {}, blockSize)
    ensures Agree(s, blockSize)
  {
    hide TellsApart, Right, Holds, AgreeUpTo;
    forall p, i: nat, q, j: nat | p in s.tables && q in s.tables && p in s.texts && q in s.texts
        && i < |s.tables[p]| && j < |s.tables[q]| && s.tables[p][i] == s.tables[q][j]
      ensures i == j && AgreeUpTo(s.texts[p], s.texts[q], (i + 1) * blockSize)
    {
      NowShows(e, s, m, blockSize, p, i);
      NowShows(e, s, m, blockSize, q, j);
      CellSize(e, s, m, {}, blockSize, s.tables[p][i]);
      ReachesInto(e, s, m, blockSize, p, i);
      ReachesInto(e, s, m, blockSize, q, j);
      OnlyOneText(e, At(m, s.tables[p][i]), s.texts[p], i, s.texts[q], j, blockSize);
    }
  }

  lemma ReachesInto<K>(e: Entries<K>, s: Shelf<Block>, m: Memory<K>, blockSize: nat, q: int, i: nat)
    requires blockSize > 0 && Right(e, s, m, {}, blockSize) && q in s.tables && q in s.texts && i < |s.tables[q]|
    ensures i * blockSize < |s.texts[q].tokens|
  {
    hide Right;
    TableCovers(e, s, m, {}, blockSize, q);
    var n := |s.tables[q]|;
    BlocksHold(|s.texts[q].tokens|, blockSize);
    MulAtLeast(i, n - 1, blockSize);
  }

  // ---- when a swap is right -------------------------------------------------------------------------------------------

  /** The memory after the moves. */
  lemma CarryMoves<K>(moved: map<Block, Block>, from: Memory<K>, to: Memory<K>) returns (to': Memory<K>)
    requires forall x | x in moved :: 0 <= moved[x].blockNumber < |to|
    requires forall x, y | x in moved && y in moved && moved[x].blockNumber == moved[y].blockNumber :: x == y
    ensures MovesCarried(moved, from, to, to')
  {
    to' := seq(|to|, k requires 0 <= k < |to| =>
      if exists x :: x in moved && moved[x].blockNumber == k then (var x :| x in moved && moved[x].blockNumber == k; At(from, x))
      else to[k]);
    forall x | x in moved ensures At(to', moved[x]) == At(from, x) {
      var k := moved[x].blockNumber;
      assert to'[k] == At(from, x);
    }
  }

  /** One slot changed behind the tokens of a text. */
  lemma HoldsBefore<K>(e: Entries<K>, slots: seq<K>, col: nat, junk: K, t: Text, base: int)
    requires Holds(e, slots, t, base, |t.tokens|) && col < |slots| && |t.tokens| <= base + col
    ensures Holds(e, slots[col := junk], t, base, |t.tokens|)
  {
  }

  /** The place in block `i` of the last token that `t` has there. */
  ghost function LastPlace(t: Text, i: nat, blockSize: nat): int {
    (if |t.tokens| < (i + 1) * blockSize then |t.tokens| else (i + 1) * blockSize) - 1
  }

  /** Whatever lies in a block behind the tokens of all sequences that have it, the memory is right. */
  lemma JunkBehind<K(!new)>(e: Entries<K>, s: Shelf<Block>, m: Memory<K>, blockSize: nat, p: int, i: nat, col: nat, junk: K)
    requires TellsApart(e) && blockSize > 0 && Right(e, s, m, {}, blockSize)
    requires p in s.tables && p in s.texts && i < |s.tables[p]| && col < blockSize && 0 <= s.tables[p][i].blockNumber < |m|
    requires |At(m, s.tables[p][i])| == blockSize
    requires forall r | r in s.tables && r in s.texts && i < |s.tables[r]| && s.tables[r][i] == s.tables[p][i] ::
      |s.texts[r].tokens| <= i * blockSize + col
    ensures Right(e, s, Written(m, s.tables[p][i], col, junk), {}, blockSize)
  {
    hide TellsApart, Right, Holds, AgreeUpTo, Located, ShelfOk;
    var x := s.tables[p][i];
    var m' := Written(m, x, col, junk);
    RightPlaced(e, s, m, {}, blockSize);
    RightAgrees(e, s, m, blockSize);
    NowShows(e, s, m, blockSize, p, i);
    forall q, k: nat | q in s.tables && q in s.texts && k < |s.tables[q]| && s.tables[q][k] in s.info
      ensures Holds(e, At(m', s.tables[q][k]), s.texts[q], k * blockSize, |s.texts[q].tokens|)
    {
      NowShows(e, s, m, blockSize, q, k);
      if s.tables[q][k] == x {
        HoldsBefore(e, At(m, x), col, junk, s.texts[q], i * blockSize);
      } else {
        OtherCell(s, m, blockSize, x, col, junk, s.tables[q][k]);
      }
    }
    forall b, k: nat | b in s.info && s.info[b].hash.Content? && EndsIn(|s.info[b].hash.tokens|, k, blockSize)
      ensures Holds(e, At(m', b), Text(s.info[b].hash.tokens, s.info[b].hash.lora), k * blockSize, |s.info[b].hash.tokens|)
    {
      NowRemembers(e, s, m, blockSize, b, s.info[b].hash, k);
      if b == x {
        HashWithin(s, blockSize, p, i, k);
        HoldsBefore(e, At(m, x), col, junk, Text(s.info[b].hash.tokens, s.info[b].hash.lora), i * blockSize);
      } else {
        OtherCell(s, m, blockSize, x, col, junk, b);
      }
    }
    PlacedWritten(s, m, blockSize, x, col, junk);
    IsRight(e, s, m', blockSize);
  }

  lemma PlacedWritten<K>(s: Shelf<Block>, m: Memory<K>, blockSize: nat, x: Block, col: nat, junk: K)
    requires Placed(s, m, blockSize) && 0 <= x.blockNumber < |m| && col < |At(m, x)|
    ensures Placed(s, Written(m, x, col, junk), blockSize)
  {
    hide ShelfOk;
  }

  lemma OtherCell<K>(s: Shelf<Block>, m: Memory<K>, blockSize: nat, x: Block, col: nat, junk: K, b: Block)
    requires Placed(s, m, blockSize) && x in s.info && b in s.info && b != x && 0 <= x.blockNumber < |m| && col < |At(m, x)|
    ensures At(Written(m, x, col, junk), b) == At(m, b)
  {
    hide ShelfOk;
  }

  lemma HashWithin(s: Shelf<Block>, blockSize: nat, p: int, i: nat, k: nat)
    requires ShelfOk(s, blockSize) && p in s.tables && p in s.texts && i < |s.tables[p]| && s.tables[p][i] in s.info
    requires var h := s.info[s.tables[p][i]].hash; h.Content? && EndsIn(|h.tokens|, k, blockSize)
    ensures k == i && |s.info[s.tables[p][i]].hash.tokens| <= |s.texts[p].tokens|
  {
    hide Counts, Covers;
    assert TableFits(s.tables[p], s.info, s.texts[p], blockSize);
    SameIndex(i, k, |s.info[s.tables[p][i]].hash.tokens|, blockSize);
  }

  /** What the swap has to do with two sequences whose blocks bear one hash: the one comes to have the other's block. */
  lemma ClashMeets(src: Shelf<Block>, dst: Shelf<Block>, dst': Shelf<Block>, ids: set<int>, moved: map<Block, Block>, n: nat,
                   blockSize: nat, p: int, i: nat, q: int, j: nat)
    requires Brought(src, dst, dst', ids, moved) && Located(dst', n, blockSize)
    requires p in ids && p in src.tables && q in dst.tables && q in dst.texts && i < |src.tables[p]| && j < |dst.tables[q]|
    requires src.tables[p][i] in src.info && dst.tables[q][j] in dst.info
    requires src.info[src.tables[p][i]].hash == dst.info[dst.tables[q][j]].hash
    ensures src.tables[p][i] in moved && moved[src.tables[p][i]] == dst.tables[q][j]
    ensures p in dst'.tables && i < |dst'.tables[p]| && dst'.tables[p][i] == dst.tables[q][j] && dst'.texts.Keys == dst.texts.Keys + ids
    ensures q in dst'.tables && q in dst'.texts && dst'.tables[q] == dst.tables[q] && dst'.texts[q] == dst.texts[q]
    ensures p in src.texts && p in dst'.texts && dst'.texts[p] == src.texts[p]
  {
    hide ShelfOk;
  }

  /** The moves can be carried out, whatever the memory. */
  lemma Carry<K>(src: Shelf<Block>, dst: Shelf<Block>, dst': Shelf<Block>, ids: set<int>, moved: map<Block, Block>, from: Memory<K>,
                 to: Memory<K>, blockSize: nat) returns (to': Memory<K>)
    requires Brought(src, dst, dst', ids, moved) && Placed(dst', to, blockSize) && Placed(src, from, blockSize)
    ensures MovesCarried(moved, from, to, to') && Placed(dst', to', blockSize)
  {
    hide ShelfOk;
    to' := CarryMoves(moved, from, to);
    forall b | b in dst'.info ensures |At(to', b)| == blockSize {
      BroughtCell(src, dst, dst', ids, moved, from, to, to', blockSize, b);
    }
  }

  /** Where nobody has all the tokens of a sequence of the other device, an entry of that sequence may be lost: the memory that
      shows it differs from `from` in one slot, behind the tokens of all who have the block. */
  lemma SwapLoses<K(!new)>(e: Entries<K>, src: Shelf<Block>, dst: Shelf<Block>, dst': Shelf<Block>, ids: set<int>, moved: map<Block, Block>,
                           from: Memory<K>, to: Memory<K>, to': Memory<K>, blockSize: nat, p: int, i: nat, q: int, j: nat)
    returns (junk: Memory<K>)
    requires Brought(src, dst, dst', ids, moved) && Placed(dst', to, blockSize) && TellsApart(e) && blockSize > 0
    requires Right(e, src, from, {}, blockSize) && Right(e, dst, to, {}, blockSize)
    requires MovesCarried(moved, from, to, to') && Right(e, dst', to', {}, blockSize)
    requires p in ids && p in src.tables && q in dst.tables && q in dst.texts && i < |src.tables[p]| && j < |dst.tables[q]|
    requires src.tables[p][i] in src.info && dst.tables[q][j] in dst.info
    requires src.info[src.tables[p][i]].hash == dst.info[dst.tables[q][j]].hash
    requires !(i == j && Backs(src, src.tables[p][i], i, dst.texts[q], blockSize))
    ensures Right(e, src, junk, {}, blockSize)
    ensures forall later | MovesCarried(moved, junk, to, later) :: !Right(e, dst', later, {}, blockSize)
  {
    hide TellsApart, Right, Holds, Located, ShelfOk, MovesCarried, Brought, Backs;
    var x, b, t := src.tables[p][i], dst.tables[q][j], dst.texts[q];
    RightPlaced(e, src, from, {}, blockSize);
    RightPlaced(e, dst', to', {}, blockSize);
    LocatedOf(dst', to', blockSize);
    ClashMeets(src, dst, dst', ids, moved, |to'|, blockSize, p, i, q, j);
    MovedCell(moved, from, to, to', x);
    NowShows(e, dst', to', blockSize, q, j);
    NowShows(e, src, from, blockSize, p, i);
    CellSize(e, src, from, {}, blockSize, x);
    ReachesInto(e, src, from, blockSize, p, i);
    ReachesInto(e, dst, to, blockSize, q, j);
    OnlyOneText(e, At(from, x), src.texts[p], i, t, j, blockSize);
    var place := LastPlace(t, i, blockSize);
    assert (i + 1) * blockSize == i * blockSize + blockSize;
    var col: nat := place - i * blockSize;
    forall r | r in src.tables && r in src.texts && i < |src.tables[r]| && src.tables[r][i] == x
      ensures |src.texts[r].tokens| <= i * blockSize + col
    {
      NowShows(e, src, from, blockSize, r, i);
      ReachesInto(e, src, from, blockSize, r, i);
      OnlyOneText(e, At(from, x), src.texts[r], i, t, i, blockSize);
      NotBacked(src, r, x, i, t, blockSize);
    }
    var other := e(t.tokens[..place + 1] + [0], t.lora);
    Differs(e, t.tokens[..place + 1], t.tokens[..place + 1] + [0], t.lora);
    NumberOf(src, from, blockSize, x);
    junk := Written(from, x, col, other);
    JunkBehind(e, src, from, blockSize, p, i, col, other);
    forall later | MovesCarried(moved, junk, to, later) ensures !Right(e, dst', later, {}, blockSize) {
      if Right(e, dst', later, {}, blockSize) {
        MovedCell(moved, junk, to, later, x);
        NowShows(e, dst', later, blockSize, q, j);
        ReadsAt(e, At(later, b), t, i * blockSize, |t.tokens|, col);
      }
    }
  }

  lemma LocatedOf<K>(s: Shelf<Block>, m: Memory<K>, blockSize: nat)
    requires Placed(s, m, blockSize)
    ensures Located(s, |m|, blockSize)
  {
  }

  lemma NumberOf<K>(s: Shelf<Block>, m: Memory<K>, blockSize: nat, b: Block)
    requires Placed(s, m, blockSize) && b in s.info
    ensures 0 <= b.blockNumber < |m| && |At(m, b)| == blockSize
  {
    hide ShelfOk;
  }

  lemma Differs<K(!new)>(e: Entries<K>, a: seq<int>, b: seq<int>, lora: int)
    requires TellsApart(e) && |a| != |b|
    ensures e(a, lora) != e(b, lora)
  {
  }

  lemma NotBacked(src: Shelf<Block>, r: int, x: Block, i: nat, t: Text, blockSize: nat)
    requires !Backs(src, x, i, t, blockSize) && r in src.tables && r in src.texts && i < |src.tables[r]| && src.tables[r][i] == x
    requires AgreeUpTo(src.texts[r], t, (i + 1) * blockSize)
    ensures |src.texts[r].tokens| <= LastPlace(t, i, blockSize)
  {
    hide AgreeUpTo;
    assert !BacksFor(src, r, x, i, t, blockSize);
  }

  /** A swap leaves every sequence its entries, whatever lies in memory behind them, if and only if a block that moves has the hash
      of one in use on the other device only where some sequence that has it has all that is in that one. */
  lemma SwapServesIff<K(!new)>(e: Entries<K>, src: Shelf<Block>, dst: Shelf<Block>, dst': Shelf<Block>, ids: set<int>,
                               moved: map<Block, Block>, from: Memory<K>, to: Memory<K>, blockSize: nat)
    requires Brought(src, dst, dst', ids, moved) && FromTables(src.tables, ids, moved)
    requires forall b | b in dst'.info && b !in moved.Values :: b in dst.info && dst'.info[b].hash == dst.info[b].hash
    requires Placed(dst', to, blockSize) && TellsApart(e) && blockSize > 0
    requires Right(e, src, from, {}, blockSize) && Right(e, dst, to, {}, blockSize)
    ensures NoLoss(src, dst, ids, blockSize) <==>
            forall m: Memory<K>, m': Memory<K>
              | Right(e, src, m, {}, blockSize) && MovesCarried(moved, m, to, m') && Placed(dst', m', blockSize) ::
              Right(e, dst', m', {}, blockSize)
  {
    hide TellsApart, Right, Placed, MovesCarried, Brought, FromTables, Backs;
    if NoLoss(src, dst, ids, blockSize) {
      forall m: Memory<K>, m': Memory<K> | Right(e, src, m, {}, blockSize) && MovesCarried(moved, m, to, m') && Placed(dst', m', blockSize)
        ensures Right(e, dst', m', {}, blockSize)
      {
        SwapServes(e, src, dst, dst', ids, moved, m, to, m', blockSize);
      }
    } else {
      var p, i: nat, q, j: nat :| p in ids && p in src.tables && q in dst.tables && q in dst.texts
        && i < |src.tables[p]| && j < |dst.tables[q]| && src.tables[p][i] in src.info && dst.tables[q][j] in dst.info
        && src.info[src.tables[p][i]].hash == dst.info[dst.tables[q][j]].hash
        && !(i == j && Backs(src, src.tables[p][i], i, dst.texts[q], blockSize));
      RightPlaced(e, src, from, {}, blockSize);
      var to' := Carry(src, dst, dst', ids, moved, from, to, blockSize);
      if Right(e, dst', to', {}, blockSize) {
        var junk := SwapLoses(e, src, dst, dst', ids, moved, from, to, to', blockSize, p, i, q, j);
        RightPlaced(e, src, junk, {}, blockSize);
        var later := Carry(src, dst, dst', ids, moved, junk, to, blockSize);
      }
    }
  }
}
