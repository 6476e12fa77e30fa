/** What sharing means with prefix caching, on values: which sequences share a block, and that appending, allocating, forking
    and freeing keep it so (vllm/core/block_manager_v1.py:268-431). */
module PrefixLaws {
  import opened Arithmetic
  import opened Blocks
  import opened Paging
  import opened Sequences
  import opened Evictors
  import opened CachedAllocator
  import opened PrefixSharing
  import opened Swapping

  /** The tables of a device, its blocks' hashes and counts, and the sequences. */
  datatype Shelf<B> = Shelf(tables: map<int, seq<B>>, info: map<B, Info>, texts: map<int, Text>)

  /** Every table has a block for each block of tokens. */
  ghost predicate Covers<B>(tables: map<int, seq<B>>, texts: map<int, Text>, blockSize: nat) {
    blockSize > 0 && forall id | id in tables && id in texts :: |tables[id]| == NumBlocks(|texts[id].tokens|, blockSize)
  }

  ghost predicate ShelfOk<B>(s: Shelf<B>, blockSize: nat) {
    && Sharing(s.tables, s.info, s.texts, blockSize) && Counts(s.tables, s.info, {}) && Covers(s.tables, s.texts, blockSize)
  }

  // ---- the laws -------------------------------------------------------------------------------------------------------

  /** Under one adapter, the texts have the same tokens before place `n`, as far as both have tokens there. */
  ghost predicate AgreeUpTo(a: Text, b: Text, n: int) {
    a.lora == b.lora && forall k | 0 <= k < n && k < |a.tokens| && k < |b.tokens| :: a.tokens[k] == b.tokens[k]
  }

  /** A block is in two tables only at the same place and if the sequences agree on all tokens up to its end. */
  ghost predicate Agree<B>(s: Shelf<B>, blockSize: nat) {
    forall p, i: nat, q, j: nat | p in s.tables && q in s.tables && p in s.texts && q in s.texts
      && i < |s.tables[p]| && j < |s.tables[q]| && s.tables[p][i] == s.tables[q][j] ::
        i == j && AgreeUpTo(s.texts[p], s.texts[q], (i + 1) * blockSize)
  }

  /** A full block bears the hash of all tokens up to its end. */
  ghost predicate FullBears<B>(s: Shelf<B>, blockSize: nat) {
    forall p, i: nat | p in s.tables && p in s.texts && i < |s.tables[p]| && s.tables[p][i] in s.info
      && (i + 1) * blockSize <= |s.texts[p].tokens| ::
        s.info[s.tables[p][i]].hash == Content(s.texts[p].tokens[..(i + 1) * blockSize], s.texts[p].lora)
  }

  ghost predicate Lawful<B>(s: Shelf<B>, blockSize: nat) { Agree(s, blockSize) && FullBears(s, blockSize) }

  /** Two sequences share a block that is full in both just when they have all tokens up to its end in common. */
  lemma SharedIff<B>(f: Files<B>, s: Shelf<B>, blockSize: nat, p: int, q: int, i: nat)
    requires FilesOk(f) && s.info == f.info && ShelfOk(s, blockSize) && FullBears(s, blockSize) && p in s.tables && q in s.tables
    requires i < |s.tables[p]| && i < |s.tables[q]|
    requires (i + 1) * blockSize <= |s.texts[p].tokens| && (i + 1) * blockSize <= |s.texts[q].tokens|
    ensures s.tables[p][i] == s.tables[q][i] <==>
            s.texts[p].lora == s.texts[q].lora
            && s.texts[p].tokens[..(i + 1) * blockSize] == s.texts[q].tokens[..(i + 1) * blockSize]
  {
    hide FilesOk, HashFits, Counts, Covers;
    assert TableFits(s.tables[p], s.info, s.texts[p], blockSize) && TableFits(s.tables[q], s.info, s.texts[q], blockSize);
    OneBlockPerHash(f, s.tables[p][i]);
    OneBlockPerHash(f, s.tables[q][i]);
  }

  // ---- arithmetic of blocks -------------------------------------------------------------------------------------------

  lemma BlocksHold(length: nat, blockSize: nat)
    requires blockSize > 0
    ensures var n := NumBlocks(length, blockSize);
      length <= n * blockSize && (n > 0 ==> (n - 1) * blockSize < length) && (n == 0 <==> length == 0)
  {
    var n := NumBlocks(length, blockSize);
    DivModOf(length + blockSize - 1, blockSize);
    if n > 0 {
      assert n * blockSize == (n - 1) * blockSize + blockSize;
    } else {
      assert n * blockSize == 0;
    }
    if length > 0 {
      LessFactor(0, n, blockSize);
    }
  }

  /** The last block is full. */
  ghost predicate FillsUp(t: Text, blockSize: nat)
    requires blockSize > 0
  {
    |t.tokens| > 0 && |t.tokens| % blockSize == 0
  }

  lemma FillsUpIs(t: Text, blockSize: nat)
    requires blockSize > 0
    ensures var n := NumBlocks(|t.tokens|, blockSize); FillsUp(t, blockSize) <==> n > 0 && |t.tokens| == n * blockSize
  {
    var l, n := |t.tokens|, NumBlocks(|t.tokens|, blockSize);
    BlocksHold(l, blockSize);
    DivModOf(l, blockSize);
    if l > 0 && l % blockSize == 0 {
      var q := l / blockSize;
      assert (n + 1) * blockSize == n * blockSize + blockSize;
      LessFactor(n - 1, q, blockSize);
      LessFactor(q, n + 1, blockSize);
    } else if n > 0 && l == n * blockSize {
      DivMod(n, 0, blockSize);
    }
  }

  /** The new tokens all belong to the last block, as when they come one at a time. */
  ghost predicate Steady(t: Text, t': Text, blockSize: nat)
    requires blockSize > 0
  {
    t.tokens <= t'.tokens && t'.lora == t.lora && (NumBlocks(|t'.tokens|, blockSize) - 1) * blockSize <= |t.tokens|
  }

  /** A token has been appended. */
  ghost predicate Continued(t: Text, t': Text) {
    t.tokens <= t'.tokens && |t'.tokens| == |t.tokens| + 1 && t'.lora == t.lora
  }

  lemma ContinuedSteady(t: Text, t': Text, blockSize: nat)
    requires blockSize > 0 && Continued(t, t')
    ensures Steady(t, t', blockSize)
  {
    BlocksHold(|t'.tokens|, blockSize);
  }

  // ---- a sequence grows -----------------------------------------------------------------------------------------------

  /** The block was filed under the hash of the whole text. */
  ghost predicate Found<B>(info: map<B, Info>, last: B, t: Text, blockSize: nat)
    requires blockSize > 0
  {
    FillsUp(t, blockSize) && last in info && info[last].hash == Content(t.tokens, t.lora)
  }

  /** The last block is still the one it was, held by this sequence alone. */
  ghost predicate Kept<B>(info: map<B, Info>, info': map<B, Info>, was: seq<B>, n: nat, last: B, t: Text, blockSize: nat)
    requires blockSize > 0
  {
    && |was| == n > 0 && last == Last(was) && last in info && last in info' && info[last].refs == 1
    && (!FillsUp(t, blockSize) ==> info'[last].hash == info[last].hash)
  }

  /** The block was not in use. */
  ghost predicate Unused<B>(info: map<B, Info>, info': map<B, Info>, last: B, t: Text, blockSize: nat)
    requires blockSize > 0
  {
    (last in info ==> info[last].refs <= 0) && last in info' && (!FillsUp(t, blockSize) ==> info'[last].hash.Fresh?)
  }

  /** What `append_slots` makes of the blocks, `last` being the last one after it and `was` the table before. */
  ghost predicate LastIs<B>(info: map<B, Info>, info': map<B, Info>, was: seq<B>, n: nat, last: B, t: Text, blockSize: nat)
    requires blockSize > 0
  {
    && last in info' && (forall b | b in info :: b in info')
    && (forall b | b in info' && b != last :: b in info && info'[b].hash == info[b].hash)
    && (if FillsUp(t, blockSize) then info'[last].hash == Content(t.tokens, t.lora) else info'[last].refs == 1)
    && (Found(info, last, t, blockSize) || Kept(info, info', was, n, last, t, blockSize)
        || (Unused(info, info', last, t, blockSize)
            && (|was| == n > 0 && Last(was) in info ==> info[Last(was)].refs != 1)))
  }

  /** What `append_slots` (374-418) makes of a sequence and its table. */
  ghost predicate Appended<B>(s: Shelf<B>, s': Shelf<B>, id: int, t: Text, blockSize: nat)
    requires blockSize > 0
  {
    && id in s.tables && id in s.texts && id in s'.tables
    && s'.texts == s.texts[id := t] && s'.tables == s.tables[id := s'.tables[id]]
    && var was, now, n := s.tables[id], s'.tables[id], NumBlocks(|t.tokens|, blockSize);
    && |now| == n > 0 && n - 1 <= |was| <= n && was[..n - 1] == now[..n - 1]
    && LastIs(s.info, s'.info, was, n, Last(now), t, blockSize)
  }

  lemma HeldCounted<B>(s: Shelf<B>, blockSize: nat, p: int, b: B)
    requires ShelfOk(s, blockSize) && p in s.tables && b in s.tables[p]
    ensures b in s.info && s.info[b].refs == |Holders(s.tables, b)| > 0 && p in Holders(s.tables, b)
  {
    assert TableFits(s.tables[p], s.info, s.texts[p], blockSize);
    assert p in Holders(s.tables, b);
  }

  lemma HeldTwice<B>(s: Shelf<B>, blockSize: nat, p: int, q: int, b: B)
    requires ShelfOk(s, blockSize) && p in s.tables && q in s.tables && p != q && b in s.tables[p] && b in s.tables[q]
    ensures b in s.info && s.info[b].refs != 1
  {
    hide ShelfOk, Holders;
    HeldCounted(s, blockSize, p, b);
    HeldCounted(s, blockSize, q, b);
    if s.info[b].refs == 1 {
      NotElse(Holders(s.tables, b), p, q);
    }
  }

  lemma GrownBounds<B>(s: Shelf<B>, s': Shelf<B>, id: int, t: Text, blockSize: nat)
    requires blockSize > 0 && Appended(s, s', id, t, blockSize) && Steady(s.texts[id], t, blockSize)
    ensures var n := NumBlocks(|t.tokens|, blockSize);
      (n - 1) * blockSize <= |s.texts[id].tokens| <= |t.tokens| <= n * blockSize && (n - 1) * blockSize < |t.tokens|
  {
    BlocksHold(|t.tokens|, blockSize);
  }

  /** The sequence that has grown and another that holds one of its blocks. */
  lemma GrownAgrees<B>(s: Shelf<B>, s': Shelf<B>, id: int, t: Text, blockSize: nat, i: nat, q: int, j: nat)
    requires blockSize > 0 && ShelfOk(s, blockSize) && ShelfOk(s', blockSize) && Lawful(s, blockSize)
    requires Appended(s, s', id, t, blockSize) && Steady(s.texts[id], t, blockSize)
    requires q in s.tables && q != id && i < |s'.tables[id]| && j < |s.tables[q]| && s'.tables[id][i] == s.tables[q][j]
    ensures i == j && AgreeUpTo(t, s.texts[q], (i + 1) * blockSize)
  {
    hide HashFits, Counts, Covers, Holders;
    var n, was, now, b := NumBlocks(|t.tokens|, blockSize), s.tables[id], s'.tables[id], s.tables[q][j];
    GrownBounds(s, s', id, t, blockSize);
    if i < n - 1 {
      MulAtLeast(i + 1, n - 1, blockSize);
      assert was[i] == was[..n - 1][i] == now[..n - 1][i] == b;
      assert i == j && AgreeUpTo(s.texts[id], s.texts[q], (i + 1) * blockSize);
    } else {
      assert now[i] in now && s'.tables[q][j] in s'.tables[q];
      HeldTwice(s', blockSize, id, q, b);
      assert FillsUp(t, blockSize);
      FillsUpIs(t, blockSize);
      SharedBlocksAgree(s'.tables, s'.info, s'.texts, blockSize, id, i, q, j);
    }
  }

  lemma AgreeAppended<B>(s: Shelf<B>, s': Shelf<B>, id: int, t: Text, blockSize: nat)
    requires blockSize > 0 && ShelfOk(s, blockSize) && ShelfOk(s', blockSize) && Lawful(s, blockSize)
    requires Appended(s, s', id, t, blockSize) && Steady(s.texts[id], t, blockSize)
    ensures Agree(s', blockSize)
  {
    hide HashFits, Counts, Covers, Holders, FullBears, AgreeUpTo, LastIs, Steady;
    forall p, i: nat, q, j: nat | p in s'.tables && q in s'.tables && p in s'.texts && q in s'.texts
        && i < |s'.tables[p]| && j < |s'.tables[q]| && s'.tables[p][i] == s'.tables[q][j]
      ensures i == j && AgreeUpTo(s'.texts[p], s'.texts[q], (i + 1) * blockSize)
    {
      if p == id && q == id {
        assert TableFits(s'.tables[id], s'.info, t, blockSize);
        AgreesWithItself(t, (i + 1) * blockSize);
      } else if p == id {
        GrownAgrees(s, s', id, t, blockSize, i, q, j);
      } else if q == id {
        GrownAgrees(s, s', id, t, blockSize, j, p, i);
        AgreeSwaps(t, s.texts[p], (i + 1) * blockSize);
      } else {
        assert s.tables[p][i] == s.tables[q][j];
      }
    }
  }

  lemma AgreesWithItself(t: Text, n: nat)
    ensures AgreeUpTo(t, t, n)
  {
  }

  lemma AgreeSwaps(a: Text, b: Text, n: nat)
    requires AgreeUpTo(a, b, n)
    ensures AgreeUpTo(b, a, n)
  {
  }

  /** Blocks that another sequence holds keep their hashes. */
  lemma OthersKeepHash<B>(s: Shelf<B>, s': Shelf<B>, id: int, t: Text, blockSize: nat, p: int, b: B)
    requires blockSize > 0 && ShelfOk(s, blockSize) && ShelfOk(s', blockSize) && Appended(s, s', id, t, blockSize)
    requires p in s.tables && p != id && b in s.tables[p]
    ensures b in s.info && b in s'.info && s'.info[b].hash == s.info[b].hash
  {
    hide HashFits, Covers, Holders;
    HeldCounted(s, blockSize, p, b);
    assert s'.tables[p] == s.tables[p];
    HeldCounted(s', blockSize, p, b);
    if b == Last(s'.tables[id]) && !Found(s.info, b, t, blockSize) {
      assert Kept(s.info, s'.info, s.tables[id], NumBlocks(|t.tokens|, blockSize), b, t, blockSize);
      HeldTwice(s, blockSize, id, p, b);
    }
  }

  lemma GrownBears<B>(s: Shelf<B>, s': Shelf<B>, id: int, t: Text, blockSize: nat, i: nat)
    requires blockSize > 0 && ShelfOk(s, blockSize) && ShelfOk(s', blockSize) && FullBears(s, blockSize)
    requires Appended(s, s', id, t, blockSize) && Steady(s.texts[id], t, blockSize)
    requires i < |s'.tables[id]| && s'.tables[id][i] in s'.info && (i + 1) * blockSize <= |t.tokens|
    ensures s'.info[s'.tables[id][i]].hash == Content(t.tokens[..(i + 1) * blockSize], t.lora)
  {
    hide HashFits, Counts, Covers, Holders;
    var n, was, now, m := NumBlocks(|t.tokens|, blockSize), s.tables[id], s'.tables[id], (i + 1) * blockSize;
    GrownBounds(s, s', id, t, blockSize);
    if i < n - 1 {
      MulAtLeast(i + 1, n - 1, blockSize);
      assert was[i] == was[..n - 1][i] == now[..n - 1][i] == now[i];
      assert TableFits(now, s'.info, t, blockSize);
      assert now[i] != Last(now);
      assert s.texts[id].tokens[..m] == t.tokens[..m];
    } else {
      FillsUpIs(t, blockSize);
      assert t.tokens[..m] == t.tokens;
    }
  }

  lemma BearsAppended<B>(s: Shelf<B>, s': Shelf<B>, id: int, t: Text, blockSize: nat)
    requires blockSize > 0 && ShelfOk(s, blockSize) && ShelfOk(s', blockSize) && FullBears(s, blockSize)
    requires Appended(s, s', id, t, blockSize) && Steady(s.texts[id], t, blockSize)
    ensures FullBears(s', blockSize)
  {
    hide ShelfOk, LastIs, Steady;
    forall p, i: nat | p in s'.tables && p in s'.texts && i < |s'.tables[p]| && s'.tables[p][i] in s'.info
        && (i + 1) * blockSize <= |s'.texts[p].tokens|
      ensures s'.info[s'.tables[p][i]].hash == Content(s'.texts[p].tokens[..(i + 1) * blockSize], s'.texts[p].lora)
    {
      if p != id {
        assert s.tables[p][i] in s.tables[p];
        OthersKeepHash(s, s', id, t, blockSize, p, s.tables[p][i]);
      } else {
        GrownBears(s, s', id, t, blockSize, i);
      }
    }
  }

  /** `append_slots` keeps the laws when the new tokens belong to one block. */
  lemma LawfulAppended<B>(s: Shelf<B>, s': Shelf<B>, id: int, t: Text, blockSize: nat)
    requires blockSize > 0 && ShelfOk(s, blockSize) && ShelfOk(s', blockSize) && Lawful(s, blockSize)
    requires Appended(s, s', id, t, blockSize) && Steady(s.texts[id], t, blockSize)
    ensures Lawful(s', blockSize)
  {
    AgreeAppended(s, s', id, t, blockSize);
    BearsAppended(s, s', id, t, blockSize);
  }

  /** Tokens that fill up the last block and begin another at once leave a full block with the hash of a part. */
  lemma UnsteadyFails<B>(s: Shelf<B>, s': Shelf<B>, id: int, t: Text, blockSize: nat)
    requires blockSize > 0 && ShelfOk(s, blockSize) && ShelfOk(s', blockSize) && Appended(s, s', id, t, blockSize)
    requires s.texts[id].tokens <= t.tokens && t.lora == s.texts[id].lora && !Steady(s.texts[id], t, blockSize)
    ensures !FullBears(s', blockSize)
  {
    hide Counts, Holders, FillsUp;
    var n, was, now, length := NumBlocks(|t.tokens|, blockSize), s.tables[id], s'.tables[id], |s.texts[id].tokens|;
    BlocksHold(|t.tokens|, blockSize);
    BlocksHold(length, blockSize);
    assert |was| == NumBlocks(length, blockSize) == n - 1 > 0;
    var i := n - 2;
    assert was[i] == was[..n - 1][i] == now[..n - 1][i] == now[i];
    assert TableFits(now, s'.info, t, blockSize) && TableFits(was, s.info, s.texts[id], blockSize);
    assert now[i] != Last(now) && s'.info[now[i]].hash == s.info[was[i]].hash;
    assert HashFits(s.info[was[i]].hash, s.texts[id], i, blockSize);
  }

  /** So `append_slots` keeps the laws exactly when the new tokens belong to the last block. */
  lemma LawfulIff<B>(s: Shelf<B>, s': Shelf<B>, id: int, t: Text, blockSize: nat)
    requires blockSize > 0 && ShelfOk(s, blockSize) && ShelfOk(s', blockSize) && Lawful(s, blockSize)
    requires Appended(s, s', id, t, blockSize) && s.texts[id].tokens <= t.tokens && t.lora == s.texts[id].lora
    ensures Lawful(s', blockSize) <==> Steady(s.texts[id], t, blockSize)
  {
    hide ShelfOk, LastIs;
    if Steady(s.texts[id], t, blockSize) {
      LawfulAppended(s, s', id, t, blockSize);
    } else {
      UnsteadyFails(s, s', id, t, blockSize);
    }
  }

  // ---- prompts, forks, and sequences that leave -----------------------------------------------------------------------

  /** Blocks in the tables keep their hashes. */
  ghost predicate HashesStay<B>(tables: map<int, seq<B>>, info: map<B, Info>, info': map<B, Info>) {
    forall p, i: nat | p in tables && i < |tables[p]| ::
      tables[p][i] in info && tables[p][i] in info' && info'[tables[p][i]].hash == info[tables[p][i]].hash
  }

  /** The hash of all tokens up to the end of block `i`, or of all there are. */
  ghost predicate PromptHash(h: Hash, t: Text, i: nat, blockSize: nat) {
    && h.Content? && h.lora == t.lora && h.tokens <= t.tokens
    && (if (i + 1) * blockSize <= |t.tokens| then |h.tokens| == (i + 1) * blockSize else h.tokens == t.tokens)
  }

  /** What `allocate` (268-295) makes of a prompt. */
  ghost predicate Admitted<B>(s: Shelf<B>, s': Shelf<B>, id: int, t: Text, blockSize: nat) {
    && id !in s.tables && id in s'.tables && s'.tables == s.tables[id := s'.tables[id]] && s'.texts == s.texts[id := t]
    && HashesStay(s.tables, s.info, s'.info)
    && (forall b | b in s'.info && b !in s'.tables[id] :: b in s.info && s'.info[b].hash == s.info[b].hash)
    && forall i: nat | i < |s'.tables[id]| ::
         s'.tables[id][i] in s'.info && PromptHash(s'.info[s'.tables[id][i]].hash, t, i, blockSize)
  }

  lemma AdmittedAgrees<B>(s: Shelf<B>, s': Shelf<B>, id: int, t: Text, blockSize: nat, i: nat, q: int, j: nat)
    requires ShelfOk(s', blockSize) && Admitted(s, s', id, t, blockSize) && q in s.tables
    requires i < |s'.tables[id]| && j < |s.tables[q]| && s'.tables[id][i] == s.tables[q][j]
    ensures i == j && AgreeUpTo(t, s'.texts[q], (i + 1) * blockSize)
  {
    hide Counts, Covers;
    SharedBlocksAgree(s'.tables, s'.info, s'.texts, blockSize, id, i, q, j);
  }

  /** Allocating a prompt keeps the laws. */
  lemma LawfulAdmitted<B>(s: Shelf<B>, s': Shelf<B>, id: int, t: Text, blockSize: nat)
    requires ShelfOk(s, blockSize) && ShelfOk(s', blockSize) && Lawful(s, blockSize) && Admitted(s, s', id, t, blockSize)
    ensures Lawful(s', blockSize)
  {
    hide HashFits, Counts, Covers, AgreeUpTo;
    forall p, i: nat, q, j: nat | p in s'.tables && q in s'.tables && p in s'.texts && q in s'.texts
        && i < |s'.tables[p]| && j < |s'.tables[q]| && s'.tables[p][i] == s'.tables[q][j]
      ensures i == j && AgreeUpTo(s'.texts[p], s'.texts[q], (i + 1) * blockSize)
    {
      if p == id && q == id {
        assert TableFits(s'.tables[id], s'.info, t, blockSize);
        AgreesWithItself(t, (i + 1) * blockSize);
      } else if p == id {
        AdmittedAgrees(s, s', id, t, blockSize, i, q, j);
      } else if q == id {
        AdmittedAgrees(s, s', id, t, blockSize, j, p, i);
        AgreeSwaps(t, s'.texts[p], (i + 1) * blockSize);
      } else {
        assert s.tables[p][i] == s.tables[q][j];
      }
    }
  }

  /** A fork keeps the laws: the child has its parent's tokens and blocks. */
  lemma LawfulForked<B>(s: Shelf<B>, s': Shelf<B>, parent: int, child: int, blockSize: nat)
    requires ShelfOk(s, blockSize) && ShelfOk(s', blockSize) && Lawful(s, blockSize) && parent in s.tables && child !in s.tables
    requires s'.tables == s.tables[child := s.tables[parent]] && s'.texts == s.texts[child := s.texts[parent]]
    requires HashesStay(s.tables, s.info, s'.info)
    ensures Lawful(s', blockSize)
  {
    hide Counts, Covers, HashFits, AgreeUpTo;
    forall p, i: nat, q, j: nat | p in s'.tables && q in s'.tables && p in s'.texts && q in s'.texts
        && i < |s'.tables[p]| && j < |s'.tables[q]| && s'.tables[p][i] == s'.tables[q][j]
      ensures i == j && AgreeUpTo(s'.texts[p], s'.texts[q], (i + 1) * blockSize)
    {
      var p0, q0 := if p == child then parent else p, if q == child then parent else q;
      assert s.tables[p0][i] == s.tables[q0][j];
    }
    forall p, i: nat | p in s'.tables && p in s'.texts && i < |s'.tables[p]| && s'.tables[p][i] in s'.info
        && (i + 1) * blockSize <= |s'.texts[p].tokens|
      ensures s'.info[s'.tables[p][i]].hash == Content(s'.texts[p].tokens[..(i + 1) * blockSize], s'.texts[p].lora)
    {
      var p0 := if p == child then parent else p;
      assert s.tables[p0][i] in s.info;
    }
  }

  /** Sequences that leave keep the laws for the others. */
  lemma LawfulFewer<B>(s: Shelf<B>, s': Shelf<B>, ids: set<int>, blockSize: nat)
    requires Lawful(s, blockSize) && s'.tables == s.tables - ids && s'.texts == s.texts - ids && HashesStay(s.tables, s.info, s'.info)
    ensures Lawful(s', blockSize)
  {
    hide AgreeUpTo;
    forall p, i: nat, q, j: nat | p in s'.tables && q in s'.tables && p in s'.texts && q in s'.texts
        && i < |s'.tables[p]| && j < |s'.tables[q]| && s'.tables[p][i] == s'.tables[q][j]
      ensures i == j && AgreeUpTo(s'.texts[p], s'.texts[q], (i + 1) * blockSize)
    {
      assert s.tables[p][i] == s.tables[q][j];
    }
    forall p, i: nat | p in s'.tables && p in s'.texts && i < |s'.tables[p]| && s'.tables[p][i] in s'.info
        && (i + 1) * blockSize <= |s'.texts[p].tokens|
      ensures s'.info[s'.tables[p][i]].hash == Content(s'.texts[p].tokens[..(i + 1) * blockSize], s'.texts[p].lora)
    {
      assert s.tables[p][i] in s.info;
    }
  }

  // ---- swapping -------------------------------------------------------------------------------------------------------

  /** The tables of `ids` have come from the device of `src`, each block for one of the same hash. */
  ghost predicate Brought<B>(src: Shelf<B>, dst: Shelf<B>, dst': Shelf<B>, ids: set<int>, mapping: map<B, B>) {
    && ids <= src.tables.Keys && ids <= src.texts.Keys && ids !! dst.tables.Keys
    && dst'.tables.Keys == dst.tables.Keys + ids && dst'.texts.Keys == dst.texts.Keys + ids
    && (forall q | q in dst.tables && q in dst.texts :: dst'.tables[q] == dst.tables[q] && dst'.texts[q] == dst.texts[q])
    && (forall p | p in ids :: Remapped(mapping, src.tables[p], dst'.tables[p]) && dst'.texts[p] == src.texts[p])
    && (forall x, y | x in mapping && y in mapping && mapping[x] == mapping[y] :: x == y)
    && (forall x | x in mapping :: x in src.info && mapping[x] in dst'.info && dst'.info[mapping[x]].hash == src.info[x].hash)
    && HashesStay(dst.tables, dst.info, dst'.info)
  }

  /** A sequence that is swapped bears no hash of a block of the other device whose sequence has other tokens there.  Full
      blocks never do, so this asks about blocks that have grown since they were hashed. */
  ghost predicate NoClash<B>(src: Shelf<B>, dst: Shelf<B>, ids: set<int>, blockSize: nat) {
    forall p, i: nat, q, j: nat | p in ids && p in src.tables && p in src.texts && q in dst.tables && q in dst.texts
      && i < |src.tables[p]| && j < |dst.tables[q]| && src.tables[p][i] in src.info && dst.tables[q][j] in dst.info
      && src.info[src.tables[p][i]].hash == dst.info[dst.tables[q][j]].hash ::
        i == j && AgreeUpTo(src.texts[p], dst.texts[q], (i + 1) * blockSize)
  }

  /** Blocks of sequences on the two devices come together just when they bear one hash. */
  lemma MeetIff<B>(f: Files<B>, src: Shelf<B>, dst: Shelf<B>, dst': Shelf<B>, ids: set<int>, mapping: map<B, B>, blockSize: nat,
                   p: int, i: nat, q: int, j: nat)
    requires FilesOk(f) && dst'.info == f.info && Brought(src, dst, dst', ids, mapping) && p in ids && q in dst.tables && q in dst.texts
    requires i < |src.tables[p]| && j < |dst.tables[q]|
    ensures src.tables[p][i] in src.info && dst.tables[q][j] in dst.info && i < |dst'.tables[p]| && j < |dst'.tables[q]|
    ensures dst'.tables[p][i] == dst'.tables[q][j] <==> src.info[src.tables[p][i]].hash == dst.info[dst.tables[q][j]].hash
  {
    hide FilesOk;
    var x := src.tables[p][i];
    assert x in mapping && dst'.tables[p][i] == mapping[x];
    OneBlockPerHash(f, dst'.tables[p][i]);
    OneBlockPerHash(f, dst'.tables[q][j]);
  }

  /** A swap keeps the hashes of full blocks. */
  lemma BearsBrought<B>(src: Shelf<B>, dst: Shelf<B>, dst': Shelf<B>, ids: set<int>, mapping: map<B, B>, blockSize: nat)
    requires FullBears(src, blockSize) && FullBears(dst, blockSize) && Brought(src, dst, dst', ids, mapping)
    requires dst.tables.Keys == dst.texts.Keys
    ensures FullBears(dst', blockSize)
  {
    forall p, i: nat | p in dst'.tables && p in dst'.texts && i < |dst'.tables[p]| && dst'.tables[p][i] in dst'.info
        && (i + 1) * blockSize <= |dst'.texts[p].tokens|
      ensures dst'.info[dst'.tables[p][i]].hash == Content(dst'.texts[p].tokens[..(i + 1) * blockSize], dst'.texts[p].lora)
    {
      if p in ids {
        var x := src.tables[p][i];
        assert x in mapping && dst'.tables[p][i] == mapping[x];
      } else {
        assert dst.tables[p][i] in dst.info;
      }
    }
  }

  /** The hash of a full block clashes with none. */
  lemma FullNeverClash<B>(src: Shelf<B>, dst: Shelf<B>, blockSize: nat, p: int, i: nat, q: int, j: nat)
    requires ShelfOk(src, blockSize) && ShelfOk(dst, blockSize) && FullBears(src, blockSize) && p in src.tables && q in dst.tables
    requires i < |src.tables[p]| && j < |dst.tables[q]| && src.tables[p][i] in src.info && dst.tables[q][j] in dst.info
    requires src.info[src.tables[p][i]].hash == dst.info[dst.tables[q][j]].hash && (i + 1) * blockSize <= |src.texts[p].tokens|
    ensures i == j && AgreeUpTo(src.texts[p], dst.texts[q], (i + 1) * blockSize)
  {
    hide Counts, Covers;
    assert TableFits(dst.tables[q], dst.info, dst.texts[q], blockSize);
    assert HashFits(dst.info[dst.tables[q][j]].hash, dst.texts[q], j, blockSize);
    assert (i + 1) * blockSize == i * blockSize + blockSize;
    SameIndex(i, j, (i + 1) * blockSize, blockSize);
  }

  /** After a swap, blocks are shared only by sequences that agree on what is in them, exactly when the hashes of blocks that
      are not full did not clash. */
  lemma AgreeBroughtIff<B>(f: Files<B>, src: Shelf<B>, dst: Shelf<B>, dst': Shelf<B>, ids: set<int>, mapping: map<B, B>,
                           blockSize: nat)
    requires FilesOk(f) && dst'.info == f.info && Brought(src, dst, dst', ids, mapping)
    requires dst.tables.Keys == dst.texts.Keys && Agree(src, blockSize) && Agree(dst, blockSize)
    ensures Agree(dst', blockSize) <==> NoClash(src, dst, ids, blockSize)
  {
    hide FilesOk, AgreeUpTo;
    if Agree(dst', blockSize) {
      forall p, i: nat, q, j: nat | p in ids && p in src.tables && p in src.texts && q in dst.tables && q in dst.texts
          && i < |src.tables[p]| && j < |dst.tables[q]| && src.tables[p][i] in src.info && dst.tables[q][j] in dst.info
          && src.info[src.tables[p][i]].hash == dst.info[dst.tables[q][j]].hash
        ensures i == j && AgreeUpTo(src.texts[p], dst.texts[q], (i + 1) * blockSize)
      {
        MeetIff(f, src, dst, dst', ids, mapping, blockSize, p, i, q, j);
      }
    }
    if NoClash(src, dst, ids, blockSize) {
      AgreeBrought(f, src, dst, dst', ids, mapping, blockSize);
    }
  }

  lemma AgreeBrought<B>(f: Files<B>, src: Shelf<B>, dst: Shelf<B>, dst': Shelf<B>, ids: set<int>, mapping: map<B, B>, blockSize: nat)
    requires FilesOk(f) && dst'.info == f.info && Brought(src, dst, dst', ids, mapping) && NoClash(src, dst, ids, blockSize)
    requires dst.tables.Keys == dst.texts.Keys && Agree(src, blockSize) && Agree(dst, blockSize)
    ensures Agree(dst', blockSize)
  {
    hide FilesOk, AgreeUpTo, HashesStay;
    forall p, i: nat, q, j: nat | p in dst'.tables && q in dst'.tables && p in dst'.texts && q in dst'.texts
        && i < |dst'.tables[p]| && j < |dst'.tables[q]| && dst'.tables[p][i] == dst'.tables[q][j]
      ensures i == j && AgreeUpTo(dst'.texts[p], dst'.texts[q], (i + 1) * blockSize)
    {
      if p in ids && q in ids {
        assert src.tables[p][i] in mapping && src.tables[q][j] in mapping;
        assert src.tables[p][i] == src.tables[q][j];
      } else if p in ids {
        MeetIff(f, src, dst, dst', ids, mapping, blockSize, p, i, q, j);
      } else if q in ids {
        MeetIff(f, src, dst, dst', ids, mapping, blockSize, q, j, p, i);
        AgreeSwaps(src.texts[q], dst.texts[p], (i + 1) * blockSize);
      } else {
        assert dst.tables[p][i] == dst.tables[q][j];
      }
    }
  }
}
