/** Swapping together with prefix caching (vllm/core/block_manager_v1.py:444-517): blocks are looked up on the other device
    by the hash they bear, of their contents or drawn from the counter of the device they come from.  The source keeps the
    tables of both devices in one dictionary; here those on the CPU are in `swapped`. */
module CachedSwapping {
  import opened Wrappers
  import opened Blocks
  import opened Paging
  import opened Swapping
  import opened Sequences
  import opened Evictors
  import opened CachedAllocator
  import opened PrefixSharing
  import opened PrefixLaws
  import opened CachedContents
  import opened CachedBlockManager

  // ---- one device, on values ------------------------------------------------------------------------------------------

  /** The tables of a device with their sequences. */
  datatype Side<B> = Side(tables: map<int, seq<B>>, texts: map<int, Text>)

  /** References to the blocks `owed` are still to be dropped. */
  ghost predicate SideOk<B>(s: Side<B>, f: Files<B>, owed: set<B>, blockSize: nat) {
    && FilesOk(f) && Sharing(s.tables, f.info, s.texts, blockSize) && Counts(s.tables, f.info, owed)
  }

  /** The hashes of the blocks `xs`. */
  ghost function HashesOf<B>(xs: set<B>, hashes: map<B, Hash>): set<Hash> {
    set x | x in xs && x in hashes :: hashes[x]
  }

  /** The blocks among `xs` whose hashes no block in use on the other device bears. */
  ghost function Missing<B>(xs: set<B>, hashes: map<B, Hash>, used: set<Hash>): set<B> {
    set x | x in xs && x in hashes && hashes[x] !in used
  }

  lemma MissingOne<B>(xs: set<B>, hashes: map<B, Hash>, used: set<Hash>, x: B)
    requires x in hashes && x !in xs
    ensures Missing(xs + {x}, hashes, used) == Missing(xs, hashes, used) + if hashes[x] in used then {} else {x}
    ensures |Missing(xs + {x}, hashes, used)| == |Missing(xs, hashes, used)| + if hashes[x] in used then 0 else 1
    ensures HashesOf(xs + {x}, hashes) == HashesOf(xs, hashes) + {hashes[x]}
  {
  }

  lemma MissingWithin<B>(xs: set<B>, ys: set<B>, hashes: map<B, Hash>, used: set<Hash>)
    requires xs <= ys
    ensures |Missing(xs, hashes, used)| <= |Missing(ys, hashes, used)| <= |ys|
  {
    SubsetSize(Missing(xs, hashes, used), Missing(ys, hashes, used));
    SubsetSize(Missing(ys, hashes, used), ys);
  }

  /** What the loops know of the blocks that have been moved: the target is in use and bears the hash. */
  ghost predicate Mapped<B>(mapping: map<B, B>, hashes: map<B, Hash>, dst: map<B, Info>) {
    forall x | x in mapping :: x in hashes && mapping[x] in dst && dst[mapping[x]].hash == hashes[x] && dst[mapping[x]].refs > 0
  }

  /** Blocks in use keep their hashes and stay in use. */
  ghost predicate KeepsUsed<B>(before: map<B, Info>, after: map<B, Info>) {
    forall b | b in before && before[b].refs > 0 :: b in after && after[b].hash == before[b].hash && after[b].refs > 0
  }

  /** Blocks in use are what they were, and so are the hashes of all blocks but the ones that were `taken`. */
  ghost predicate Joins<B>(before: map<B, Info>, after: map<B, Info>, taken: set<B>) {
    KeepsUsed(before, after) && forall b | b in after && b !in taken :: b in before && after[b].hash == before[b].hash
  }

  /** The blocks bear the same hashes. */
  ghost predicate HashesAsBefore<B>(before: map<B, Info>, after: map<B, Info>) {
    after.Keys == before.Keys && forall b | b in after :: after[b].hash == before[b].hash
  }

  lemma JoinsNone<B>(info: map<B, Info>)
    ensures Joins(info, info, {})
  {
  }

  lemma JoinsTwice<B>(a: map<B, Info>, b: map<B, Info>, c: map<B, Info>, s: set<B>, t: set<B>, all: set<B>)
    requires Joins(a, b, s) && Joins(b, c, t) && s + t <= all
    ensures Joins(a, c, all)
  {
  }

  /** An allocation takes the one block it returns. */
  lemma AllottedJoins<B>(f: Files<B>, h: Hash, room: bool, b: B, after: Files<B>)
    requires FilesOk(f) && Allotted(f, h, room, b, after)
    ensures Joins(f.info, after.info, {b})
  {
    hide FilesOk, Allotted;
    AllottedIs(f, h, room, b, after);
    AllottedKeeps(f, h, room, b, after);
  }

  /** Every block still bears the hash recorded for it. */
  ghost predicate Bears<B>(info: map<B, Info>, hashes: map<B, Hash>) {
    info.Keys == hashes.Keys && forall b | b in info :: info[b].hash == hashes[b]
  }

  /** An allocation leaves the blocks in use as they are. */
  lemma AllottedKeeps<B>(f: Files<B>, h: Hash, room: bool, b: B, after: Files<B>)
    requires FilesOk(f) && Allotted(f, h, room, b, after)
    ensures KeepsUsed(f.info, after.info) && b in after.info && after.info[b].hash == h && after.info[b].refs > 0
  {
    hide FilesOk, Allotted;
    AllottedIs(f, h, room, b, after);
  }

  lemma MappedStill<B>(mapping: map<B, B>, hashes: map<B, Hash>, before: map<B, Info>, after: map<B, Info>)
    requires Mapped(mapping, hashes, before) && KeepsUsed(before, after)
    ensures Mapped(mapping, hashes, after)
  {
  }

  lemma MappedMore<B>(mapping: map<B, B>, hashes: map<B, Hash>, info: map<B, Info>, x: B, b: B)
    requires Mapped(mapping, hashes, info) && x in hashes && b in info && info[b].hash == hashes[x] && info[b].refs > 0
    ensures Mapped(mapping[x := b], hashes, info)
  {
  }

  /** Different blocks go to different blocks. */
  ghost predicate Injective<B>(mapping: map<B, B>) {
    forall x, y | x in mapping && y in mapping && mapping[x] == mapping[y] :: x == y
  }

  lemma MappedApart<B>(mapping: map<B, B>, f: Files<B>, hashes: map<B, Hash>, dst: map<B, Info>)
    requires FilesOk(f) && Bears(f.info, hashes) && Mapped(mapping, hashes, dst)
    ensures Injective(mapping)
  {
    hide FilesOk;
    forall x, y | x in mapping && y in mapping && mapping[x] == mapping[y] ensures x == y {
      OneBlockPerHash(f, x);
      OneBlockPerHash(f, y);
    }
  }

  // ---- the table that moves -------------------------------------------------------------------------------------------

  /** The first blocks of `table` have moved into `moved`. */
  ghost predicate Moved<B>(table: seq<B>, moved: seq<B>, mapping: map<B, B>) {
    |moved| <= |table| && forall i | 0 <= i < |moved| :: table[i] in mapping && moved[i] == mapping[table[i]]
  }

  /** The blocks of a table bear the hashes of the sequence's blocks, or default ones. */
  ghost predicate TableBears<B>(table: seq<B>, hashes: map<B, Hash>, t: Text, blockSize: nat) {
    Distinct(table) && forall i: nat | i < |table| :: table[i] in hashes && HashFits(hashes[table[i]], t, i, blockSize)
  }

  /** The next block's hash belongs at the end of the table being filled, and none of the blocks there bears it. */
  lemma NextFits<B>(table: seq<B>, moved: seq<B>, mapping: map<B, B>, f: Files<B>, hashes: map<B, Hash>, dst: map<B, Info>,
                    t: Text, blockSize: nat)
    requires FilesOk(f) && Bears(f.info, hashes) && Mapped(mapping, hashes, dst) && Moved(table, moved, mapping) && |moved| < |table|
    requires TableBears(table, hashes, t, blockSize)
    ensures var x := table[|moved|];
      && x in hashes && HashFits(hashes[x], t, |moved|, blockSize) && NotAmong(hashes[x], moved, dst) && !hashes[x].Unhashed?
  {
    hide FilesOk, HashFits;
    var x := table[|moved|];
    OneBlockPerHash(f, x);
    forall i: nat | i < |moved| ensures dst[moved[i]].hash != hashes[x] {
      OneBlockPerHash(f, table[i]);
      assert table[i] != x;
    }
    HashedIs(f, x);
  }

  lemma HashedIs<B>(f: Files<B>, b: B)
    requires FilesOk(f) && b in f.info
    ensures !f.info[b].hash.Unhashed?
  {
  }

  /** A hash that a moved block has brought along is that of this block. */
  lemma BroughtBy<B>(mapping: map<B, B>, f: Files<B>, hashes: map<B, Hash>, x: B, used: set<Hash>)
    requires FilesOk(f) && Bears(f.info, hashes) && x in hashes && x !in mapping && mapping.Keys <= hashes.Keys
    ensures hashes[x] in used + HashesOf(mapping.Keys, hashes) <==> hashes[x] in used
  {
    hide FilesOk;
    if hashes[x] in HashesOf(mapping.Keys, hashes) {
      var y :| y in mapping && y in hashes && hashes[y] == hashes[x];
      OneBlockPerHash(f, x);
      OneBlockPerHash(f, y);
      assert false;
    }
  }

  lemma DrawnBefore<B>(f: Files<B>, b: B)
    requires FilesOk(f) && b in f.info && f.info[b].refs > 0
    ensures Wider(f.next, f.info[b].hash) == f.next && f.info[b].hash in f.cached && f.cached[f.info[b].hash] == b
    ensures f.info[b].hash !in f.keys && |f.table| == |f.keys|
  {
  }

  lemma PlacedIs<B>(d: Side<B>, f: Files<B>, h: Hash, room: bool, b: B, after: Files<B>, blockSize: nat, id: int)
    requires SideOk(d, f, {}, blockSize) && Allotted(f, h, room, b, after) && FilesOk(after) && id in d.tables
    requires HashFits(h, d.texts[id], |d.tables[id]|, blockSize) && NotAmong(h, d.tables[id], f.info)
    ensures SideOk(d.(tables := d.tables[id := d.tables[id] + [b]]), after, {}, blockSize)
    ensures KeepsUsed(f.info, after.info) && b in after.info && after.info[b].hash == h && after.info[b].refs > 0
    ensures Joins(f.info, after.info, {b})
  {
    hide FilesOk, Allotted, HashFits, NotAmong, Sharing, Counts, Joins;
    AllottedJoins(f, h, room, b, after);
    TextsToo(d, f, {}, blockSize);
    AllotAppends(f, h, room, b, after, d.tables, d.texts, {}, blockSize, id);
    AllottedKeeps(f, h, room, b, after);
  }

  lemma TextsToo<B>(s: Side<B>, f: Files<B>, owed: set<B>, blockSize: nat)
    requires SideOk(s, f, owed, blockSize)
    ensures s.texts.Keys == s.tables.Keys
  {
  }

  lemma WiderSide<B>(d: Side<B>, f: Files<B>, next: nat, blockSize: nat)
    requires SideOk(d, f, {}, blockSize) && FilesOk(f.(next := next))
    ensures SideOk(d, f.(next := next), {}, blockSize)
  {
  }

  // ---- the loops of `swap_in` and `swap_out` --------------------------------------------------------------------------

  /** The block of device `dst` for a moved block of hash `h`: the one it was moved to before, or one looked up by hash. */
  method PlaceBlock(block: PhysicalTokenBlock, h: Hash, numHashedTokens: nat, mapping: map<PhysicalTokenBlock, PhysicalTokenBlock>,
                    dst: CachedBlockAllocator, ghost d: Side<PhysicalTokenBlock>, ghost id: int,
                    ghost hashes: map<PhysicalTokenBlock, Hash>, ghost blockSize: nat)
    returns (r: Result<PhysicalTokenBlock>)
    requires dst.Valid() && SideOk(d, dst.Books(), {}, blockSize) && id in d.tables && id in d.texts
    requires Mapped(mapping, hashes, dst.info) && block in hashes && hashes[block] == h && !h.Unhashed?
    requires HashFits(h, d.texts[id], |d.tables[id]|, blockSize) && NotAmong(h, d.tables[id], dst.info)
    modifies dst`currentNumBlocks, dst`cachedBlocks, dst`defaultHashCtr, dst`bound, dst`info, dst.evictor, dst.info.Keys
    ensures dst.Valid() && fresh(dst.info.Keys - old(dst.info).Keys) && dst.defaultHashCtr == old(dst.defaultHashCtr)
    ensures r.Ok? <==> block in mapping || old(dst.ContainsBlock(h)) || old(dst.NumFreeBlocks()) > 0
    ensures r.Err? ==> r.error == OutOfMemory
    ensures r.Ok? ==>
      && SideOk(d.(tables := d.tables[id := d.tables[id] + [r.value]]), dst.Books(), {}, blockSize)
      && Mapped(mapping[block := r.value], hashes, dst.info) && (block in mapping ==> r.value == mapping[block])
      && dst.NumFreeBlocks() == old(dst.NumFreeBlocks()) - (if h in old(dst.cachedBlocks) then 0 else 1)
      && dst.cachedBlocks.Keys == old(dst.cachedBlocks).Keys + {h} && dst.bound == Wider(old(dst.bound), h)
      && Joins(old(dst.info), dst.info, {r.value})
  {
    hide Joins, FilesOk, SideOk, HashFits, NotAmong, Allotted, Numbered, Drawn, Mapped, KeepsUsed, CachedBlockAllocator.Mirrored;
    ghost var f, before := dst.Books(), dst.info;
    if block in mapping {
      var target := mapping[block];
      MappedAt(mapping, hashes, before, block);
      DrawnBefore(f, target);
      dst.AddReference(target);
      SharedAllotted(f, h, target);
      PlacedIs(d, f, h, false, target, dst.Books(), blockSize, id);
      MappedStill(mapping, hashes, before, dst.info);
      MappedMore(mapping, hashes, dst.info, block, target);
      return Ok(target);
    }
    ghost var g, room := BooksFor(Some(h), f), dst.currentNumBlocks < dst.numBlocks;
    WiderOk(f, h);
    WiderSide(d, f, g.next, blockSize);
    r := dst.Allocate(Some(h), numHashedTokens);
    if r.Ok? {
      PlacedIs(d, g, h, room, r.value, dst.Books(), blockSize, id);
      MappedStill(mapping, hashes, before, dst.info);
      MappedMore(mapping, hashes, dst.info, block, r.value);
    }
  }

  lemma MappedAt<B>(mapping: map<B, B>, hashes: map<B, Hash>, dst: map<B, Info>, x: B)
    requires Mapped(mapping, hashes, dst) && x in mapping
    ensures x in hashes && mapping[x] in dst && dst[mapping[x]].hash == hashes[x] && dst[mapping[x]].refs > 0
  {
  }

  /** One reference more to a block in use is what an allocation for its hash does. */
  lemma SharedAllotted<B>(f: Files<B>, h: Hash, b: B)
    requires FilesOk(f) && h in f.cached && f.cached[h] == b
    ensures b in f.info && Allotted(f, h, false, b, Shared(f, h))
  {
  }

  /** The allocators of two devices have no object in common. */
  ghost predicate Separate(src: CachedBlockAllocator, dst: CachedBlockAllocator)
    reads src`info, dst`info
  {
    src != dst && src.evictor != dst.evictor && src.info.Keys !! dst.info.Keys
  }

  lemma ReleasedSide<B>(s: Side<B>, f: Files<B>, owed: set<B>, blockSize: nat, b: B)
    requires SideOk(s, f, owed, blockSize) && b in owed && b in f.info && FilesOk(Released(f, b))
    ensures f.info[b].refs > 0 && SideOk(s, Released(f, b), owed - {b}, blockSize)
    ensures |Released(f, b).keys| >= |f.keys|
  {
    hide FilesOk, Sharing, Counts;
    OwedReleased(f, b, s.tables, s.texts, owed, blockSize);
  }

  lemma OwedCounted<B>(s: Side<B>, f: Files<B>, owed: set<B>, blockSize: nat, b: B)
    requires SideOk(s, f, owed, blockSize) && b in owed && b in f.info
    ensures f.info[b].refs > 0 && FilesOk(Released(f, b))
  {
    hide FilesOk, Sharing;
    OwedReleased(f, b, s.tables, s.texts, owed, blockSize);
    ReleasedOk(f, b);
  }

  /** The reference of a block that has been moved is dropped (479, 509). */
  method DropMoved(block: PhysicalTokenBlock, src: CachedBlockAllocator, ghost s: Side<PhysicalTokenBlock>,
                   ghost owed: set<PhysicalTokenBlock>, ghost hashes: map<PhysicalTokenBlock, Hash>, ghost blockSize: nat)
    requires src.Valid() && SideOk(s, src.Books(), owed, blockSize) && block in owed && block in src.info && Bears(src.info, hashes)
    modifies src`cachedBlocks, src`info, src.evictor, block`refCount, block`blockHash
    ensures src.Valid() && SideOk(s, src.Books(), owed - {block}, blockSize) && src.info.Keys == old(src.info).Keys && Bears(src.info,
                                                                                                                             hashes)
    ensures src.NumFreeBlocks() >= old(src.NumFreeBlocks())
  {
    hide FilesOk, SideOk, Numbered;
    ghost var f := src.Books();
    OwedCounted(s, f, owed, blockSize, block);
    ReleasedSide(s, f, owed, blockSize, block);
    var freed := src.Free(block);
    assert freed.Ok?;
  }

  /** One turn of the inner loops (470-480, 500-510): `block` is found or made again on `dst` for the end of the table of
      `id`, and its reference on `src` dropped. */
  method MoveBlock(block: PhysicalTokenBlock, mapping: map<PhysicalTokenBlock, PhysicalTokenBlock>,
                   src: CachedBlockAllocator, dst: CachedBlockAllocator, ghost s: Side<PhysicalTokenBlock>,
                   ghost owed: set<PhysicalTokenBlock>,
                   ghost d: Side<PhysicalTokenBlock>, ghost id: int, ghost hashes: map<PhysicalTokenBlock, Hash>, ghost blockSize: nat)
    returns (r: Result<PhysicalTokenBlock>)
    requires Separate(src, dst) && src.Valid() && dst.Valid() && block in owed && block in src.info && Bears(src.info, hashes)
    requires SideOk(s, src.Books(), owed, blockSize) && SideOk(d, dst.Books(), {}, blockSize) && id in d.tables && id in d.texts
    requires Mapped(mapping, hashes, dst.info) && !hashes[block].Unhashed?
    requires HashFits(hashes[block], d.texts[id], |d.tables[id]|, blockSize) && NotAmong(hashes[block], d.tables[id], dst.info)
    modifies dst`currentNumBlocks, dst`cachedBlocks, dst`defaultHashCtr, dst`bound, dst`info, dst.evictor, dst.info.Keys
    modifies src`cachedBlocks, src`info, src.evictor, block`refCount, block`blockHash
    ensures src.Valid() && src.NumFreeBlocks() >= old(src.NumFreeBlocks())
    ensures dst.Valid() && dst.defaultHashCtr == old(dst.defaultHashCtr) && fresh(dst.info.Keys - old(dst.info).Keys)
    ensures r.Ok? <==> block in mapping || old(dst.ContainsBlock(hashes[block])) || old(dst.NumFreeBlocks()) > 0
    ensures r.Err? ==> r.error == OutOfMemory
    ensures r.Ok? ==>
      && Separate(src, dst) && src.info.Keys == old(src.info).Keys && Bears(src.info, hashes)
      && SideOk(s, src.Books(), owed - {block}, blockSize)
      && SideOk(d.(tables := d.tables[id := d.tables[id] + [r.value]]), dst.Books(), {}, blockSize)
      && Mapped(mapping[block := r.value], hashes, dst.info) && (block in mapping ==> r.value == mapping[block])
      && dst.NumFreeBlocks() == old(dst.NumFreeBlocks()) - (if hashes[block] in old(dst.cachedBlocks) then 0 else 1)
      && dst.cachedBlocks.Keys == old(dst.cachedBlocks).Keys + {hashes[block]}
      && dst.bound == Wider(old(dst.bound), hashes[block]) && Joins(old(dst.info), dst.info, {r.value})
  {
    hide Joins, SideOk, HashFits, NotAmong, Mapped, Numbered, FilesOk;
    assert block.blockHash == hashes[block];
    r := PlaceBlock(block, block.blockHash, block.numHashedTokens, mapping, dst, d, id, hashes, blockSize);
    if r.Ok? {
      DropMoved(block, src, s, owed, hashes, blockSize);
    }
  }

  // ---- a table, and all tables of a group -----------------------------------------------------------------------------

  /** What is left of `free` free blocks, and which hashes are in use, when the blocks `moved` have arrived. */
  ghost predicate Tallied<B>(free: int, cached: set<Hash>, free0: int, used: set<Hash>, moved: set<B>, hashes: map<B, Hash>) {
    free == free0 - |Missing(moved, hashes, used)| && cached == used + HashesOf(moved, hashes)
  }

  lemma TalliedNext<B>(free: int, cached: set<Hash>, free0: int, used: set<Hash>, mapping: map<B, B>, hashes: map<B, Hash>, f: Files<B>,
                       x: B)
    requires Tallied(free, cached, free0, used, mapping.Keys, hashes) && FilesOk(f) && Bears(f.info, hashes)
    requires x in hashes && mapping.Keys <= hashes.Keys
    ensures Tallied(free - (if hashes[x] in cached then 0 else 1), cached + {hashes[x]}, free0, used, mapping.Keys + {x}, hashes)
    ensures hashes[x] !in cached ==> x !in mapping
  {
    hide FilesOk, Bears;
    if x in mapping {
      assert mapping.Keys + {x} == mapping.Keys && hashes[x] in HashesOf(mapping.Keys, hashes);
    } else {
      BroughtBy(mapping, f, hashes, x, used);
      MissingOne(mapping.Keys, hashes, used, x);
    }
  }

  /** Half-way through a table: `k` blocks have moved. */
  ghost predicate OnTheWay(table: BlockTable, k: nat, moved: BlockTable, mapping: map<PhysicalTokenBlock, PhysicalTokenBlock>,
                           mapping0: map<PhysicalTokenBlock, PhysicalTokenBlock>, hashes: map<PhysicalTokenBlock, Hash>,
                           s: Side<PhysicalTokenBlock>, sf: Files<PhysicalTokenBlock>, d: Side<PhysicalTokenBlock>,
                           df: Files<PhysicalTokenBlock>,
                           id: int, t: Text, blockSize: nat) {
    && k <= |table| && |moved| == k && Moved(table, moved, mapping) && Mapped(mapping, hashes, df.info) && Bears(sf.info, hashes)
    && mapping.Keys == mapping0.Keys + Elements(table[..k]) && (forall x | x in mapping0 :: mapping[x] == mapping0[x])
    && SideOk(s, sf, Elements(table[k..]), blockSize)
    && SideOk(Side(d.tables[id := moved], d.texts[id := t]), df, {}, blockSize)
  }

  lemma WayStarts(table: BlockTable, mapping: map<PhysicalTokenBlock, PhysicalTokenBlock>, hashes: map<PhysicalTokenBlock, Hash>,
                  s: Side<PhysicalTokenBlock>, sf: Files<PhysicalTokenBlock>, d: Side<PhysicalTokenBlock>, df: Files<PhysicalTokenBlock>,
                  id: int, t: Text, blockSize: nat)
    requires SideOk(s, sf, Elements(table), blockSize) && SideOk(d, df, {}, blockSize) && id !in d.tables
    requires Mapped(mapping, hashes, df.info) && Bears(sf.info, hashes)
    ensures OnTheWay(table, 0, [], mapping, mapping, hashes, s, sf, d, df, id, t, blockSize)
  {
    hide FilesOk, Sharing, Counts, Mapped, Bears;
    EmptyTable(d.tables, df.info, d.texts, blockSize, id, t);
    assert table[0..] == table;
  }

  /** The block whose turn it is. */
  lemma WayNext(table: BlockTable, k: nat, moved: BlockTable, mapping: map<PhysicalTokenBlock, PhysicalTokenBlock>,
                mapping0: map<PhysicalTokenBlock, PhysicalTokenBlock>, hashes: map<PhysicalTokenBlock, Hash>,
                s: Side<PhysicalTokenBlock>, sf: Files<PhysicalTokenBlock>, d: Side<PhysicalTokenBlock>, df: Files<PhysicalTokenBlock>,
                id: int, t: Text, blockSize: nat)
    requires OnTheWay(table, k, moved, mapping, mapping0, hashes, s, sf, d, df, id, t, blockSize) && k < |table|
    requires TableBears(table, hashes, t, blockSize)
    ensures var x := table[k];
      && x in Elements(table[k..]) && x in sf.info && x in hashes && !hashes[x].Unhashed? && HashFits(hashes[x], t, k, blockSize)
      && NotAmong(hashes[x], moved, df.info) && Elements(table[k..]) - {x} == Elements(table[k + 1..])
  {
    hide FilesOk, Sharing, Counts, HashFits, NotAmong, Mapped;
    BooksAreOk(s, sf, Elements(table[k..]), blockSize);
    NextFits(table, moved, mapping, sf, hashes, df.info, t, blockSize);
    assert table[k..] == [table[k]] + table[k + 1..];
    forall i | k + 1 <= i < |table| ensures table[i] != table[k] {
    }
  }

  lemma BooksAreOk<B>(s: Side<B>, f: Files<B>, owed: set<B>, blockSize: nat)
    requires SideOk(s, f, owed, blockSize)
    ensures FilesOk(f)
  {
  }

  lemma WayGoesOn(table: BlockTable, k: nat, moved: BlockTable, mapping: map<PhysicalTokenBlock, PhysicalTokenBlock>,
                  mapping0: map<PhysicalTokenBlock, PhysicalTokenBlock>, hashes: map<PhysicalTokenBlock, Hash>,
                  s: Side<PhysicalTokenBlock>, sf: Files<PhysicalTokenBlock>, d: Side<PhysicalTokenBlock>, df: Files<PhysicalTokenBlock>,
                  id: int, t: Text, blockSize: nat, b: PhysicalTokenBlock, sf': Files<PhysicalTokenBlock>, df': Files<PhysicalTokenBlock>)
    requires OnTheWay(table, k, moved, mapping, mapping0, hashes, s, sf, d, df, id, t, blockSize) && k < |table|
    requires Elements(table[k..]) - {table[k]} == Elements(table[k + 1..])
    requires Bears(sf'.info, hashes) && SideOk(s, sf', Elements(table[k..]) - {table[k]}, blockSize)
    requires SideOk(Side(d.tables[id := moved + [b]], d.texts[id := t]), df', {}, blockSize)
    requires Mapped(mapping[table[k] := b], hashes, df'.info) && (table[k] in mapping ==> b == mapping[table[k]])
    ensures OnTheWay(table, k + 1, moved + [b], mapping[table[k] := b], mapping0, hashes, s, sf', d, df', id, t, blockSize)
    ensures mapping[table[k] := b].Keys == mapping.Keys + {table[k]}
  {
    hide SideOk, Mapped, Bears;
    ElementsOfPrefix(table, k);
  }

  lemma WayIs(table: BlockTable, k: nat, moved: BlockTable, mapping: map<PhysicalTokenBlock, PhysicalTokenBlock>,
              mapping0: map<PhysicalTokenBlock, PhysicalTokenBlock>, hashes: map<PhysicalTokenBlock, Hash>,
              s: Side<PhysicalTokenBlock>, sf: Files<PhysicalTokenBlock>, d: Side<PhysicalTokenBlock>, df: Files<PhysicalTokenBlock>,
              id: int, t: Text, blockSize: nat)
    requires OnTheWay(table, k, moved, mapping, mapping0, hashes, s, sf, d, df, id, t, blockSize)
    ensures |moved| == k && Mapped(mapping, hashes, df.info) && Bears(sf.info, hashes) && FilesOk(sf)
    ensures SideOk(s, sf, Elements(table[k..]), blockSize) && SideOk(Side(d.tables[id := moved], d.texts[id := t]), df, {}, blockSize)
    ensures mapping.Keys == mapping0.Keys + Elements(table[..k])
  {
  }

  lemma WiderBound<B>(f: Files<B>, b: B, bound: nat)
    requires FilesOk(f) && b in f.info
    ensures bound <= Wider(bound, f.info[b].hash) && (Wider(bound, f.info[b].hash) == bound || Wider(bound, f.info[b].hash) <= f.next)
  {
  }

  /** A turn that finds no room means that more blocks are missing than there were free ones. */
  lemma TooMany<B>(free: int, cached: set<Hash>, free0: int, used: set<Hash>, mapping: map<B, B>, hashes: map<B, Hash>, f: Files<B>,
                   table: seq<B>, k: nat, before: set<B>)
    requires Tallied(free, cached, free0, used, mapping.Keys, hashes) && free <= 0
    requires FilesOk(f) && Bears(f.info, hashes) && mapping.Keys <= hashes.Keys
    requires k < |table| && mapping.Keys == before + Elements(table[..k]) && table[k] in hashes && table[k] !in mapping
    requires hashes[table[k]] !in cached
    ensures |Missing(before + Elements(table), hashes, used)| > free0
  {
    hide FilesOk, Bears;
    var x := table[k];
    TalliedNext(free, cached, free0, used, mapping, hashes, f, x);
    assert mapping.Keys + {x} <= before + Elements(table);
    MissingWithin(mapping.Keys + {x}, before + Elements(table), hashes, used);
  }

  /** The state around a moving table. */
  ghost predicate Underway(table: BlockTable, k: nat, moved: BlockTable, mapping: map<PhysicalTokenBlock, PhysicalTokenBlock>,
                           mapping0: map<PhysicalTokenBlock, PhysicalTokenBlock>, src: CachedBlockAllocator, dst: CachedBlockAllocator,
                           s: Side<PhysicalTokenBlock>, d: Side<PhysicalTokenBlock>, id: int, t: Text,
                           hashes: map<PhysicalTokenBlock, Hash>, free0: int, used: set<Hash>, blockSize: nat)
    reads src, src.evictor, src.info.Keys, dst, dst.evictor, dst.info.Keys
  {
    && Separate(src, dst) && src.Valid() && dst.Valid() && mapping.Keys <= hashes.Keys
    && OnTheWay(table, k, moved, mapping, mapping0, hashes, s, src.Books(), d, dst.Books(), id, t, blockSize)
    && Tallied(dst.NumFreeBlocks(), dst.cachedBlocks.Keys, free0, used, mapping.Keys, hashes)
  }

  /** The side of a device with a table that is being filled. */
  ghost function Joined<B>(d: Side<B>, id: int, moved: seq<B>, t: Text): Side<B> {
    Side(d.tables[id := moved], d.texts[id := t])
  }

  /** What the next turn needs, and what it means if it fails. */
  lemma TurnStarts(table: BlockTable, k: nat, moved: BlockTable, mapping: map<PhysicalTokenBlock, PhysicalTokenBlock>,
                     mapping0: map<PhysicalTokenBlock, PhysicalTokenBlock>, src: CachedBlockAllocator, dst: CachedBlockAllocator,
                     s: Side<PhysicalTokenBlock>, d: Side<PhysicalTokenBlock>, id: int, t: Text,
                     hashes: map<PhysicalTokenBlock, Hash>, free0: int, used: set<Hash>, blockSize: nat)
    requires Underway(table, k, moved, mapping, mapping0, src, dst, s, d, id, t, hashes, free0, used, blockSize)
    requires k < |table| && TableBears(table, hashes, t, blockSize)
    ensures Separate(src, dst) && src.Valid() && dst.Valid() && Bears(src.info, hashes) && Mapped(mapping, hashes, dst.info)
    ensures mapping.Keys <= hashes.Keys
    ensures OnTheWay(table, k, moved, mapping, mapping0, hashes, s, src.Books(), d, dst.Books(), id, t, blockSize)
    ensures SideOk(s, src.Books(), Elements(table[k..]), blockSize) && SideOk(Joined(d, id, moved, t), dst.Books(), {}, blockSize)
    ensures var x := table[k];
      && x in Elements(table[k..]) && x in src.info && x in hashes && !hashes[x].Unhashed? && |moved| == k
      && HashFits(hashes[x], t, k, blockSize) && NotAmong(hashes[x], moved, dst.info)
      && Elements(table[k..]) - {x} == Elements(table[k + 1..])
      && Tallied(dst.NumFreeBlocks() - (if hashes[x] in dst.cachedBlocks then 0 else 1), dst.cachedBlocks.Keys + {hashes[x]},
                 free0, used, mapping.Keys + {x}, hashes)
      && dst.bound <= Wider(dst.bound, hashes[x]) && (Wider(dst.bound, hashes[x]) == dst.bound || Wider(dst.bound, hashes[x]) <= src.bound)
      && (dst.NumFreeBlocks() <= 0 && x !in mapping && !dst.ContainsBlock(hashes[x]) ==>
            |Missing(mapping0.Keys + Elements(table), hashes, used)| > free0)
  {
    hide SideOk, HashFits, NotAmong, Mapped, FilesOk, OnTheWay, TableBears, Tallied, CachedBlockAllocator.Valid;
    hide CachedBlockAllocator.NumFreeBlocks, Missing;
    ghost var sf, df, free, cached := src.Books(), dst.Books(), dst.NumFreeBlocks(), dst.cachedBlocks.Keys;
    var block := table[k];
    WayNext(table, k, moved, mapping, mapping0, hashes, s, sf, d, df, id, t, blockSize);
    WayIs(table, k, moved, mapping, mapping0, hashes, s, sf, d, df, id, t, blockSize);
    TalliedNext(free, cached, free0, used, mapping, hashes, sf, block);
    WiderBound(sf, block, dst.bound);
    if free <= 0 && block !in mapping && !dst.ContainsBlock(hashes[block]) {
      TooMany(free, cached, free0, used, mapping, hashes, sf, table, k, mapping0.Keys);
    }
  }

  lemma TurnEnds(table: BlockTable, k: nat, moved: BlockTable, mapping: map<PhysicalTokenBlock, PhysicalTokenBlock>,
                     mapping0: map<PhysicalTokenBlock, PhysicalTokenBlock>, src: CachedBlockAllocator, dst: CachedBlockAllocator,
                     s: Side<PhysicalTokenBlock>, d: Side<PhysicalTokenBlock>, id: int, t: Text,
                     hashes: map<PhysicalTokenBlock, Hash>, free0: int, used: set<Hash>, blockSize: nat,
                 b: PhysicalTokenBlock, sf: Files<PhysicalTokenBlock>, df: Files<PhysicalTokenBlock>)
    requires k < |table| && OnTheWay(table, k, moved, mapping, mapping0, hashes, s, sf, d, df, id, t, blockSize)
    requires Elements(table[k..]) - {table[k]} == Elements(table[k + 1..]) && mapping.Keys <= hashes.Keys && table[k] in hashes
    requires Separate(src, dst) && src.Valid() && dst.Valid() && Bears(src.info, hashes)
    requires SideOk(s, src.Books(), Elements(table[k..]) - {table[k]}, blockSize)
    requires var side := Joined(d, id, moved, t);
      SideOk(side.(tables := side.tables[id := side.tables[id] + [b]]), dst.Books(), {}, blockSize)
    requires Mapped(mapping[table[k] := b], hashes, dst.info) && (table[k] in mapping ==> b == mapping[table[k]])
    requires Tallied(dst.NumFreeBlocks(), dst.cachedBlocks.Keys, free0, used, mapping.Keys + {table[k]}, hashes)
    ensures Underway(table, k + 1, moved + [b], mapping[table[k] := b], mapping0, src, dst, s, d, id, t, hashes, free0, used, blockSize)
  {
    hide SideOk, Mapped, Bears, FilesOk, OnTheWay, Tallied, CachedBlockAllocator.Valid;
    assert d.tables[id := moved][id := moved + [b]] == d.tables[id := moved + [b]];
    WayGoesOn(table, k, moved, mapping, mapping0, hashes, s, sf, d, df, id, t, blockSize, b, src.Books(), dst.Books());
  }

  /** One turn of the inner loop. */
  method MoveNext(table: BlockTable, k: nat, ghost moved: BlockTable, mapping: map<PhysicalTokenBlock, PhysicalTokenBlock>,
                  ghost mapping0: map<PhysicalTokenBlock, PhysicalTokenBlock>, src: CachedBlockAllocator, dst: CachedBlockAllocator,
                  ghost s: Side<PhysicalTokenBlock>, ghost d: Side<PhysicalTokenBlock>, ghost id: int, ghost t: Text,
                  ghost hashes: map<PhysicalTokenBlock, Hash>, ghost free0: int, ghost used: set<Hash>, ghost blockSize: nat)
    returns (r: Result<PhysicalTokenBlock>)
    requires k < |table| && TableBears(table, hashes, t, blockSize)
    requires Underway(table, k, moved, mapping, mapping0, src, dst, s, d, id, t, hashes, free0, used, blockSize)
    modifies dst`currentNumBlocks, dst`cachedBlocks, dst`defaultHashCtr, dst`bound, dst`info, dst.evictor, dst.info.Keys
    modifies src`cachedBlocks, src`info, src.evictor, src.info.Keys
    ensures src.NumFreeBlocks() >= old(src.NumFreeBlocks())
    ensures dst.defaultHashCtr == old(dst.defaultHashCtr) && fresh(dst.info.Keys - old(dst.info).Keys)
    ensures r.Err? ==> r.error == OutOfMemory && |Missing(mapping0.Keys + Elements(table), hashes, used)| > free0
    ensures r.Ok? ==>
      && src.info.Keys == old(src.info).Keys
      && Underway(table, k + 1, moved + [r.value], mapping[table[k] := r.value], mapping0, src, dst, s, d, id, t, hashes, free0, used,
                  blockSize)
      && old(dst.bound) <= dst.bound && (dst.bound == old(dst.bound) || dst.bound <= src.bound)
      && Joins(old(dst.info), dst.info, {r.value})
  {
    hide Joins, SideOk, HashFits, NotAmong, Mapped, Bears, FilesOk, OnTheWay, TableBears, Tallied, CachedBlockAllocator.Valid;
    hide CachedBlockAllocator.NumFreeBlocks, CachedBlockAllocator.ContainsBlock, Elements, Underway, Missing, Wider;
    ghost var sf, df := src.Books(), dst.Books();
    TurnStarts(table, k, moved, mapping, mapping0, src, dst, s, d, id, t, hashes, free0, used, blockSize);
    r := MoveBlock(table[k], mapping, src, dst, s, Elements(table[k..]), Joined(d, id, moved, t), id, hashes, blockSize);
    if r.Ok? {
      TurnEnds(table, k, moved, mapping, mapping0, src, dst, s, d, id, t, hashes, free0, used, blockSize, r.value, sf, df);
    }
  }

  /** The inner loop of `swap_in` and `swap_out`: the table of `id`, which has left `s`, joins `d`. */
  method MoveTable(table: BlockTable, mapping: map<PhysicalTokenBlock, PhysicalTokenBlock>, src: CachedBlockAllocator,
                   dst: CachedBlockAllocator, ghost s: Side<PhysicalTokenBlock>, ghost d: Side<PhysicalTokenBlock>, ghost id: int,
                   ghost t: Text, ghost hashes: map<PhysicalTokenBlock, Hash>, ghost free0: int, ghost used: set<Hash>,
                   ghost blockSize: nat)
    returns (r: Result<()>, moved: BlockTable, mapping': map<PhysicalTokenBlock, PhysicalTokenBlock>)
    requires TableBears(table, hashes, t, blockSize)
    requires Underway(table, 0, [], mapping, mapping, src, dst, s, d, id, t, hashes, free0, used, blockSize)
    modifies dst`currentNumBlocks, dst`cachedBlocks, dst`defaultHashCtr, dst`bound, dst`info, dst.evictor, dst.info.Keys
    modifies src`cachedBlocks, src`info, src.evictor, src.info.Keys
    ensures src.NumFreeBlocks() >= old(src.NumFreeBlocks())
    ensures dst.defaultHashCtr == old(dst.defaultHashCtr) && fresh(dst.info.Keys - old(dst.info).Keys)
    ensures r.Err? ==> r.error == OutOfMemory && |Missing(mapping.Keys + Elements(table), hashes, used)| > free0
    ensures r.Ok? ==>
      && src.info.Keys == old(src.info).Keys
      && Underway(table, |table|, moved, mapping', mapping, src, dst, s, d, id, t, hashes, free0, used, blockSize)
      && old(dst.bound) <= dst.bound && (dst.bound == old(dst.bound) || dst.bound <= src.bound)
      && Joins(old(dst.info), dst.info, Elements(moved))
  {
    hide Joins, Underway, TableBears, CachedBlockAllocator.NumFreeBlocks, Missing;
    moved, mapping' := [], mapping;
    JoinsNone(dst.info);
    assert Elements(moved) == {};
    for k := 0 to |table|
      invariant Underway(table, k, moved, mapping', mapping, src, dst, s, d, id, t, hashes, free0, used, blockSize)
      invariant fresh(dst.info.Keys - old(dst.info).Keys) && dst.defaultHashCtr == old(dst.defaultHashCtr)
      invariant src.info.Keys == old(src.info).Keys && src.NumFreeBlocks() >= old(src.NumFreeBlocks())
      invariant old(dst.bound) <= dst.bound && (dst.bound == old(dst.bound) || dst.bound <= src.bound)
      invariant Joins(old(dst.info), dst.info, Elements(moved))
    {
      ghost var before := dst.info;
      var target := MoveNext(table, k, moved, mapping', mapping, src, dst, s, d, id, t, hashes, free0, used, blockSize);
      if target.Err? {
        return Err(target.error), moved, mapping';
      }
      mapping' := mapping'[table[k] := target.value];
      assert Elements(moved + [target.value]) == Elements(moved) + {target.value};
      JoinsTwice(old(dst.info), before, dst.info, Elements(moved), {target.value}, Elements(moved + [target.value]));
      moved := moved + [target.value];
    }
    r := Ok(());
  }

  // ---- the tables of a group ------------------------------------------------------------------------------------------

  /** The first `i` tables of `ids` have left `from0` for `to0`, each block replaced by the one it was moved to. */
  ghost predicate Crossed(ids: seq<int>, i: nat, from0: Side<PhysicalTokenBlock>, from: Side<PhysicalTokenBlock>,
                          to0: Side<PhysicalTokenBlock>, to: Side<PhysicalTokenBlock>,
                          mapping: map<PhysicalTokenBlock, PhysicalTokenBlock>) {
    && i <= |ids| && mapping.Keys == BlocksOf(from0.tables, ids[..i])
    && from.tables == from0.tables - Elements(ids[..i]) && from.texts == from0.texts - Elements(ids[..i])
    && to.tables.Keys == to0.tables.Keys + Elements(ids[..i]) && to.texts.Keys == to0.texts.Keys + Elements(ids[..i])
    && (forall id | id in to0.tables && id !in ids :: id in to.tables && to.tables[id] == to0.tables[id])
    && (forall id | id in to0.texts && id !in ids :: id in to.texts && to.texts[id] == to0.texts[id])
    && forall k: nat | k < i :: Arrived(ids[k], from0, to, mapping)
  }

  ghost predicate Arrived<B>(id: int, from0: Side<B>, to: Side<B>, mapping: map<B, B>) {
    && id in from0.tables && id in from0.texts && id in to.tables && id in to.texts
    && Remapped(mapping, from0.tables[id], to.tables[id]) && to.texts[id] == from0.texts[id]
  }

  lemma CrossStarts(ids: seq<int>, from: Side<PhysicalTokenBlock>, to: Side<PhysicalTokenBlock>)
    ensures Crossed(ids, 0, from, from, to, to, map[])
  {
    BlocksOfNone(from.tables);
    assert from.tables - {} == from.tables && from.texts - {} == from.texts;
  }

  lemma ArrivedStill<B>(id: int, from0: Side<B>, to: Side<B>, mapping: map<B, B>, other: int, moved: seq<B>, t: Text, mapping': map<B, B>)
    requires Arrived(id, from0, to, mapping) && id != other && forall x | x in mapping :: x in mapping' && mapping'[x] == mapping[x]
    ensures Arrived(id, from0, Side(to.tables[other := moved], to.texts[other := t]), mapping')
  {
  }

  lemma CrossedTables<B>(tables: map<int, B>, tables0: map<int, B>, ids: seq<int>, i: nat)
    requires i < |ids| && tables == tables0 - Elements(ids[..i])
    ensures tables - {ids[i]} == tables0 - Elements(ids[..i + 1]) && Elements(ids[..i + 1]) == Elements(ids[..i]) + {ids[i]}
  {
    ElementsOfPrefix(ids, i);
  }

  lemma CrossNext(ids: seq<int>, i: nat, from0: Side<PhysicalTokenBlock>, from: Side<PhysicalTokenBlock>, to0: Side<PhysicalTokenBlock>,
                  to: Side<PhysicalTokenBlock>, mapping: map<PhysicalTokenBlock, PhysicalTokenBlock>, moved: BlockTable,
                  mapping': map<PhysicalTokenBlock, PhysicalTokenBlock>)
    requires Crossed(ids, i, from0, from, to0, to, mapping) && i < |ids| && Distinct(ids)
    requires ids[i] in from0.tables && ids[i] in from0.texts
    requires |moved| == |from0.tables[ids[i]]| && Moved(from0.tables[ids[i]], moved, mapping')
    requires mapping'.Keys == mapping.Keys + Elements(from0.tables[ids[i]]) && forall x | x in mapping :: mapping'[x] == mapping[x]
    ensures var id := ids[i];
      Crossed(ids, i + 1, from0, Side(from.tables - {id}, from.texts - {id}), to0,
              Side(to.tables[id := moved], to.texts[id := from0.texts[id]]), mapping')
  {
    hide Arrived, Elements, BlocksOf;
    var id := ids[i];
    CrossedTables(from.tables, from0.tables, ids, i);
    CrossedTables(from.texts, from0.texts, ids, i);
    BlocksOfPrefix(from0.tables, ids, i);
    var to' := Side(to.tables[id := moved], to.texts[id := from0.texts[id]]);
    assert id in ids;
    assert Arrived(id, from0, to', mapping') by { ArrivedNow(id, from0, to, moved, mapping'); }
    forall k: nat | k < i + 1 ensures Arrived(ids[k], from0, to', mapping') {
      if k < i {
        assert forall x | x in mapping :: x in mapping.Keys + Elements(from0.tables[id]);
        ArrivedStill(ids[k], from0, to, mapping, id, moved, from0.texts[id], mapping');
      }
    }
  }

  lemma ArrivedNow<B>(id: int, from0: Side<B>, to: Side<B>, moved: seq<B>, mapping: map<B, B>)
    requires id in from0.tables && id in from0.texts && |moved| == |from0.tables[id]| && Moved(from0.tables[id], moved, mapping)
    ensures Arrived(id, from0, Side(to.tables[id := moved], to.texts[id := from0.texts[id]]), mapping)
  {
  }

  lemma AllArrived(ids: seq<int>, from0: Side<PhysicalTokenBlock>, from: Side<PhysicalTokenBlock>, to0: Side<PhysicalTokenBlock>,
                   to: Side<PhysicalTokenBlock>, mapping: map<PhysicalTokenBlock, PhysicalTokenBlock>)
    requires Crossed(ids, |ids|, from0, from, to0, to, mapping)
    ensures forall i: nat | i < |ids| :: ids[i] in to.tables
  {
    hide BlocksOf, Elements, Remapped;
    forall i: nat | i < |ids| ensures ids[i] in to.tables {
      assert Arrived(ids[i], from0, to, mapping);
    }
  }

  /** The next table is still where it was. */
  lemma CrossAt(ids: seq<int>, i: nat, from0: Side<PhysicalTokenBlock>, from: Side<PhysicalTokenBlock>, to0: Side<PhysicalTokenBlock>,
                to: Side<PhysicalTokenBlock>, mapping: map<PhysicalTokenBlock, PhysicalTokenBlock>)
    requires Crossed(ids, i, from0, from, to0, to, mapping) && i < |ids| && Distinct(ids)
    requires ids[i] in from0.tables && ids[i] in from0.texts && ids[i] !in to0.tables
    ensures var id := ids[i];
      && id in from.tables && from.tables[id] == from0.tables[id] && id in from.texts && from.texts[id] == from0.texts[id]
      && id !in to.tables && mapping.Keys + Elements(from0.tables[id]) == BlocksOf(from0.tables, ids[..i + 1])
  {
    NotYet(ids, i);
    BlocksOfPrefix(from0.tables, ids, i);
  }

  lemma PrefixWithin<B>(tables: map<int, seq<B>>, ids: seq<int>, i: nat)
    requires i <= |ids|
    ensures BlocksOf(tables, ids[..i]) <= BlocksOf(tables, ids)
  {
  }

  lemma HashesFit<B>(s: Side<B>, f: Files<B>, hashes: map<B, Hash>, blockSize: nat, id: int)
    requires SideOk(s, f, {}, blockSize) && Bears(f.info, hashes) && id in s.tables
    ensures id in s.texts && TableBears(s.tables[id], hashes, s.texts[id], blockSize)
  {
    hide FilesOk, HashFits;
    assert TableFits(s.tables[id], f.info, s.texts[id], blockSize);
  }

  lemma LeavesSide<B>(s: Side<B>, f: Files<B>, blockSize: nat, id: int)
    requires SideOk(s, f, {}, blockSize) && id in s.tables
    ensures SideOk(Side(s.tables - {id}, s.texts - {id}), f, Elements(s.tables[id]), blockSize)
  {
    hide FilesOk;
    TableOwed(s.tables, f.info, s.texts, blockSize, id);
  }

  /** The state between two tables. */
  ghost predicate Between(from: Side<PhysicalTokenBlock>, to: Side<PhysicalTokenBlock>, mapping: map<PhysicalTokenBlock,
                          PhysicalTokenBlock>,
                          src: CachedBlockAllocator, dst: CachedBlockAllocator, hashes: map<PhysicalTokenBlock, Hash>, free0: int,
                          used: set<Hash>, blockSize: nat)
    reads src, src.evictor, src.info.Keys, dst, dst.evictor, dst.info.Keys
  {
    && Separate(src, dst) && src.Valid() && dst.Valid() && mapping.Keys <= hashes.Keys && Bears(src.info, hashes)
    && SideOk(from, src.Books(), {}, blockSize) && SideOk(to, dst.Books(), {}, blockSize)
    && Mapped(mapping, hashes, dst.info)
    && Tallied(dst.NumFreeBlocks(), dst.cachedBlocks.Keys, free0, used, mapping.Keys, hashes)
  }

  lemma BeforeTable(from: Side<PhysicalTokenBlock>, to: Side<PhysicalTokenBlock>, mapping: map<PhysicalTokenBlock, PhysicalTokenBlock>,
                    src: CachedBlockAllocator, dst: CachedBlockAllocator, hashes: map<PhysicalTokenBlock, Hash>, free0: int,
                    used: set<Hash>, blockSize: nat, id: int)
    requires Between(from, to, mapping, src, dst, hashes, free0, used, blockSize) && id in from.tables && id !in to.tables
    ensures id in from.texts && TableBears(from.tables[id], hashes, from.texts[id], blockSize)
    ensures Underway(from.tables[id], 0, [], mapping, mapping, src, dst, Side(from.tables - {id}, from.texts - {id}), to,
                     id, from.texts[id], hashes, free0, used, blockSize)
  {
    hide SideOk, Mapped, Bears, Tallied, CachedBlockAllocator.Valid, OnTheWay, TableBears;
    HashesFit(from, src.Books(), hashes, blockSize, id);
    LeavesSide(from, src.Books(), blockSize, id);
    WayStarts(from.tables[id], mapping, hashes, Side(from.tables - {id}, from.texts - {id}), src.Books(), to, dst.Books(), id,
              from.texts[id], blockSize);
  }

  lemma AfterTable(table: BlockTable, moved: BlockTable, mapping: map<PhysicalTokenBlock, PhysicalTokenBlock>,
                   mapping0: map<PhysicalTokenBlock, PhysicalTokenBlock>, src: CachedBlockAllocator, dst: CachedBlockAllocator,
                   s: Side<PhysicalTokenBlock>, d: Side<PhysicalTokenBlock>, id: int, t: Text,
                   hashes: map<PhysicalTokenBlock, Hash>, free0: int, used: set<Hash>, blockSize: nat)
    requires Underway(table, |table|, moved, mapping, mapping0, src, dst, s, d, id, t, hashes, free0, used, blockSize)
    ensures Between(s, Joined(d, id, moved, t), mapping, src, dst, hashes, free0, used, blockSize)
    ensures |moved| == |table| && Moved(table, moved, mapping) && mapping.Keys == mapping0.Keys + Elements(table)
    ensures forall x | x in mapping0 :: mapping[x] == mapping0[x]
  {
    hide SideOk, Mapped, Bears, Tallied, CachedBlockAllocator.Valid;
    assert table[..|table|] == table && table[|table|..] == [];
    assert Elements(table[|table|..]) == {};
  }

  lemma TalliedEnd<B>(free: int, cached: set<Hash>, free0: int, used: set<Hash>, moved: set<B>, hashes: map<B, Hash>)
    requires Tallied(free, cached, free0, used, moved, hashes)
    ensures free == free0 - |Missing(moved, hashes, used)|
  {
  }

  /** The outer loop of `swap_in` and `swap_out` (466-481, 496-511) over the members `ids` of a group.  It runs out exactly
      when the group holds more blocks that no block in use on `dst` can stand for than `dst` has free blocks. */
  method MoveTables(ids: seq<int>, src: CachedBlockAllocator, dst: CachedBlockAllocator, from: map<int, BlockTable>, to: map<int,
                    BlockTable>,
                    ghost fromTexts: map<int, Text>, ghost toTexts: map<int, Text>, ghost hashes: map<PhysicalTokenBlock, Hash>,
                    ghost blockSize: nat)
    returns (r: Result<map<PhysicalTokenBlock, PhysicalTokenBlock>>, from': map<int, BlockTable>, to': map<int, BlockTable>,
             ghost fromTexts': map<int, Text>, ghost toTexts': map<int, Text>)
    requires Between(Side(from, fromTexts), Side(to, toTexts), map[], src, dst, hashes, dst.NumFreeBlocks(), dst.cachedBlocks.Keys,
                     blockSize)
    requires Distinct(ids) && forall i: nat | i < |ids| :: ids[i] in from && ids[i] in fromTexts && ids[i] !in to
    modifies dst`currentNumBlocks, dst`cachedBlocks, dst`defaultHashCtr, dst`bound, dst`info, dst.evictor, dst.info.Keys
    modifies src`cachedBlocks, src`info, src.evictor, src.info.Keys
    ensures src.NumFreeBlocks() >= old(src.NumFreeBlocks())
    ensures dst.defaultHashCtr == old(dst.defaultHashCtr) && fresh(dst.info.Keys - old(dst.info).Keys)
    ensures r.Ok? <==> |Missing(BlocksOf(from, ids), hashes, old(dst.cachedBlocks).Keys)| <= old(dst.NumFreeBlocks())
    ensures r.Err? ==> r.error == OutOfMemory
    ensures r.Ok? ==>
      && src.info.Keys == old(src.info).Keys && old(dst.bound) <= dst.bound && (dst.bound == old(dst.bound) || dst.bound <= src.bound)
      && Crossed(ids, |ids|, Side(from, fromTexts), Side(from', fromTexts'), Side(to, toTexts), Side(to', toTexts'), r.value)
      && Between(Side(from', fromTexts'), Side(to', toTexts'), r.value, src, dst, hashes,
                 old(dst.NumFreeBlocks()), old(dst.cachedBlocks).Keys, blockSize)
      && Joins(old(dst.info), dst.info, r.value.Values)
  {
    hide Joins, Between, Crossed, Underway, TableBears, CachedBlockAllocator.NumFreeBlocks, Missing, BlocksOf, Distinct, Moved, OnTheWay;
    ghost var free0, used := dst.NumFreeBlocks(), dst.cachedBlocks.Keys;
    ghost var from0, to0 := Side(from, fromTexts), Side(to, toTexts);
    from', to', fromTexts', toTexts' := from, to, fromTexts, toTexts;
    var mapping: map<PhysicalTokenBlock, PhysicalTokenBlock> := map[];
    CrossStarts(ids, from0, to0);
    JoinsNone(dst.info);
    assert mapping.Values == {};
    for i := 0 to |ids|
      invariant Crossed(ids, i, from0, Side(from', fromTexts'), to0, Side(to', toTexts'), mapping)
      invariant Between(Side(from', fromTexts'), Side(to', toTexts'), mapping, src, dst, hashes, free0, used, blockSize)
      invariant fresh(dst.info.Keys - old(dst.info).Keys) && dst.defaultHashCtr == old(dst.defaultHashCtr)
      invariant src.info.Keys == old(src.info).Keys && src.NumFreeBlocks() >= old(src.NumFreeBlocks())
      invariant old(dst.bound) <= dst.bound && (dst.bound == old(dst.bound) || dst.bound <= src.bound)
      invariant Joins(old(dst.info), dst.info, mapping.Values)
    {
      ghost var before := dst.info;
      ghost var a, b, t := Side(from', fromTexts'), Side(to', toTexts'), fromTexts[ids[i]];
      CrossAt(ids, i, from0, a, to0, b, mapping);
      BeforeTable(a, b, mapping, src, dst, hashes, free0, used, blockSize, ids[i]);
      ghost var s := Side(a.tables - {ids[i]}, a.texts - {ids[i]});
      var table := from'[ids[i]];
      var done, moved, mapping';
      done, moved, mapping' := MoveTable(table, mapping, src, dst, s, b, ids[i], t, hashes, free0, used, blockSize);
      if done.Err? {
        PrefixWithin(from, ids, i + 1);
        MissingWithin(BlocksOf(from, ids[..i + 1]), BlocksOf(from, ids), hashes, used);
        return Err(done.error), from', to', fromTexts', toTexts';
      }
      AfterTable(table, moved, mapping', mapping, src, dst, s, b, ids[i], t, hashes, free0, used, blockSize);
      CrossNext(ids, i, from0, a, to0, b, mapping, moved, mapping');
      ValuesGrow(table, moved, mapping, mapping');
      JoinsTwice(old(dst.info), before, dst.info, mapping.Values, Elements(moved), mapping'.Values);
      from', fromTexts' := from' - {ids[i]}, fromTexts' - {ids[i]};
      to', toTexts' := to'[ids[i] := moved], toTexts'[ids[i] := t];
      mapping := mapping';
    }
    CrossEnds(ids, from0, Side(from', fromTexts'), to0, Side(to', toTexts'), mapping);
    EnoughWas(Side(from', fromTexts'), Side(to', toTexts'), mapping, src, dst, hashes, free0, used, blockSize);
    return Ok(mapping), from', to', fromTexts', toTexts';
  }

  lemma ValuesGrow<B>(table: seq<B>, moved: seq<B>, mapping: map<B, B>, mapping': map<B, B>)
    requires Moved(table, moved, mapping') && mapping.Keys <= mapping'.Keys && forall x | x in mapping :: mapping'[x] == mapping[x]
    ensures mapping.Values + Elements(moved) <= mapping'.Values
  {
    forall b | b in mapping.Values ensures b in mapping'.Values {
      var x :| x in mapping && mapping[x] == b;
      assert x in mapping' && mapping'[x] == b;
    }
    forall b | b in moved ensures b in mapping'.Values {
      var i :| 0 <= i < |moved| && moved[i] == b;
      assert table[i] in mapping' && mapping'[table[i]] == b;
    }
  }

  lemma CrossEnds(ids: seq<int>, from0: Side<PhysicalTokenBlock>, from: Side<PhysicalTokenBlock>, to0: Side<PhysicalTokenBlock>,
                  to: Side<PhysicalTokenBlock>, mapping: map<PhysicalTokenBlock, PhysicalTokenBlock>)
    requires Crossed(ids, |ids|, from0, from, to0, to, mapping)
    ensures mapping.Keys == BlocksOf(from0.tables, ids)
  {
    assert ids[..|ids|] == ids;
  }

  lemma EnoughWas(from: Side<PhysicalTokenBlock>, to: Side<PhysicalTokenBlock>, mapping: map<PhysicalTokenBlock, PhysicalTokenBlock>,
                  src: CachedBlockAllocator, dst: CachedBlockAllocator, hashes: map<PhysicalTokenBlock, Hash>, free0: int,
                  used: set<Hash>, blockSize: nat)
    requires Between(from, to, mapping, src, dst, hashes, free0, used, blockSize)
    ensures |Missing(mapping.Keys, hashes, used)| <= free0 && dst.NumFreeBlocks() == free0 - |Missing(mapping.Keys, hashes, used)|
  {
    hide SideOk, Mapped, Bears, FilesOk, Numbered;
    TalliedEnd(dst.NumFreeBlocks(), dst.cachedBlocks.Keys, free0, used, mapping.Keys, hashes);
  }

  ghost function HashesIn(a: CachedBlockAllocator): map<PhysicalTokenBlock, Hash>
    reads a`info
  {
    map b | b in a.info :: a.info[b].hash
  }

  lemma NothingMissing<B>(hashes: map<B, Hash>, free: int, used: set<Hash>, dst: map<B, Info>)
    ensures Tallied(free, used, free, used, {}, hashes) && Mapped(map[], hashes, dst)
  {
    assert Missing({}, hashes, used) == {} && HashesOf({}, hashes) == {};
  }

  lemma SidesStart(from: Side<PhysicalTokenBlock>, to: Side<PhysicalTokenBlock>, src: CachedBlockAllocator, dst: CachedBlockAllocator,
                   blockSize: nat)
    requires Separate(src, dst) && src.Valid() && dst.Valid()
    requires SideOk(from, src.Books(), {}, blockSize) && SideOk(to, dst.Books(), {}, blockSize)
    ensures Between(from, to, map[], src, dst, HashesIn(src), dst.NumFreeBlocks(), dst.cachedBlocks.Keys, blockSize)
  {
    hide SideOk, CachedBlockAllocator.Valid;
    NothingMissing(HashesIn(src), dst.NumFreeBlocks(), dst.cachedBlocks.Keys, dst.info);
  }

  lemma BetweenEnds(from: Side<PhysicalTokenBlock>, to: Side<PhysicalTokenBlock>, mapping: map<PhysicalTokenBlock, PhysicalTokenBlock>,
                    src: CachedBlockAllocator, dst: CachedBlockAllocator, hashes: map<PhysicalTokenBlock, Hash>, free0: int,
                    used: set<Hash>, blockSize: nat)
    requires Between(from, to, mapping, src, dst, hashes, free0, used, blockSize)
    ensures Separate(src, dst) && src.Valid() && dst.Valid() && mapping.Keys <= src.info.Keys
    ensures SideOk(from, src.Books(), {}, blockSize) && SideOk(to, dst.Books(), {}, blockSize) && Injective(mapping)
  {
    hide SideOk, FilesOk, CachedBlockAllocator.Valid, Mapped, Bears, Tallied, Injective;
    BetweenMapped(from, to, mapping, src, dst, hashes, free0, used, blockSize);
    MappedApart(mapping, src.Books(), hashes, dst.info);
  }

  lemma BetweenMapped(from: Side<PhysicalTokenBlock>, to: Side<PhysicalTokenBlock>, mapping: map<PhysicalTokenBlock, PhysicalTokenBlock>,
                      src: CachedBlockAllocator, dst: CachedBlockAllocator, hashes: map<PhysicalTokenBlock, Hash>, free0: int,
                      used: set<Hash>, blockSize: nat)
    requires Between(from, to, mapping, src, dst, hashes, free0, used, blockSize)
    ensures FilesOk(src.Books()) && Bears(src.info, hashes) && Mapped(mapping, hashes, dst.info) && mapping.Keys <= src.info.Keys
  {
    hide SideOk, FilesOk, Tallied;
  }

  lemma KnownTexts(ids: seq<int>, from: Side<PhysicalTokenBlock>, to: Side<PhysicalTokenBlock>, f: Files<PhysicalTokenBlock>,
                   blockSize: nat)
    requires SideOk(from, f, {}, blockSize) && from.tables.Keys !! to.tables.Keys
    requires forall i: nat | i < |ids| :: ids[i] in from.tables
    ensures forall i: nat | i < |ids| :: ids[i] in from.texts && ids[i] !in to.tables
  {
    TextsToo(from, f, {}, blockSize);
    assert forall id | id in from.tables :: id in from.tables.Keys && id in from.texts.Keys;
  }

  lemma NumbersDiffer(src: CachedBlockAllocator, hashes: map<PhysicalTokenBlock, Hash>, mapping: map<PhysicalTokenBlock,
                      PhysicalTokenBlock>)
    requires src.Valid() && mapping.Keys <= src.info.Keys
    ensures forall b, c | b in mapping && c in mapping :: b.blockNumber == c.blockNumber ==> b == c
  {
    hide FilesOk;
    assert forall b | b in mapping :: b in src.info.Keys;
  }

  /** Both devices have a block for each block of tokens, and different tables. */
  lemma CrossedCovers(ids: seq<int>, from0: Side<PhysicalTokenBlock>, from: Side<PhysicalTokenBlock>, to0: Side<PhysicalTokenBlock>,
                      to: Side<PhysicalTokenBlock>, mapping: map<PhysicalTokenBlock, PhysicalTokenBlock>, blockSize: nat)
    requires Crossed(ids, |ids|, from0, from, to0, to, mapping) && from0.tables.Keys !! to0.tables.Keys
    requires Covers(from0.tables, from0.texts, blockSize) && Covers(to0.tables, to0.texts, blockSize)
    requires forall i: nat | i < |ids| :: ids[i] in from0.tables && ids[i] in from0.texts
    ensures Covers(from.tables, from.texts, blockSize) && Covers(to.tables, to.texts, blockSize)
    ensures from.tables.Keys !! to.tables.Keys
  {
    hide BlocksOf, Remapped;
    assert ids[..|ids|] == ids;
    forall id | id in to.tables && id in to.texts ensures |to.tables[id]| == NumBlocks(|to.texts[id].tokens|, blockSize) {
      if id in ids {
        var k: nat :| k < |ids| && ids[k] == id;
        assert Arrived(ids[k], from0, to, mapping);
        SameLength(mapping, from0.tables[id], to.tables[id]);
      } else {
        assert id in to0.tables && id in to0.texts;
      }
    }
  }

  lemma SameLength<B>(mapping: map<B, B>, before: seq<B>, after: seq<B>)
    requires Remapped(mapping, before, after)
    ensures |after| == |before|
  {
  }

  /** `block_number_mapping` (483-486, 513-516). */
  function BlockNumbers(mapping: map<PhysicalTokenBlock, PhysicalTokenBlock>): (r: map<int, int>)
    requires forall b, c | b in mapping && c in mapping :: b.blockNumber == c.blockNumber ==> b == c
    ensures Numbers(r, mapping)
  {
    map b | b in mapping :: b.blockNumber := mapping[b].blockNumber
  }

  /** The moves of a group between the devices, with what stays in order around them. */
  ghost predicate Settled(from: Side<PhysicalTokenBlock>, to: Side<PhysicalTokenBlock>, src: CachedBlockAllocator,
                          dst: CachedBlockAllocator,
                          blockSize: nat)
    reads src, src.evictor, src.info.Keys, dst, dst.evictor, dst.info.Keys
  {
    && Separate(src, dst) && src.Valid() && dst.Valid() && from.tables.Keys !! to.tables.Keys
    && SideOk(from, src.Books(), {}, blockSize) && Covers(from.tables, from.texts, blockSize)
    && SideOk(to, dst.Books(), {}, blockSize) && Covers(to.tables, to.texts, blockSize)
  }

  lemma SettledFlips(from: Side<PhysicalTokenBlock>, to: Side<PhysicalTokenBlock>, src: CachedBlockAllocator, dst: CachedBlockAllocator,
                     blockSize: nat)
    requires Settled(from, to, src, dst, blockSize)
    ensures Settled(to, from, dst, src, blockSize)
  {
    hide SideOk, Covers, CachedBlockAllocator.Valid;
  }

  lemma SettledStart(ids: seq<int>, from: Side<PhysicalTokenBlock>, to: Side<PhysicalTokenBlock>, src: CachedBlockAllocator,
                     dst: CachedBlockAllocator, blockSize: nat)
    requires Settled(from, to, src, dst, blockSize) && forall i: nat | i < |ids| :: ids[i] in from.tables
    ensures Between(from, to, map[], src, dst, HashesIn(src), dst.NumFreeBlocks(), dst.cachedBlocks.Keys, blockSize)
    ensures forall i: nat | i < |ids| :: ids[i] in from.texts && ids[i] !in to.tables
  {
    hide SideOk, CachedBlockAllocator.Valid, Covers;
    SidesStart(from, to, src, dst, blockSize);
    KnownTexts(ids, from, to, src.Books(), blockSize);
  }

  lemma SettledAgain(ids: seq<int>, from0: Side<PhysicalTokenBlock>, from: Side<PhysicalTokenBlock>, to0: Side<PhysicalTokenBlock>,
                     to: Side<PhysicalTokenBlock>, mapping: map<PhysicalTokenBlock, PhysicalTokenBlock>, src: CachedBlockAllocator,
                     dst: CachedBlockAllocator, hashes: map<PhysicalTokenBlock, Hash>, free0: int, used: set<Hash>, blockSize: nat)
    requires Crossed(ids, |ids|, from0, from, to0, to, mapping) && from0.tables.Keys !! to0.tables.Keys
    requires Covers(from0.tables, from0.texts, blockSize) && Covers(to0.tables, to0.texts, blockSize)
    requires forall i: nat | i < |ids| :: ids[i] in from0.tables && ids[i] in from0.texts
    requires Between(from, to, mapping, src, dst, hashes, free0, used, blockSize)
    ensures Settled(from, to, src, dst, blockSize) && Injective(mapping)
    ensures forall b, c | b in mapping && c in mapping :: b.blockNumber == c.blockNumber ==> b == c
    ensures dst.NumFreeBlocks() == free0 - |Missing(BlocksOf(from0.tables, ids), hashes, used)|
  {
    hide SideOk, Crossed, Between, Covers, CachedBlockAllocator.Valid, CachedBlockAllocator.NumFreeBlocks, Missing, BlocksOf, Injective;
    CrossedCovers(ids, from0, from, to0, to, mapping, blockSize);
    BetweenEnds(from, to, mapping, src, dst, hashes, free0, used, blockSize);
    NumbersDiffer(src, hashes, mapping);
    CrossEnds(ids, from0, from, to0, to, mapping);
    EnoughWas(from, to, mapping, src, dst, hashes, free0, used, blockSize);
  }

  lemma SettledCovers(from: Side<PhysicalTokenBlock>, to: Side<PhysicalTokenBlock>, src: CachedBlockAllocator, dst: CachedBlockAllocator,
                      blockSize: nat)
    requires Settled(from, to, src, dst, blockSize)
    ensures from.tables.Keys !! to.tables.Keys
    ensures Covers(from.tables, from.texts, blockSize) && Covers(to.tables, to.texts, blockSize)
  {
  }

  /** The blocks that the move of a group takes on the other device. */
  ghost function Needed(ids: seq<int>, tables: map<int, BlockTable>, src: CachedBlockAllocator, dst: CachedBlockAllocator): nat
    reads src`info, dst`cachedBlocks
  {
    |Missing(BlocksOf(tables, ids), HashesIn(src), dst.cachedBlocks.Keys)|
  }

  lemma NeededWithin(ids: seq<int>, tables: map<int, BlockTable>, src: CachedBlockAllocator, dst: CachedBlockAllocator)
    ensures Needed(ids, tables, src, dst) <= |BlocksOf(tables, ids)|
  {
    hide Missing, BlocksOf;
    MissingWithin(BlocksOf(tables, ids), BlocksOf(tables, ids), HashesIn(src), dst.cachedBlocks.Keys);
  }

  /** `swap_in` and `swap_out`, from device `src` to device `dst`. */
  method Exchange(ids: seq<int>, src: CachedBlockAllocator, dst: CachedBlockAllocator, from: map<int, BlockTable>, to: map<int, BlockTable>,
                  ghost fromTexts: map<int, Text>, ghost toTexts: map<int, Text>, ghost blockSize: nat)
    returns (r: Result<map<int, int>>, from': map<int, BlockTable>, to': map<int, BlockTable>,
             ghost fromTexts': map<int, Text>, ghost toTexts': map<int, Text>, ghost moved: map<PhysicalTokenBlock, PhysicalTokenBlock>)
    requires Settled(Side(from, fromTexts), Side(to, toTexts), src, dst, blockSize)
    requires Distinct(ids) && forall i: nat | i < |ids| :: ids[i] in from
    modifies dst`currentNumBlocks, dst`cachedBlocks, dst`defaultHashCtr, dst`bound, dst`info, dst.evictor, dst.info.Keys
    modifies src`cachedBlocks, src`info, src.evictor, src.info.Keys
    ensures dst.defaultHashCtr == old(dst.defaultHashCtr) && fresh(dst.info.Keys - old(dst.info).Keys)
    ensures r.Ok? <==> old(Needed(ids, from, src, dst)) <= old(dst.NumFreeBlocks())
    ensures r.Err? ==> r.error == OutOfMemory
    ensures r.Ok? ==>
      && Settled(Side(from', fromTexts'), Side(to', toTexts'), src, dst, blockSize)
      && src.info.Keys == old(src.info).Keys && src.NumFreeBlocks() >= old(src.NumFreeBlocks())
      && dst.NumFreeBlocks() == old(dst.NumFreeBlocks()) - old(Needed(ids, from, src, dst))
      && old(dst.bound) <= dst.bound && (dst.bound == old(dst.bound) || dst.bound <= src.bound)
      && Crossed(ids, |ids|, Side(from, fromTexts), Side(from', fromTexts'), Side(to, toTexts), Side(to', toTexts'), moved)
      && Numbers(r.value, moved) && Injective(moved)
      && Joins(old(dst.info), dst.info, moved.Values) && HashesAsBefore(old(src.info), src.info)
      && Brought(Shelf(from, old(src.info), fromTexts), Shelf(to, old(dst.info), toTexts), Shelf(to', dst.info, toTexts'),
                 Elements(ids), moved)
  {
    hide Settled, Crossed, Between, Missing, BlocksOf, Distinct, Covers, CachedBlockAllocator.Valid;
    hide CachedBlockAllocator.NumFreeBlocks, HashesIn, Injective, Joins, Brought, HashesAsBefore;
    ghost var srcInfo, dstInfo := src.info, dst.info;
    UsedInTables(Side(from, fromTexts), Side(to, toTexts), src, dst, blockSize);
    ghost var hashes, free0, used := HashesIn(src), dst.NumFreeBlocks(), dst.cachedBlocks.Keys;
    SettledStart(ids, Side(from, fromTexts), Side(to, toTexts), src, dst, blockSize);
    SettledCovers(Side(from, fromTexts), Side(to, toTexts), src, dst, blockSize);
    moved := map[];
    var mapping;
    mapping, from', to', fromTexts', toTexts' := MoveTables(ids, src, dst, from, to, fromTexts, toTexts, hashes, blockSize);
    if mapping.Err? {
      r := Err(mapping.error);
      return;
    }
    moved := mapping.value;
    SettledAgain(ids, Side(from, fromTexts), Side(from', fromTexts'), Side(to, toTexts), Side(to', toTexts'), moved, src, dst,
                 hashes, free0, used, blockSize);
    BetweenMapped(Side(from', fromTexts'), Side(to', toTexts'), moved, src, dst, hashes, free0, used, blockSize);
    BroughtIs(ids, Side(from, fromTexts), Side(from', fromTexts'), Side(to, toTexts), Side(to', toTexts'), moved, srcInfo, hashes,
              dstInfo, dst.info);
    HashesAre(src, srcInfo, hashes);
    r := Ok(BlockNumbers(mapping.value));
  }

  /** Blocks in the tables are in use. */
  lemma UsedInTables(from: Side<PhysicalTokenBlock>, to: Side<PhysicalTokenBlock>, src: CachedBlockAllocator, dst: CachedBlockAllocator,
                     blockSize: nat)
    requires Settled(from, to, src, dst, blockSize)
    ensures TablesUsed(to.tables, dst.info) && to.texts.Keys == to.tables.Keys && from.texts.Keys == from.tables.Keys
    ensures HashesIn(src).Keys == src.info.Keys && forall b | b in src.info :: HashesIn(src)[b] == src.info[b].hash
  {
    hide CachedBlockAllocator.Valid, FilesOk, HashFits, Covers;
    forall p, i: nat | p in to.tables && i < |to.tables[p]| ensures to.tables[p][i] in dst.info && dst.info[to.tables[p][i]].refs > 0 {
      assert TableFits(to.tables[p], dst.info, to.texts[p], blockSize);
      assert p in Holders(to.tables, to.tables[p][i]);
    }
  }

  ghost predicate TablesUsed<B>(tables: map<int, seq<B>>, info: map<B, Info>) {
    forall p, i: nat | p in tables && i < |tables[p]| :: tables[p][i] in info && info[tables[p][i]].refs > 0
  }

  lemma HashesAre(src: CachedBlockAllocator, info: map<PhysicalTokenBlock, Info>, hashes: map<PhysicalTokenBlock, Hash>)
    requires Bears(src.info, hashes) && hashes.Keys == info.Keys && forall b | b in info :: hashes[b] == info[b].hash
    ensures HashesAsBefore(info, src.info)
  {
  }

  /** The blocks that move are those of the group. */
  lemma AllMoved(ids: seq<int>, from0: Side<PhysicalTokenBlock>, from: Side<PhysicalTokenBlock>, to0: Side<PhysicalTokenBlock>,
                 to: Side<PhysicalTokenBlock>, moved: map<PhysicalTokenBlock, PhysicalTokenBlock>)
    requires Crossed(ids, |ids|, from0, from, to0, to, moved)
    ensures moved.Keys == BlocksOf(from0.tables, ids) && FromTables(from0.tables, Elements(ids), moved)
  {
    hide Remapped;
    assert ids[..|ids|] == ids;
    forall x | x in moved
      ensures exists p, i: nat :: p in Elements(ids) && p in from0.tables && i < |from0.tables[p]| && from0.tables[p][i] == x
    {
      assert x in BlocksOf(from0.tables, ids);
    }
  }

  /** What the loops have done, as the laws of sharing see it. */
  lemma BroughtIs(ids: seq<int>, from0: Side<PhysicalTokenBlock>, from: Side<PhysicalTokenBlock>, to0: Side<PhysicalTokenBlock>,
                  to: Side<PhysicalTokenBlock>, moved: map<PhysicalTokenBlock, PhysicalTokenBlock>,
                  srcInfo: map<PhysicalTokenBlock, Info>, hashes: map<PhysicalTokenBlock, Hash>,
                  dstInfo: map<PhysicalTokenBlock, Info>, dstInfo': map<PhysicalTokenBlock, Info>)
    requires Crossed(ids, |ids|, from0, from, to0, to, moved) && Injective(moved) && Mapped(moved, hashes, dstInfo')
    requires hashes.Keys == srcInfo.Keys && forall b | b in srcInfo :: hashes[b] == srcInfo[b].hash
    requires Joins(dstInfo, dstInfo', moved.Values) && TablesUsed(to0.tables, dstInfo)
    requires from0.tables.Keys !! to0.tables.Keys && to0.texts.Keys == to0.tables.Keys && from0.texts.Keys == from0.tables.Keys
    requires forall i: nat | i < |ids| :: ids[i] in from0.tables
    ensures Brought(Shelf(from0.tables, srcInfo, from0.texts), Shelf(to0.tables, dstInfo, to0.texts), Shelf(to.tables, dstInfo', to.texts),
                    Elements(ids), moved)
  {
    hide Crossed, Joins, TablesUsed, Mapped, Remapped, Elements, HashesStay;
    CrossedSides(ids, from0, from, to0, to, moved);
    UsedStay(to0.tables, dstInfo, dstInfo', moved.Values);
    MappedHashes(moved, hashes, dstInfo');
  }

  lemma CrossedSides(ids: seq<int>, from0: Side<PhysicalTokenBlock>, from: Side<PhysicalTokenBlock>, to0: Side<PhysicalTokenBlock>,
                     to: Side<PhysicalTokenBlock>, moved: map<PhysicalTokenBlock, PhysicalTokenBlock>)
    requires Crossed(ids, |ids|, from0, from, to0, to, moved) && from0.tables.Keys !! to0.tables.Keys
    requires from0.texts.Keys == from0.tables.Keys && forall i: nat | i < |ids| :: ids[i] in from0.tables
    ensures Elements(ids) <= from0.tables.Keys && Elements(ids) !! to0.tables.Keys
    ensures to.tables.Keys == to0.tables.Keys + Elements(ids) && to.texts.Keys == to0.texts.Keys + Elements(ids)
    ensures forall q | q in to0.tables && q in to0.texts :: to.tables[q] == to0.tables[q] && to.texts[q] == to0.texts[q]
    ensures forall p | p in Elements(ids) :: Remapped(moved, from0.tables[p], to.tables[p]) && to.texts[p] == from0.texts[p]
  {
    hide BlocksOf, Remapped;
    assert ids[..|ids|] == ids;
    forall p | p in Elements(ids)
      ensures p in from0.tables && p !in to0.tables && p in to.tables && p in to.texts && p in from0.texts
      ensures Remapped(moved, from0.tables[p], to.tables[p]) && to.texts[p] == from0.texts[p]
    {
      var k: nat :| k < |ids| && ids[k] == p;
      assert Arrived(ids[k], from0, to, moved) && ids[k] in from0.tables.Keys;
    }
    forall q | q in to0.tables && q in to0.texts ensures to.tables[q] == to0.tables[q] && to.texts[q] == to0.texts[q] {
      assert q in to0.tables.Keys && q !in Elements(ids);
    }
  }

  lemma UsedStay<B>(tables: map<int, seq<B>>, before: map<B, Info>, after: map<B, Info>, taken: set<B>)
    requires TablesUsed(tables, before) && Joins(before, after, taken)
    ensures HashesStay(tables, before, after)
  {
  }

  lemma MappedHashes<B>(mapping: map<B, B>, hashes: map<B, Hash>, info: map<B, Info>)
    requires Mapped(mapping, hashes, info)
    ensures forall x | x in mapping :: x in hashes && mapping[x] in info && info[mapping[x]].hash == hashes[x]
  {
  }

  lemma BooksInOrder(a: CachedBlockAllocator)
    requires a.Valid()
    ensures FilesOk(a.Books())
  {
  }

  lemma NoTables(a: CachedBlockAllocator, blockSize: nat)
    requires a.Valid() && a.info == map[] && blockSize > 0
    ensures SideOk(Side(map[], map[]), a.Books(), {}, blockSize) && Covers<PhysicalTokenBlock>(map[], map[], blockSize)
  {
    hide FilesOk;
    BooksInOrder(a);
  }

  lemma SameBlocks<B>(tables: map<int, seq<B>>, others: map<int, seq<B>>, ids: seq<int>)
    requires tables.Keys !! others.Keys && forall i: nat | i < |ids| :: ids[i] in tables
    ensures BlocksOf(tables + others, ids) == BlocksOf(tables, ids)
    ensures forall i: nat | i < |ids| :: ids[i] in tables + others
  {
    forall id | id in ids ensures id in tables && (tables + others)[id] == tables[id] {
      var k: nat :| k < |ids| && ids[k] == id;
      assert id in tables.Keys && id !in others.Keys;
    }
  }

  lemma EitherWay<B>(one: map<int, seq<B>>, other: map<int, seq<B>>)
    requires one.Keys !! other.Keys
    ensures one + other == other + one
  {
    forall id | id in one + other ensures (one + other)[id] == (other + one)[id] {
      assert id in one ==> id in one.Keys && id !in other.Keys;
    }
  }

  /** The source of a swap without the tables that left it. */
  lemma CrossedAway(ids: seq<int>, from0: Side<PhysicalTokenBlock>, from: Side<PhysicalTokenBlock>, to0: Side<PhysicalTokenBlock>,
                    to: Side<PhysicalTokenBlock>, mapping: map<PhysicalTokenBlock, PhysicalTokenBlock>)
    requires Crossed(ids, |ids|, from0, from, to0, to, mapping)
    ensures from.tables == from0.tables - Elements(ids) && from.texts == from0.texts - Elements(ids)
  {
    assert ids[..|ids|] == ids;
  }

  /** What a swap makes of the laws of sharing on the two devices. */
  lemma SwapLaws(f: Files<PhysicalTokenBlock>, src: Shelf<PhysicalTokenBlock>, src': Shelf<PhysicalTokenBlock>,
                 dst: Shelf<PhysicalTokenBlock>, dst': Shelf<PhysicalTokenBlock>, ids: set<int>,
                 moved: map<PhysicalTokenBlock, PhysicalTokenBlock>, blockSize: nat)
    requires FilesOk(f) && f.info == dst'.info && Brought(src, dst, dst', ids, moved) && dst.tables.Keys == dst.texts.Keys
    requires src'.tables == src.tables - ids && src'.texts == src.texts - ids && TablesUsed(src.tables, src.info)
    requires src'.info.Keys == src.info.Keys && forall b | b in src'.info :: src'.info[b].hash == src.info[b].hash
    ensures Lawful(src, blockSize) && Lawful(dst, blockSize) ==>
      && Lawful(src', blockSize) && FullBears(dst', blockSize) && (Agree(dst', blockSize) <==> NoClash(src, dst, ids, blockSize))
  {
    hide FilesOk, Brought, Agree, FullBears, NoClash;
    if Lawful(src, blockSize) && Lawful(dst, blockSize) {
      LawfulFewer(src, src', ids, blockSize);
      BearsBrought(src, dst, dst', ids, moved, blockSize);
      AgreeBroughtIff(f, src, dst, dst', ids, moved, blockSize);
    }
  }

  lemma TrailLength(trail: seq<Shelf<PhysicalTokenBlock>>, ids: seq<int>, ts: seq<Text>, blockSize: nat)
    requires Turns(trail, ids, ts, blockSize)
    ensures |trail| == |ids| + 1
  {
  }

  // ---- the manager with both devices ----------------------------------------------------------------------------------

  class SwapManager {
    const onGpu: PrefixCachingManager
    const cpu: CachedBlockAllocator
    var swapped: map<int, BlockTable>

    ghost var swappedTexts: map<int, Text>

    ghost predicate Valid()
      reads this, onGpu, onGpu.gpu, onGpu.gpu.evictor, onGpu.gpu.info.Keys, cpu, cpu.evictor, cpu.info.Keys
    {
      && onGpu.Valid() && OnCpu() && Separate(onGpu.gpu, cpu) && cpu.bound <= onGpu.gpu.bound
      && swapped.Keys !! onGpu.blockTables.Keys
    }

    ghost predicate OnCpu()
      reads this, cpu, cpu.evictor, cpu.info.Keys
    {
      && cpu.Valid() && SideOk(Side(swapped, swappedTexts), cpu.Books(), {}, onGpu.blockSize)
      && Covers(swapped, swappedTexts, onGpu.blockSize)
    }

    /** The tables on the CPU, its blocks and the swapped sequences. */
    ghost function Away(): Shelf<PhysicalTokenBlock>
      reads this, cpu
    {
      Shelf(swapped, cpu.info, swappedTexts)
    }

    /** Both devices obey the laws of sharing. */
    ghost predicate BothLawful()
      reads this, cpu, onGpu, onGpu.gpu
    {
      Lawful(onGpu.Holdings(), onGpu.blockSize) && Lawful(Away(), onGpu.blockSize)
    }

    lemma Parts()
      requires Valid()
      ensures onGpu.Valid() && OnCpu() && Separate(onGpu.gpu, cpu) && cpu.bound <= onGpu.gpu.bound
      ensures swapped.Keys !! onGpu.blockTables.Keys
    {
    }

    lemma Whole()
      requires onGpu.Valid() && OnCpu() && Separate(onGpu.gpu, cpu) && cpu.bound <= onGpu.gpu.bound
      requires swapped.Keys !! onGpu.blockTables.Keys
      ensures Valid()
    {
    }

    constructor (blockSize: nat, numGpuBlocks: nat, numCpuBlocks: nat, watermarkBlocks: nat)
      requires blockSize > 0
      ensures Valid() && onGpu.blockTables == map[] == swapped && fresh(onGpu) && fresh(cpu)
      ensures fresh(onGpu.gpu) && fresh(onGpu.gpu.evictor) && fresh(cpu.evictor) && onGpu.gpu.info == map[] == cpu.info
      ensures onGpu.gpu.numBlocks == numGpuBlocks && cpu.numBlocks == numCpuBlocks
      ensures onGpu.blockSize == blockSize && onGpu.watermarkBlocks == watermarkBlocks && BothLawful()
    {
      hide SideOk, Covers, Sharing, Counts, FilesOk, Numbered, CachedBlockAllocator.Valid, PrefixCachingManager.Valid;
      var manager := new PrefixCachingManager(blockSize, numGpuBlocks, watermarkBlocks);
      var allocator := new CachedBlockAllocator(CPU, numCpuBlocks);
      NoTables(allocator, blockSize);
      onGpu, cpu, swapped, swappedTexts := manager, allocator, map[], map[];
    }

    /** The tables of both devices. */
    function BlockTables(): map<int, BlockTable>
      reads this`swapped, onGpu`blockTables
    {
      onGpu.blockTables + swapped
    }

    /** `_get_physical_blocks` (433-442). */
    method GetPhysicalBlocks(ids: seq<int>) returns (r: Result<set<PhysicalTokenBlock>>)
      ensures r.Ok? <==> forall i | 0 <= i < |ids| :: ids[i] in BlockTables()
      ensures r.Err? ==> r.error == KeyError
      ensures r.Ok? ==> r.value == BlocksOf(BlockTables(), ids)
    {
      hide BlocksOf, Elements;
      var blocks: set<PhysicalTokenBlock> := {};
      BlocksOfNone(BlockTables());
      for i := 0 to |ids|
        invariant forall k | 0 <= k < i :: ids[k] in BlockTables()
        invariant blocks == BlocksOf(BlockTables(), ids[..i])
      {
        if ids[i] !in BlockTables() {
          return Err(KeyError);
        }
        BlocksOfPrefix(BlockTables(), ids, i);
        blocks := blocks + Elements(BlockTables()[ids[i]]);
      }
      assert ids == ids[..|ids|];
      return Ok(blocks);
    }

    /** `can_swap_out` (489-491). */
    method CanSwapOut(ids: seq<int>) returns (r: Result<bool>)
      ensures r.Ok? <==> forall i | 0 <= i < |ids| :: ids[i] in BlockTables()
      ensures r.Err? ==> r.error == KeyError
      ensures r.Ok? ==> r.value == (|BlocksOf(BlockTables(), ids)| <= cpu.NumFreeBlocks())
    {
      var blocks :- GetPhysicalBlocks(ids);
      return Ok(|blocks| <= cpu.NumFreeBlocks());
    }

    /** `can_swap_in` (444-456). */
    method CanSwapIn(ids: seq<int>) returns (r: Result<bool>)
      ensures r.Ok? <==> forall i | 0 <= i < |ids| :: ids[i] in BlockTables()
      ensures r.Err? ==> r.error == KeyError
      ensures r.Ok? ==>
        r.value == (|BlocksOf(BlockTables(), ids)| + |ids| + onGpu.watermarkBlocks <= onGpu.gpu.NumFreeBlocks())
    {
      var blocks :- GetPhysicalBlocks(ids);
      return Ok(onGpu.gpu.NumFreeBlocks() - (|blocks| + |ids|) >= onGpu.watermarkBlocks);
    }

    lemma SidesOf()
      requires Valid()
      ensures Settled(Side(onGpu.blockTables, onGpu.texts), Side(swapped, swappedTexts), onGpu.gpu, cpu, onGpu.blockSize)
      ensures Settled(Side(swapped, swappedTexts), Side(onGpu.blockTables, onGpu.texts), cpu, onGpu.gpu, onGpu.blockSize)
      ensures onGpu.gpu.Own() && cpu.bound <= onGpu.gpu.bound && onGpu.blockSize > 0 && onGpu.gpu != cpu
    {
      hide CachedBlockAllocator.Valid, FilesOk, Sharing, Counts, Covers;
      BooksInOrder(onGpu.gpu);
    }

    lemma InOrderAgain()
      requires Settled(Side(onGpu.blockTables, onGpu.texts), Side(swapped, swappedTexts), onGpu.gpu, cpu, onGpu.blockSize)
      requires onGpu.gpu.Own() && cpu.bound <= onGpu.gpu.bound && onGpu.blockSize > 0
      ensures Valid()
    {
      hide CachedBlockAllocator.Valid, FilesOk, Sharing, Counts, Covers;
    }

    /** The tables as they are after a swap. */
    method Rehome(tables: map<int, BlockTable>, ghost texts: map<int, Text>, away: map<int, BlockTable>, ghost awayTexts: map<int, Text>)
      requires Settled(Side(tables, texts), Side(away, awayTexts), onGpu.gpu, cpu, onGpu.blockSize)
      requires onGpu.gpu.Own() && cpu.bound <= onGpu.gpu.bound && onGpu.blockSize > 0
      modifies this`swapped, this`swappedTexts, onGpu`blockTables, onGpu`texts
      ensures Valid() && onGpu.blockTables == tables && onGpu.texts == texts && swapped == away && swappedTexts == awayTexts
    {
      hide Settled, SwapManager.Valid;
      onGpu.blockTables, onGpu.texts := tables, texts;
      swapped, swappedTexts := away, awayTexts;
      InOrderAgain();
    }

    /** `swap_out` (493-517) for the running members `ids` of a group. */
    method SwapOut(ids: seq<int>) returns (r: Result<map<int, int>>, ghost moved: map<PhysicalTokenBlock, PhysicalTokenBlock>)
      requires Valid() && Distinct(ids) && forall i: nat | i < |ids| :: ids[i] in onGpu.blockTables
      modifies this, onGpu`blockTables, onGpu`texts
      modifies onGpu.gpu`cachedBlocks, onGpu.gpu`info, onGpu.gpu.evictor, onGpu.gpu.info.Keys
      modifies cpu`currentNumBlocks, cpu`cachedBlocks, cpu`defaultHashCtr, cpu`bound, cpu`info, cpu.evictor, cpu.info.Keys
      ensures r.Ok? <==> old(Needed(ids, onGpu.blockTables, onGpu.gpu, cpu)) <= old(cpu.NumFreeBlocks())
      ensures r.Err? ==> r.error == OutOfMemory
      ensures r.Ok? ==>
        && Valid() && fresh(cpu.info.Keys - old(cpu.info).Keys) && onGpu.gpu.info.Keys == old(onGpu.gpu.info).Keys
        && Crossed(ids, |ids|, Side(old(onGpu.blockTables), old(onGpu.texts)), Side(onGpu.blockTables, onGpu.texts),
                   Side(old(swapped), old(swappedTexts)), Side(swapped, swappedTexts), moved)
        && Numbers(r.value, moved) && Injective(moved) && onGpu.gpu.NumFreeBlocks() >= old(onGpu.gpu.NumFreeBlocks())
        && cpu.NumFreeBlocks() == old(cpu.NumFreeBlocks()) - old(Needed(ids, onGpu.blockTables, onGpu.gpu, cpu))
        && Brought(old(onGpu.Holdings()), old(Away()), Away(), Elements(ids), moved)
        && Joins(old(cpu.info), cpu.info, moved.Values)
        && HashesAsBefore(old(onGpu.gpu.info), onGpu.gpu.info)
      ensures r.Ok? && old(BothLawful()) ==>
        && Lawful(onGpu.Holdings(), onGpu.blockSize) && FullBears(Away(), onGpu.blockSize)
        && (Agree(Away(), onGpu.blockSize) <==> old(NoClash(onGpu.Holdings(), Away(), Elements(ids), onGpu.blockSize)))
    {
      hide Settled, Crossed, Needed, Distinct, Numbers, Injective, SwapManager.Valid, CachedBlockAllocator.NumFreeBlocks;
      hide Brought, Joins, HashesAsBefore, Lawful, FullBears, Agree, NoClash, TablesUsed, FilesOk, Elements;
      SidesOf();
      ghost var g, c := onGpu.Holdings(), Away();
      UsedInTables(Side(onGpu.blockTables, onGpu.texts), Side(swapped, swappedTexts), onGpu.gpu, cpu, onGpu.blockSize);
      UsedInTables(Side(swapped, swappedTexts), Side(onGpu.blockTables, onGpu.texts), cpu, onGpu.gpu, onGpu.blockSize);
      var from, to;
      ghost var fromTexts, toTexts;
      r, from, to, fromTexts, toTexts, moved :=
        Exchange(ids, onGpu.gpu, cpu, onGpu.blockTables, swapped, onGpu.texts, swappedTexts, onGpu.blockSize);
      if r.Ok? {
        Rehome(from, fromTexts, to, toTexts);
        OutLaws(ids, g, c, moved);
      }
    }

    /** The laws after a swap to the CPU. */
    lemma OutLaws(ids: seq<int>, g: Shelf<PhysicalTokenBlock>, c: Shelf<PhysicalTokenBlock>,
                  moved: map<PhysicalTokenBlock, PhysicalTokenBlock>)
      requires Valid() && Brought(g, c, Away(), Elements(ids), moved) && c.tables.Keys == c.texts.Keys && TablesUsed(g.tables, g.info)
      requires Crossed(ids, |ids|, Side(g.tables, g.texts), Side(onGpu.blockTables, onGpu.texts), Side(c.tables, c.texts),
                       Side(swapped, swappedTexts), moved)
      requires HashesAsBefore(g.info, onGpu.gpu.info)
      ensures Lawful(g, onGpu.blockSize) && Lawful(c, onGpu.blockSize) ==>
        && Lawful(onGpu.Holdings(), onGpu.blockSize) && FullBears(Away(), onGpu.blockSize)
        && (Agree(Away(), onGpu.blockSize) <==> NoClash(g, c, Elements(ids), onGpu.blockSize))
    {
      hide Crossed, Brought, SwapManager.Valid, Lawful, FullBears, Agree, NoClash, TablesUsed, FilesOk;
      CrossedAway(ids, Side(g.tables, g.texts), Side(onGpu.blockTables, onGpu.texts), Side(c.tables, c.texts),
                  Side(swapped, swappedTexts), moved);
      BooksAreInOrder();
      SwapLaws(cpu.Books(), g, onGpu.Holdings(), c, Away(), Elements(ids), moved, onGpu.blockSize);
    }

    /** The laws after a swap to the GPU. */
    lemma InLaws(ids: seq<int>, g: Shelf<PhysicalTokenBlock>, c: Shelf<PhysicalTokenBlock>,
                 moved: map<PhysicalTokenBlock, PhysicalTokenBlock>)
      requires Valid() && Brought(c, g, onGpu.Holdings(), Elements(ids), moved) && g.tables.Keys == g.texts.Keys
      requires TablesUsed(c.tables, c.info)
      requires Crossed(ids, |ids|, Side(c.tables, c.texts), Side(swapped, swappedTexts), Side(g.tables, g.texts),
                       Side(onGpu.blockTables, onGpu.texts), moved)
      requires HashesAsBefore(c.info, cpu.info)
      ensures Lawful(g, onGpu.blockSize) && Lawful(c, onGpu.blockSize) ==>
        && Lawful(Away(), onGpu.blockSize) && FullBears(onGpu.Holdings(), onGpu.blockSize)
        && (Agree(onGpu.Holdings(), onGpu.blockSize) <==> NoClash(c, g, Elements(ids), onGpu.blockSize))
    {
      hide Crossed, Brought, SwapManager.Valid, Lawful, FullBears, Agree, NoClash, TablesUsed, FilesOk;
      CrossedAway(ids, Side(c.tables, c.texts), Side(swapped, swappedTexts), Side(g.tables, g.texts),
                  Side(onGpu.blockTables, onGpu.texts), moved);
      BooksAreInOrder();
      SwapLaws(onGpu.gpu.Books(), c, Away(), g, onGpu.Holdings(), Elements(ids), moved, onGpu.blockSize);
    }

    lemma BooksAreInOrder()
      requires Valid()
      ensures FilesOk(cpu.Books()) && FilesOk(onGpu.gpu.Books())
    {
      hide FilesOk, Sharing, Counts, Covers;
      BooksInOrder(cpu);
      BooksInOrder(onGpu.gpu);
    }

    /** `swap_in` (458-487) for the swapped members `ids` of a group. */
    method SwapIn(ids: seq<int>) returns (r: Result<map<int, int>>, ghost moved: map<PhysicalTokenBlock, PhysicalTokenBlock>)
      requires Valid() && Distinct(ids) && forall i: nat | i < |ids| :: ids[i] in swapped
      modifies this, onGpu`blockTables, onGpu`texts
      modifies onGpu.gpu`currentNumBlocks, onGpu.gpu`cachedBlocks, onGpu.gpu`defaultHashCtr, onGpu.gpu`bound, onGpu.gpu`info
      modifies onGpu.gpu.evictor, onGpu.gpu.info.Keys, cpu`cachedBlocks, cpu`info, cpu.evictor, cpu.info.Keys
      ensures r.Ok? <==> old(Needed(ids, swapped, cpu, onGpu.gpu)) <= old(onGpu.gpu.NumFreeBlocks())
      ensures r.Err? ==> r.error == OutOfMemory
      ensures r.Ok? ==>
        && Valid() && fresh(onGpu.gpu.info.Keys - old(onGpu.gpu.info).Keys) && cpu.info.Keys == old(cpu.info).Keys
        && Crossed(ids, |ids|, Side(old(swapped), old(swappedTexts)), Side(swapped, swappedTexts),
                   Side(old(onGpu.blockTables), old(onGpu.texts)), Side(onGpu.blockTables, onGpu.texts), moved)
        && Numbers(r.value, moved) && Injective(moved)
        && onGpu.gpu.NumFreeBlocks() == old(onGpu.gpu.NumFreeBlocks()) - old(Needed(ids, swapped, cpu, onGpu.gpu))
        && Brought(old(Away()), old(onGpu.Holdings()), onGpu.Holdings(), Elements(ids), moved)
        && Joins(old(onGpu.gpu.info), onGpu.gpu.info, moved.Values)
        && HashesAsBefore(old(cpu.info), cpu.info)
      ensures r.Ok? && old(BothLawful()) ==>
        && Lawful(Away(), onGpu.blockSize) && FullBears(onGpu.Holdings(), onGpu.blockSize)
        && (Agree(onGpu.Holdings(), onGpu.blockSize) <==>
              old(NoClash(Away(), onGpu.Holdings(), Elements(ids), onGpu.blockSize)))
    {
      hide Settled, Crossed, Needed, Distinct, Numbers, Injective, SwapManager.Valid, CachedBlockAllocator.NumFreeBlocks;
      hide Brought, Joins, HashesAsBefore, Lawful, FullBears, Agree, NoClash, TablesUsed, FilesOk, Elements;
      SidesOf();
      ghost var g, c := onGpu.Holdings(), Away();
      UsedInTables(Side(onGpu.blockTables, onGpu.texts), Side(swapped, swappedTexts), onGpu.gpu, cpu, onGpu.blockSize);
      UsedInTables(Side(swapped, swappedTexts), Side(onGpu.blockTables, onGpu.texts), cpu, onGpu.gpu, onGpu.blockSize);
      var from, to;
      ghost var fromTexts, toTexts;
      r, from, to, fromTexts, toTexts, moved :=
        Exchange(ids, cpu, onGpu.gpu, swapped, onGpu.blockTables, swappedTexts, onGpu.texts, onGpu.blockSize);
      if r.Ok? {
        SettledFlips(Side(from, fromTexts), Side(to, toTexts), cpu, onGpu.gpu, onGpu.blockSize);
        Rehome(to, toTexts, from, fromTexts);
        InLaws(ids, g, c, moved);
      }
    }

    /** `_swap_out` of the scheduler (1047-1061): what `can_swap_out` has asked for is enough. */
    method TrySwapOut(ids: seq<int>) returns (r: Result<map<int, int>>, ghost moved: map<PhysicalTokenBlock, PhysicalTokenBlock>)
      requires Valid() && Distinct(ids) && forall i: nat | i < |ids| :: ids[i] in onGpu.blockTables
      modifies this, onGpu`blockTables, onGpu`texts
      modifies onGpu.gpu`cachedBlocks, onGpu.gpu`info, onGpu.gpu.evictor, onGpu.gpu.info.Keys
      modifies cpu`currentNumBlocks, cpu`cachedBlocks, cpu`defaultHashCtr, cpu`bound, cpu`info, cpu.evictor, cpu.info.Keys
      ensures Valid() && (r.Ok? <==> |BlocksOf(old(onGpu.blockTables), ids)| <= old(cpu.NumFreeBlocks()))
      ensures r.Err? ==> r.error == NoSwapSpace && unchanged(this) && unchanged(onGpu)
      ensures r.Ok? ==> (forall i: nat | i < |ids| :: ids[i] in swapped) && Numbers(r.value, moved)
      ensures r.Ok? ==> Brought(old(onGpu.Holdings()), old(Away()), Away(), Elements(ids), moved)
      ensures r.Ok? ==> moved.Keys == BlocksOf(old(onGpu.blockTables), ids)
    {
      hide Needed, BlocksOf, Distinct, Crossed, Numbers, Injective, SwapManager.Valid, SwapManager.OnCpu, PrefixCachingManager.Valid;
      hide CachedBlockAllocator.NumFreeBlocks, Brought, Joins, HashesAsBefore, Lawful, Agree, FullBears, NoClash;
      Parts();
      SameBlocks(onGpu.blockTables, swapped, ids);
      NeededWithin(ids, onGpu.blockTables, onGpu.gpu, cpu);
      var can := CanSwapOut(ids);
      assert can.Ok?;
      if !can.value {
        return Err(NoSwapSpace), map[];
      }
      r, moved := SwapOut(ids);
      AllArrived(ids, Side(old(onGpu.blockTables), old(onGpu.texts)), Side(onGpu.blockTables, onGpu.texts),
                 Side(old(swapped), old(swappedTexts)), Side(swapped, swappedTexts), moved);
      AllMoved(ids, Side(old(onGpu.blockTables), old(onGpu.texts)), Side(onGpu.blockTables, onGpu.texts),
               Side(old(swapped), old(swappedTexts)), Side(swapped, swappedTexts), moved);
    }

    /** A swapped group that `can_swap_in` lets pass comes back (scheduler.py:508-541), its members a token longer: neither
        `_swap_in` nor `_append_slots` runs out. */
    method BringBack(ids: seq<int>, ts: seq<Text>)
      returns (can: bool, mapping: map<int, int>, copies: seq<map<int, seq<int>>>,
               ghost moved: map<PhysicalTokenBlock, PhysicalTokenBlock>, ghost trail: seq<Shelf<PhysicalTokenBlock>>)
      requires Valid() && Distinct(ids) && |ts| == |ids| && forall i: nat | i < |ids| :: Longer(ids[i], ts[i])
      modifies this, onGpu`blockTables, onGpu`texts
      modifies onGpu.gpu`currentNumBlocks, onGpu.gpu`cachedBlocks, onGpu.gpu`defaultHashCtr, onGpu.gpu`bound, onGpu.gpu`info
      modifies onGpu.gpu.evictor, onGpu.gpu.info.Keys, cpu`cachedBlocks, cpu`info, cpu.evictor, cpu.info.Keys
      ensures Valid()
      ensures can <==> |BlocksOf(old(swapped), ids)| + |ids| + onGpu.watermarkBlocks <= old(onGpu.gpu.NumFreeBlocks())
      ensures !can ==> unchanged(this) && unchanged(onGpu) && unchanged(onGpu.gpu) && unchanged(cpu)
      ensures can ==> |copies| == |ids| && |trail| == |ids| + 1 && Numbers(mapping, moved)
      ensures can ==> Brought(old(Away()), old(onGpu.Holdings()), trail[0], Elements(ids), moved)
      ensures can ==> moved.Keys == BlocksOf(old(swapped), ids)
      ensures can ==> Turns(trail, ids, ts, onGpu.blockSize) && Asked(trail, ids, copies, |ids|) && trail[|ids|] == onGpu.Holdings()
      ensures can ==> forall i: nat | i < |ids| ::
        ids[i] in onGpu.blockTables && ids[i] in onGpu.texts && onGpu.texts[ids[i]] == ts[i] && ids[i] in trail[0].tables
        && copies[i] == CopyAtTurn(trail[0].tables, onGpu.blockTables, ids[..i], ids[i])
    {
      hide Needed, BlocksOf, Distinct, SwapManager.Valid, SwapManager.OnCpu, PrefixCachingManager.Valid, CachedBlockAllocator.NumFreeBlocks;
      hide Crossed, Numbers, Injective, Brought, Joins, HashesAsBefore, Lawful, Agree, FullBears;
      hide NoClash, Turns, Asked, CopyAtTurn, Located;
      Parts();
      SameBlocks(swapped, onGpu.blockTables, ids);
      EitherWay(swapped, onGpu.blockTables);
      var pass := CanSwapIn(ids);
      assert pass.Ok?;
      if !pass.value {
        return false, map[], [], map[], [];
      }
      NeededWithin(ids, swapped, cpu, onGpu.gpu);
      var swaps;
      swaps, moved := SwapIn(ids);
      assert swaps.Ok?;
      Parts();
      StillLonger(ids, ts, Side(old(swapped), old(swappedTexts)), Side(swapped, swappedTexts),
                  Side(old(onGpu.blockTables), old(onGpu.texts)), moved);
      var cows;
      cows, trail := onGpu.AppendGroup(ids, ts);
      TrailLength(trail, ids, ts, onGpu.blockSize);
      Whole();
      return true, swaps.value, cows.value, moved, trail;
    }

    lemma StillLonger(ids: seq<int>, ts: seq<Text>, from0: Side<PhysicalTokenBlock>, from: Side<PhysicalTokenBlock>,
                      to0: Side<PhysicalTokenBlock>, moved: map<PhysicalTokenBlock, PhysicalTokenBlock>)
      requires Crossed(ids, |ids|, from0, from, to0, Side(onGpu.blockTables, onGpu.texts), moved) && |ts| == |ids|
      requires forall i: nat | i < |ids| :: ids[i] in from0.texts && Continued(from0.texts[ids[i]], ts[i])
      ensures forall i: nat | i < |ids| :: onGpu.Longer(ids[i], ts[i])
      ensures moved.Keys == BlocksOf(from0.tables, ids)
    {
      hide BlocksOf, Remapped, Elements;
      AllMoved(ids, from0, from, to0, Side(onGpu.blockTables, onGpu.texts), moved);
      forall i: nat | i < |ids| ensures onGpu.Longer(ids[i], ts[i]) {
        assert Arrived(ids[i], from0, Side(onGpu.blockTables, onGpu.texts), moved);
      }
    }

    /** A swapped sequence has got a token since its table was last changed. */
    ghost predicate Longer(id: int, t: Text)
      reads this
    {
      id in swapped && id in swappedTexts && Continued(swappedTexts[id], t)
    }
  }
}
