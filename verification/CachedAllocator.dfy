/** `CachedBlockAllocator` (vllm/core/block_manager_v1.py:58-142): blocks found again by the hash of what they hold. */
module CachedAllocator {
  import opened Wrappers
  import opened Blocks
  import opened Evictors

  // ---- the books of the allocator, on values --------------------------------------------------------------------------

  /** Every block's hash and count, the dictionary of used blocks, the table of unused ones, and a bound on the default
      hashes in use. */
  datatype Files<B> = Files(info: map<B, Info>, cached: map<Hash, B>, keys: seq<Hash>, table: seq<B>, next: nat)

  datatype Info = Info(hash: Hash, refs: int)

  /** Used and unused blocks are filed under their own hashes, no hash twice, no block nowhere. */
  ghost predicate FilesOk<B>(f: Files<B>) {
    && |f.table| == |f.keys| && Distinct(f.keys)
    && (forall h | h in f.cached ::
          f.cached[h] in f.info && f.info[f.cached[h]].hash == h && f.info[f.cached[h]].refs > 0 && h !in f.keys)
    && (forall i | 0 <= i < |f.keys| :: f.table[i] in f.info && f.info[f.table[i]].hash == f.keys[i] && f.info[f.table[i]].refs == 0)
    && (forall b | b in f.info ::
          f.info[b].refs >= 0
          && if f.info[b].refs > 0 then f.info[b].hash in f.cached && f.cached[f.info[b].hash] == b else b in f.table)
    && forall b | b in f.info :: Drawn(f.info[b].hash, f.next)
  }

  /** A hash in use: of contents, or a default one drawn before, perhaps by the other device's allocator. */
  predicate Drawn(h: Hash, next: nat) {
    h.Content? || (h.Fresh? && h.n < next)
  }

  function Known<B>(f: Files<B>, h: Hash): bool { h in f.cached || h in f.keys }

  /** The block filed under `h`. */
  function Filed<B>(f: Files<B>, h: Hash): (b: B)
    requires Known(f, h) && |f.table| == |f.keys|
  {
    if h in f.cached then f.cached[h] else f.table[IndexOf(f.keys, h)]
  }

  /** A hash belongs to one block only. */
  lemma OneBlockPerHash<B>(f: Files<B>, b: B)
    requires FilesOk(f) && b in f.info
    ensures Known(f, f.info[b].hash) && Filed(f, f.info[b].hash) == b
  {
    if f.info[b].refs == 0 {
      var i :| 0 <= i < |f.table| && f.table[i] == b;
      assert f.keys[i] == f.info[b].hash && f.keys[i] in f.keys;
      var j := IndexOf(f.keys, f.info[b].hash);
      assert f.keys[j] == f.keys[i];
    }
  }

  /** Every block is in use under one hash or in the evictor's table at one place, and not both. */
  lemma EachBlockOnce<B>(f: Files<B>, b: B)
    requires FilesOk(f) && b in f.info
    ensures (b in f.table) != (exists h | h in f.cached :: f.cached[h] == b)
    ensures forall g, h | g in f.cached && h in f.cached && f.cached[g] == f.cached[h] :: g == h
    ensures Distinct(f.table) && |f.cached| + |f.keys| == |f.info|
  {
    TableDistinct(f);
    AllBlocks(f);
  }

  lemma AllBlocks<B>(f: Files<B>)
    requires FilesOk(f)
    ensures |f.cached| + |f.keys| == |f.info|
  {
    hide FilesOk;
    var used, unused := set b | b in f.info && f.info[b].refs > 0, set b | b in f.info && f.info[b].refs == 0;
    UsedOrNot(f);
    UsedSize(f, used);
    UnusedSize(f, unused);
    assert f.info.Keys == used + unused && used !! unused;
    assert |f.info| == |f.info.Keys| == |used| + |unused|;
  }

  lemma UsedOrNot<B>(f: Files<B>)
    requires FilesOk(f)
    ensures forall b | b in f.info :: f.info[b].refs > 0 || f.info[b].refs == 0
  {
  }

  lemma UnusedSize<B>(f: Files<B>, unused: set<B>)
    requires FilesOk(f) && unused == set b | b in f.info && f.info[b].refs == 0
    ensures |unused| == |f.keys|
  {
    TableDistinct(f);
    DistinctSize(f.table);
    assert Elements(f.table) == unused;
  }

  lemma {:induction false} UsedSize<B>(f: Files<B>, used: set<B>)
    requires FilesOk(f) && used == set b | b in f.info && f.info[b].refs > 0
    ensures |used| == |f.cached|
  {
    var keys := f.cached.Keys;
    ImageSize(keys, f.cached, used);
    assert |f.cached| == |keys|;
  }

  lemma {:induction false} ImageSize<B>(keys: set<Hash>, m: map<Hash, B>, image: set<B>)
    requires keys <= m.Keys && forall g, h | g in keys && h in keys :: m[g] == m[h] ==> g == h
    requires forall b :: b in image <==> exists h | h in keys :: m[h] == b
    ensures |image| == |keys|
  {
    if keys == {} {
      assert image == {};
    } else {
      var h :| h in keys;
      ImageSize(keys - {h}, m, image - {m[h]});
    }
  }

  // ---- what each operation does to the books ----------------------------------------------------------------------------

  function Reused<B>(f: Files<B>, h: Hash): Files<B>
    requires h in f.keys && |f.table| == |f.keys|
  {
    var i := IndexOf(f.keys, h);
    var b := f.table[i];
    Files(f.info[b := Info(h, 1)], f.cached[h := b], Without(f.keys, i), Without(f.table, i), f.next)
  }

  /** The unused blocks but one. */
  lemma OthersFiled<B>(f: Files<B>, i: nat)
    requires FilesOk(f) && i < |f.keys|
    ensures var keys, table := Without(f.keys, i), Without(f.table, i);
      && |table| == |keys| && Distinct(keys) && f.keys[i] !in keys && (forall h | h in keys :: h in f.keys)
      && (forall k | 0 <= k < |keys| ::
            table[k] in f.info && table[k] != f.table[i] && f.info[table[k]].hash == keys[k] && f.info[table[k]].refs == 0)
      && forall b | b in f.table && b != f.table[i] :: b in table
  {
    WithoutDistinct(f.keys, i);
    TableDistinct(f);
    WithoutDistinct(f.table, i);
    var keys, table := Without(f.keys, i), Without(f.table, i);
    forall k | 0 <= k < |keys|
      ensures table[k] in f.info && table[k] != f.table[i] && f.info[table[k]].hash == keys[k] && f.info[table[k]].refs == 0
    {
      var j := if k < i then k else k + 1;
      assert keys[k] == f.keys[j] && table[k] == f.table[j];
    }
  }

  lemma ReusedOk<B>(f: Files<B>, h: Hash)
    requires FilesOk(f) && h in f.keys
    ensures FilesOk(Reused(f, h))
  {
    hide Without, Distinct;
    OthersFiled(f, IndexOf(f.keys, h));
  }

  lemma TableDistinct<B>(f: Files<B>)
    requires FilesOk(f)
    ensures Distinct(f.table)
  {
    forall i, j | 0 <= i < j < |f.table| ensures f.table[i] != f.table[j] {
      assert f.keys[i] != f.keys[j];
    }
  }

  function Shared<B>(f: Files<B>, h: Hash): Files<B>
    requires h in f.cached && f.cached[h] in f.info
  {
    f.(info := f.info[f.cached[h] := Info(h, f.info[f.cached[h]].refs + 1)])
  }

  lemma SharedOk<B>(f: Files<B>, h: Hash)
    requires FilesOk(f) && h in f.cached
    ensures FilesOk(Shared(f, h))
  {
  }

  /** A block made for `h`. */
  function Made<B>(f: Files<B>, h: Hash, b: B): Files<B> {
    f.(info := f.info[b := Info(h, 1)], cached := f.cached[h := b])
  }

  lemma MadeOk<B>(f: Files<B>, h: Hash, b: B)
    requires FilesOk(f) && !Known(f, h) && b !in f.info && Drawn(h, f.next)
    ensures FilesOk(Made(f, h, b))
  {
  }

  /** The unused block `i` given the new hash `h`. */
  function Taken<B>(f: Files<B>, h: Hash, i: nat): Files<B>
    requires i < |f.keys| == |f.table|
  {
    var b := f.table[i];
    Files(f.info[b := Info(h, 1)], f.cached[h := b], Without(f.keys, i), Without(f.table, i), f.next)
  }

  lemma TakenOk<B>(f: Files<B>, h: Hash, i: nat)
    requires FilesOk(f) && !Known(f, h) && i < |f.keys| && Drawn(h, f.next)
    ensures FilesOk(Taken(f, h, i))
  {
    hide Without, Distinct;
    OthersFiled(f, i);
  }

  function Released<B>(f: Files<B>, b: B): Files<B>
    requires b in f.info
  {
    var g := f.(info := f.info[b := Info(f.info[b].hash, f.info[b].refs - 1)]);
    if f.info[b].refs == 1 then g.(cached := f.cached - {f.info[b].hash}, keys := f.keys + [f.info[b].hash], table := f.table + [b]) else g
  }

  lemma ReleasedOk<B>(f: Files<B>, b: B)
    requires FilesOk(f) && b in f.info && f.info[b].refs > 0
    ensures FilesOk(Released(f, b)) && f.info[b].hash !in f.keys
  {
  }

  function Rehashed<B>(f: Files<B>, b: B, h: Hash): Files<B>
    requires b in f.info
  {
    f.(info := f.info[b := Info(h, f.info[b].refs)], cached := (f.cached - {f.info[b].hash})[h := b])
  }

  lemma RehashedOk<B>(f: Files<B>, b: B, h: Hash)
    requires FilesOk(f) && b in f.info && f.info[b].refs > 0 && !Known(f, h) && Drawn(h, f.next)
    ensures FilesOk(Rehashed(f, b, h))
  {
  }

  /** The blocks made so far bear the numbers 0 to `n` - 1, one each. */
  ghost predicate Numbered(blocks: set<PhysicalTokenBlock>, n: nat) {
    && |blocks| == n
    && (forall b | b in blocks :: 0 <= b.blockNumber < n)
    && forall b, c | b in blocks && c in blocks :: b.blockNumber == c.blockNumber ==> b == c
  }

  lemma NumberedNext(blocks: set<PhysicalTokenBlock>, n: nat, b: PhysicalTokenBlock)
    requires Numbered(blocks, n) && b !in blocks && b.blockNumber == n
    ensures Numbered(blocks + {b}, n + 1)
  {
  }

  class CachedBlockAllocator {
    const device: Device
    const numBlocks: nat
    const evictor: LruEvictor
    var currentNumBlocks: nat
    var cachedBlocks: map<Hash, PhysicalTokenBlock>
    var defaultHashCtr: nat

    ghost var info: map<PhysicalTokenBlock, Info>  // every block's hash and count, as a value
    ghost var bound: nat  // default hashes in use are below it

    /** The books: the fields, with the hashes and counts of the blocks. */
    ghost function Books(): Files<PhysicalTokenBlock>
      reads this, evictor
    {
      Files(info, cachedBlocks, evictor.keys, evictor.table, bound)
    }

    ghost predicate Valid()
      reads this, evictor, info.Keys
    {
      && FilesOk(Books()) && Mirrored()
      && Numbered(info.Keys, currentNumBlocks) && currentNumBlocks <= numBlocks && defaultHashCtr <= bound
    }

    /** All default hashes in use were drawn from this allocator's counter. */
    ghost predicate Own()
      reads this
    {
      defaultHashCtr == bound
    }

    /** The blocks are what the books say. */
    ghost predicate Mirrored()
      reads this`info, info.Keys
    {
      forall b | b in info :: b.blockHash == info[b].hash && b.refCount == info[b].refs && b.device == device
    }

    constructor (device: Device, numBlocks: nat)
      ensures Valid() && Books() == Files(map[], map[], [], [], 0) && fresh(evictor)
      ensures this.device == device && this.numBlocks == numBlocks && currentNumBlocks == 0 && Own()
    {
      var lru := new LruEvictor();
      this.device, this.numBlocks, evictor := device, numBlocks, lru;
      currentNumBlocks, cachedBlocks, defaultHashCtr, info, bound := 0, map[], 0, map[], 0;
    }

    /** `get_num_free_blocks` (129-131). */
    function NumFreeBlocks(): int
      reads this, evictor
    {
      numBlocks - currentNumBlocks + |evictor.keys|
    }

    /** `contains_block` (133-134). */
    predicate ContainsBlock(h: Hash)
      reads this, evictor
    {
      h in cachedBlocks || h in evictor.keys
    }

    /** `allocate_block` for a full device (84-88), the entry in `cached_blocks` and the first reference (110-116). */
    method TakeUnused(h: Hash, numHashedTokens: nat) returns (r: Result<PhysicalTokenBlock>)
      requires Valid() && !ContainsBlock(h) && Drawn(h, bound)
      modifies this`cachedBlocks, this`info, evictor, info.Keys
      ensures Valid()
      ensures r.Ok? <==> old(evictor.keys) != []
      ensures r.Err? ==> r.error == OutOfMemory && Books() == old(Books())
      ensures r.Ok? ==>
        && |old(evictor.table)| == |old(evictor.keys)| > 0
        && var i := Choice(old(evictor.Contenders()));
        && r.value == old(evictor.table)[i] && Books() == Taken(old(Books()), h, i) && r.value.numHashedTokens == numHashedTokens
      ensures info.Keys == old(info).Keys
      ensures forall b | b in info && (r.Ok? ==> b != r.value) :: b.numHashedTokens == old(b.numHashedTokens)
    {
      hide FilesOk, Choice, Without, Numbered;
      ghost var f := Books();
      TableFiled(f);
      var evicted := evictor.Evict();
      if evicted.Err? {
        return Err(evicted.error);
      }
      var block := evicted.value;
      TakenOk(f, h, Choice(old(evictor.Contenders())));
      block.numHashedTokens := numHashedTokens;
      cachedBlocks := cachedBlocks[h := block];
      Restamp(block, h, block.refCount + 1);
      return Ok(block);
    }

    /** A block's hash and count change, and the books with them. */
    method Restamp(block: PhysicalTokenBlock, h: Hash, refs: int)
      requires Mirrored() && block in info
      modifies this`info, block`blockHash, block`refCount
      ensures Mirrored() && info == old(info)[block := Info(h, refs)] && info.Keys == old(info).Keys
      ensures block.blockHash == h && block.refCount == refs
    {
      block.blockHash, block.refCount := h, refs;
      info := info[block := Info(h, refs)];
    }

    /** `allocate_block` for a device with room (89-95), the entry in `cached_blocks` and the first reference. */
    method MakeBlock(h: Hash, numHashedTokens: nat) returns (block: PhysicalTokenBlock)
      requires Valid() && !ContainsBlock(h) && Drawn(h, bound) && currentNumBlocks < numBlocks
      modifies this`currentNumBlocks, this`cachedBlocks, this`info
      ensures Valid() && fresh(block) && Books() == Made(old(Books()), h, block) && currentNumBlocks == old(currentNumBlocks) + 1
      ensures info.Keys == old(info).Keys + {block} && block.numHashedTokens == numHashedTokens
    {
      hide FilesOk, Numbered, Made, CachedBlockAllocator.Mirrored;
      ghost var f := Books();
      block := FirstReference(h, numHashedTokens);
      MadeOk(f, h, block);
      NumberedNext(info.Keys, currentNumBlocks, block);
      AddBlock(h, block);
      MadeIs(f, h, block);
    }

    /** The books are extended by a new block. */
    method AddBlock(h: Hash, block: PhysicalTokenBlock)
      requires Mirrored() && block !in info && block.blockHash == h && block.refCount == 1 && block.device == device
      modifies this`currentNumBlocks, this`cachedBlocks, this`info
      ensures Mirrored() && info == old(info)[block := Info(h, 1)] && info.Keys == old(info).Keys + {block}
      ensures currentNumBlocks == old(currentNumBlocks) + 1 && cachedBlocks == old(cachedBlocks)[h := block]
    {
      currentNumBlocks := currentNumBlocks + 1;
      cachedBlocks := cachedBlocks[h := block];
      info := info[block := Info(h, 1)];
    }

    /** `allocate` for the hash of an unused block (102-109).  The assertions hold. */
    method FindUnused(h: Hash) returns (block: PhysicalTokenBlock)
      requires Valid() && h in evictor.keys
      modifies this`cachedBlocks, this`info, evictor, info.Keys
      ensures Valid() && info.Keys == old(info).Keys && |old(evictor.keys)| == |old(evictor.table)|
      ensures block == old(evictor.table)[IndexOf(old(evictor.keys), h)] && block in old(info) && Books() == Reused(old(Books()), h)
      ensures forall b | b in info :: b.numHashedTokens == old(b.numHashedTokens)
    {
      hide FilesOk, Without, Numbered;
      ghost var f := Books();
      TableFiled(f);
      UsedFiled(f, h);
      assert h !in cachedBlocks;
      ReusedOk(f, h);
      var removed := evictor.Remove(h);
      block := removed.value;
      assert block.refCount == 0;
      cachedBlocks := cachedBlocks[h := block];
      Restamp(block, block.blockHash, block.refCount + 1);
      assert block.blockHash == h;
    }

    /** `allocate` for the hash of a used block (113-116). */
    method FindUsed(h: Hash) returns (block: PhysicalTokenBlock)
      requires Valid() && h in cachedBlocks
      modifies this`info, info.Keys
      ensures Valid() && info.Keys == old(info).Keys
      ensures block == old(cachedBlocks)[h] && block in old(info) && Books() == Shared(old(Books()), h)
      ensures forall b | b in info :: b.numHashedTokens == old(b.numHashedTokens)
    {
      hide FilesOk, Without, Numbered;
      UsedFiled(Books(), h);
      SharedOk(Books(), h);
      block := cachedBlocks[h];
      assert block.blockHash == h;
      Restamp(block, block.blockHash, block.refCount + 1);
    }

    /** The hash that is allocated for (99-100): the given one or the next of the counter. */
    method DrawHash(blockHash: Option<Hash>) returns (h: Hash)
      requires Valid() && if blockHash.Some? then !blockHash.value.Unhashed? else Own()
      modifies this`defaultHashCtr, this`bound
      ensures Valid() && Drawn(h, bound) && h == HashFor(blockHash, old(Books())) && Books() == BooksFor(blockHash, old(Books()))
      ensures defaultHashCtr == old(defaultHashCtr) + if blockHash.Some? then 0 else 1
    {
      hide FilesOk, Numbered;
      ghost var f := Books();
      if blockHash.None? {
        NextDrawn(f);
        h := Fresh(defaultHashCtr);
        defaultHashCtr := defaultHashCtr + 1;
        bound := bound + 1;
      } else {
        h := blockHash.value;
        WiderOk(f, h);
        bound := Wider(f.next, h);
      }
    }

    /** The block for a hash (101-116). */
    method AllocateFor(h: Hash, numHashedTokens: nat) returns (r: Result<PhysicalTokenBlock>)
      requires Valid() && Drawn(h, bound)
      modifies this`currentNumBlocks, this`cachedBlocks, this`info, evictor, info.Keys
      ensures Valid()
      ensures r.Ok? <==> Known(old(Books()), h) || old(NumFreeBlocks()) > 0
      ensures r.Err? ==> r.error == OutOfMemory && Books() == old(Books()) && currentNumBlocks == old(currentNumBlocks)
      ensures r.Ok? ==> Allotted(old(Books()), h, old(currentNumBlocks) < numBlocks, r.value, Books())
      ensures r.Ok? ==>
        currentNumBlocks == old(currentNumBlocks) + if Known(old(Books()), h) || old(currentNumBlocks) == numBlocks then 0 else 1
      ensures r.Ok? ==> r.value in info && info.Keys == old(info).Keys + {r.value} && (r.value !in old(info) ==> fresh(r.value))
      ensures r.Err? ==> info.Keys == old(info).Keys
      ensures r.Ok? && !Known(old(Books()), h) ==> r.value.numHashedTokens == numHashedTokens
      ensures forall b | b in old(info) && (r.Ok? && b == r.value ==> Known(old(Books()), h)) ::
        b.numHashedTokens == old(b.numHashedTokens)
    {
      hide FilesOk, Without, Numbered, Choice, Reused, Shared, Made, Taken, CachedBlockAllocator.Mirrored;
      TableFiled(Books());
      UsedFiled(Books(), h);
      if h in evictor.keys {
        var found := FindUnused(h);
        return Ok(found);
      }
      if h in cachedBlocks {
        var found := FindUsed(h);
        return Ok(found);
      }
      if currentNumBlocks == numBlocks {
        r := TakeUnused(h, numHashedTokens);
        return;
      }
      var made := MakeBlock(h, numHashedTokens);
      return Ok(made);
    }

    /** `allocate` (97-116): the block that bears the hash, or a new one; without a hash, one of its own.  It fails only
        when every block is in use, and uses up a free block just when no block in use bears the hash. */
    method Allocate(blockHash: Option<Hash>, numHashedTokens: nat) returns (r: Result<PhysicalTokenBlock>)
      requires Valid() && if blockHash.Some? then !blockHash.value.Unhashed? else Own()
      modifies this`currentNumBlocks, this`cachedBlocks, this`defaultHashCtr, this`bound, this`info, evictor, info.Keys
      ensures Valid()
      ensures var h, f := HashFor(blockHash, old(Books())), BooksFor(blockHash, old(Books()));
        && (r.Ok? <==> Known(f, h) || old(NumFreeBlocks()) > 0)
        && (r.Err? ==> r.error == OutOfMemory && Books() == f)
        && (r.Ok? ==> Allotted(f, h, old(currentNumBlocks) < numBlocks, r.value, Books()))
        && NumFreeBlocks() == old(NumFreeBlocks()) - (if r.Err? || h in old(cachedBlocks) then 0 else 1)
        && cachedBlocks.Keys == old(cachedBlocks).Keys + (if r.Err? then {} else {h})
        && bound == f.next
      ensures defaultHashCtr == old(defaultHashCtr) + if blockHash.Some? then 0 else 1
      ensures r.Ok? ==> r.value in info && info.Keys == old(info).Keys + {r.value} && (r.value !in old(info) ==> fresh(r.value))
      ensures r.Err? ==> info.Keys == old(info).Keys
      ensures var h, f := HashFor(blockHash, old(Books())), BooksFor(blockHash, old(Books()));
        && (r.Ok? && !Known(f, h) ==> r.value.numHashedTokens == numHashedTokens)
        && forall b | b in old(info) && (r.Ok? && b == r.value ==> Known(f, h)) :: b.numHashedTokens == old(b.numHashedTokens)
    {
      hide FilesOk, Without, Numbered, Allotted, CachedBlockAllocator.Mirrored, Drawn;
      var h := DrawHash(blockHash);
      ghost var f, room := Books(), currentNumBlocks < numBlocks;
      r := AllocateFor(h, numHashedTokens);
      if r.Ok? {
        AllottedSizes(f, h, room, r.value, Books());
      }
    }

    /** `free` (118-127).  The error is the ValueError for a double free; the assertion holds. */
    method Free(block: PhysicalTokenBlock) returns (r: Result<()>)
      requires Valid() && block in info
      modifies this`cachedBlocks, this`info, evictor, block`refCount, block`blockHash
      ensures Valid() && info.Keys == old(info).Keys
      ensures r.Ok? <==> old(block.refCount) > 0
      ensures r.Err? ==> r.error == DoubleFree && Books() == old(Books())
      ensures r.Ok? ==> Books() == Released(old(Books()), block)
    {
      hide FilesOk, Numbered;
      ghost var f := Books();
      CountsOk(f, block);
      if block.refCount == 0 {
        return Err(DoubleFree);
      }
      ReleasedOk(f, block);
      Restamp(block, block.blockHash, block.refCount - 1);
      if block.refCount == 0 {
        assert block.blockHash !in evictor.keys;
        evictor.Add(block);
        cachedBlocks := cachedBlocks - {block.blockHash};
      }
      return Ok(());
    }

    /** `block.ref_count += 1` for a used block, as `fork` does it (430-431). */
    method AddReference(block: PhysicalTokenBlock)
      requires Valid() && block in info && info[block].hash in cachedBlocks && cachedBlocks[info[block].hash] == block
      modifies this`info, block`refCount, block`blockHash
      ensures Valid() && info.Keys == old(info).Keys && Books() == Shared(old(Books()), old(info)[block].hash)
    {
      hide FilesOk, Numbered;
      SharedOk(Books(), info[block].hash);
      Restamp(block, block.blockHash, block.refCount + 1);
    }

    /** `update_hash` (136-142), for a used block and a hash that no block bears. */
    method UpdateHash(blockHash: Hash, block: PhysicalTokenBlock)
      requires Valid() && block in info && block.refCount > 0 && blockHash.Content? && !ContainsBlock(blockHash)
      modifies this`cachedBlocks, this`info, block`blockHash, block`refCount
      ensures Valid() && info.Keys == old(info).Keys && Books() == Rehashed(old(Books()), block, blockHash)
    {
      hide FilesOk, Numbered;
      ghost var f := Books();
      RehashedOk(f, block, blockHash);
      var oldHash := block.blockHash;
      Restamp(block, blockHash, block.refCount);
      cachedBlocks := (cachedBlocks - {oldHash})[blockHash := block];
    }

    method FirstReference(h: Hash, numHashedTokens: nat) returns (block: PhysicalTokenBlock)
      ensures fresh(block) && block.device == device && block.blockNumber == currentNumBlocks
      ensures block.blockHash == h && block.refCount == 1 && block.numHashedTokens == numHashedTokens
      ensures block !in info && unchanged(this) && unchanged(info.Keys)
    {
      block := new PhysicalTokenBlock(device, currentNumBlocks, h, numHashedTokens);
      block.refCount := block.refCount + 1;
    }
  }

  lemma MadeIs<B>(f: Files<B>, h: Hash, b: B)
    ensures Made(f, h, b) == Files(f.info[b := Info(h, 1)], f.cached[h := b], f.keys, f.table, f.next)
  {
  }

  lemma TableFiled<B>(f: Files<B>)
    requires FilesOk(f)
    ensures |f.table| == |f.keys| && Distinct(f.keys)
    ensures forall i | 0 <= i < |f.keys| :: f.table[i] in f.info && f.info[f.table[i]].hash == f.keys[i] && f.info[f.table[i]].refs == 0
  {
  }

  lemma NextDrawn<B>(f: Files<B>)
    requires FilesOk(f)
    ensures FilesOk(f.(next := f.next + 1)) && !Known(f, Fresh(f.next)) && Drawn(Fresh(f.next), f.next + 1)
  {
  }

  lemma UsedFiled<B>(f: Files<B>, h: Hash)
    requires FilesOk(f)
    ensures h in f.cached ==> f.cached[h] in f.info && f.info[f.cached[h]].hash == h && f.info[f.cached[h]].refs > 0 && h !in f.keys
  {
  }

  lemma CountsOk<B>(f: Files<B>, b: B)
    requires FilesOk(f) && b in f.info
    ensures f.info[b].refs >= 0
  {
  }

  /** A hash given to an allocation may be one that the other device's allocator has drawn. */
  function Wider(next: nat, h: Hash): nat {
    if h.Fresh? && h.n >= next then h.n + 1 else next
  }

  lemma WiderOk<B>(f: Files<B>, h: Hash)
    requires FilesOk(f) && !h.Unhashed?
    ensures FilesOk(f.(next := Wider(f.next, h))) && Drawn(h, Wider(f.next, h))
  {
  }

  /** The hash an allocation is for, and the books once a default hash has been drawn or seen. */
  function HashFor<B>(blockHash: Option<Hash>, f: Files<B>): Hash {
    if blockHash.Some? then blockHash.value else Fresh(f.next)
  }

  function BooksFor<B>(blockHash: Option<Hash>, f: Files<B>): Files<B> {
    if blockHash.Some? then f.(next := Wider(f.next, blockHash.value)) else f.(next := f.next + 1)
  }

  /** Which block an allocation for hash `h` returns, and what it does to the books. */
  ghost predicate Allotted<B>(f: Files<B>, h: Hash, room: bool, b: B, after: Files<B>) {
    && |f.table| == |f.keys|
    && if h in f.keys then b == Filed(f, h) && after == Reused(f, h)
    else if h in f.cached then b == Filed(f, h) && b in f.info && after == Shared(f, h)
    else if room then b !in f.info && after == Made(f, h, b)
    else exists i | 0 <= i < |f.keys| :: b == f.table[i] && after == Taken(f, h, i)
  }

  /** The block bears the hash already, or it was not in use. */
  lemma AllottedFound<B>(f: Files<B>, h: Hash, room: bool, b: B, after: Files<B>)
    requires FilesOk(f) && Allotted(f, h, room, b, after)
    ensures Known(f, h) ==> b in f.info && f.info[b].hash == h
    ensures !Known(f, h) && b in f.info ==> f.info[b].refs <= 0
  {
    if h in f.keys {
      var i := IndexOf(f.keys, h);
      assert f.info[f.table[i]].hash == f.keys[i];
    }
  }

  /** How many blocks an allocation uses up. */
  lemma AllottedSizes<B>(f: Files<B>, h: Hash, room: bool, b: B, after: Files<B>)
    requires FilesOk(f) && Allotted(f, h, room, b, after)
    ensures after.cached.Keys == f.cached.Keys + {h} && after.next == f.next
    ensures |after.keys| == |f.keys| - if h in f.cached || (h !in f.keys && room) then 0 else 1
  {
    hide Without;
  }

  /** Giving up a reference makes no hash unknown. */
  lemma ReleasedKnown<B>(f: Files<B>, b: B, h: Hash)
    requires FilesOk(f) && b in f.info && Known(f, h)
    ensures Known(Released(f, b), h)
  {
    if f.info[b].refs == 1 && h == f.info[b].hash {
      var keys := Released(f, b).keys;
      assert keys[|f.keys|] == h;
    } else if h in f.keys {
      var i :| 0 <= i < |f.keys| && f.keys[i] == h;
      assert Released(f, b).keys[i] == h;
    }
  }
}
