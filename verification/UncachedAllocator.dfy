/** `UncachedBlockAllocator` (vllm/core/block_manager_v1.py): a free list of reference-counted blocks. */
module UncachedAllocator {
  import opened Wrappers
  import opened Blocks

  class UncachedBlockAllocator {
    const device: Device
    const numBlocks: nat
    ghost const blocks: set<PhysicalTokenBlock>  // every block this allocator ever made
    var freeBlocks: BlockTable

    /** The free list holds exactly the blocks whose count is zero, each once. */
    ghost predicate Valid()
      reads this, blocks
    {
      && Distinct(freeBlocks)
      && (forall b | b in blocks :: b.device == device)
      && (forall b | b in freeBlocks :: b in blocks && b.refCount == 0)
      && (forall b | b in blocks :: 0 <= b.refCount && (b.refCount == 0 ==> b in freeBlocks))
    }

    /** The blocks of a device bear its numbers 0 to `numBlocks` - 1, one each.  This never changes. */
    ghost predicate Numbered() {
      && |blocks| == numBlocks
      && (forall b | b in blocks :: 0 <= b.blockNumber < numBlocks)
      && (forall b, c | b in blocks && c in blocks :: b.blockNumber == c.blockNumber ==> b == c)
    }

    constructor (device: Device, numBlocks: nat)
      ensures Valid() && Numbered() && fresh(blocks)
      ensures this.device == device && this.numBlocks == numBlocks
      ensures |freeBlocks| == numBlocks && forall b | b in blocks :: b.refCount == 0
    {
      this.device, this.numBlocks := device, numBlocks;
      var made: BlockTable := [];
      for i := 0 to numBlocks
        invariant |made| == i && forall b | b in made :: fresh(b)
        invariant forall k | 0 <= k < i :: made[k].device == device && made[k].blockNumber == k && made[k].refCount == 0
      {
        var block := new PhysicalTokenBlock(device, i, Unhashed, 0);
        made := made + [block];
      }
      freeBlocks := made;
      blocks := Elements(made);
      DistinctSize(made);
    }

    /** The free list is as long as the device exactly when no block is referenced. */
    lemma FullFreeListIff()
      requires Valid() && Numbered()
      ensures |freeBlocks| == numBlocks <==> forall b | b in blocks :: b.refCount == 0
    {
      DistinctSize(freeBlocks);
      if forall b | b in blocks :: b.refCount == 0 {
        assert Elements(freeBlocks) == blocks;
      } else {
        var b :| b in blocks && b.refCount != 0;
        SubsetSize(Elements(freeBlocks), blocks - {b});
      }
    }

    /** `allocate` (173-180): the last free block, now counted once; an error and no change when there is none. */
    method Allocate() returns (r: Result<PhysicalTokenBlock>)
      requires Valid()
      modifies this, blocks
      ensures Valid()
      ensures r.Ok? <==> old(freeBlocks) != []
      ensures r.Err? ==> r.error == OutOfMemory && unchanged(this) && unchanged(blocks)
      ensures r.Ok? ==>
        && var n := |old(freeBlocks)| - 1;
        && r.value == old(freeBlocks)[n] && freeBlocks == old(freeBlocks)[..n]
        && r.value in blocks && old(r.value.refCount) == 0 && r.value.refCount == 1
        && forall b | b in blocks && b != r.value :: b.refCount == old(b.refCount)
    {
      if freeBlocks == [] {
        return Err(OutOfMemory);
      }
      var n := |freeBlocks| - 1;
      var block := freeBlocks[n];
      freeBlocks := freeBlocks[..n];
      block.refCount := 1;
      assert old(freeBlocks) == freeBlocks + [block];
      return Ok(block);
    }

    /** `block.ref_count += 1`, as `swap_in` and `swap_out` do to a block in use (473, 503). */
    method AddReference(block: PhysicalTokenBlock)
      requires Valid() && block in blocks && block.refCount > 0
      modifies block
      ensures Valid() && block.refCount == old(block.refCount) + 1
    {
      block.refCount := block.refCount + 1;
    }

    /** `free` (182-187). */
    method Free(block: PhysicalTokenBlock) returns (r: Result<()>)
      requires Valid() && block in blocks
      modifies this, blocks
      ensures Valid()
      ensures r.Ok? <==> old(block.refCount) > 0
      ensures r.Err? ==> r.error == DoubleFree && unchanged(this) && unchanged(blocks)
      ensures r.Ok? ==>
        && block.refCount == old(block.refCount) - 1
        && (forall b | b in blocks && b != block :: b.refCount == old(b.refCount))
        && freeBlocks == old(freeBlocks) + if block.refCount == 0 then [block] else []
    {
      if block.refCount == 0 {
        return Err(DoubleFree);
      }
      block.refCount := block.refCount - 1;
      if block.refCount == 0 {
        freeBlocks := freeBlocks + [block];
      }
      return Ok(());
    }
  }
}
