/** Physical token blocks (vllm/block.py): objects shared by reference between block tables. */
module Blocks {
  datatype Device = GPU | CPU

  /** The verdict on a new prompt: now, later or never (vllm/core/interfaces.py). */
  datatype AllocStatus = CanAllocateNow | Later | Never

  /** A block hash.  The program hashes (token prefix, LoRA id) and draws the hash of a block that is
      not full from a counter; here the two kinds are disjoint and the content hash is injective. */
  datatype Hash = Unhashed | Content(tokens: seq<int>, lora: int) | Fresh(n: nat)

  class PhysicalTokenBlock {
    const device: Device
    const blockNumber: int
    var blockHash: Hash
    var numHashedTokens: nat
    var refCount: int
    var lastAccessed: int
    var computed: bool

    constructor (device: Device, blockNumber: int, blockHash: Hash, numHashedTokens: nat)
      ensures this.device == device && this.blockNumber == blockNumber
      ensures this.blockHash == blockHash && this.numHashedTokens == numHashedTokens
      ensures refCount == 0 && lastAccessed == -1 && !computed
    {
      this.device, this.blockNumber := device, blockNumber;
      this.blockHash, this.numHashedTokens := blockHash, numHashedTokens;
      refCount, lastAccessed, computed := 0, -1, false;
    }
  }

  type BlockTable = seq<PhysicalTokenBlock>

  /** No block occurs twice. */
  ghost predicate Distinct<B>(s: seq<B>) {
    forall i, j :: 0 <= i < j < |s| ==> s[i] != s[j]
  }

  /** Two tables have no block in common. */
  ghost predicate Apart<B>(s: seq<B>, t: seq<B>) {
    forall b | b in s :: b !in t
  }

  function Elements<B(==)>(s: seq<B>): set<B> {
    set b | b in s
  }

  lemma {:induction false} DistinctSize<B>(s: seq<B>)
    requires Distinct(s)
    ensures |Elements(s)| == |s|
  {
    if s != [] {
      var rest := s[..|s| - 1];
      DistinctSize(rest);
      assert s == rest + [s[|s| - 1]];
      assert Elements(s) == Elements(rest) + {s[|s| - 1]};
    }
  }

  lemma {:induction false} ElementsBound<B>(s: seq<B>)
    ensures |Elements(s)| <= |s|
  {
    if s != [] {
      var rest := s[..|s| - 1];
      ElementsBound(rest);
      assert s == rest + [s[|s| - 1]];
      assert Elements(s) == Elements(rest) + {s[|s| - 1]};
    }
  }

  lemma {:induction false} SubsetSize<B>(small: set<B>, large: set<B>)
    requires small <= large
    ensures |small| <= |large|
  {
    if small != {} {
      var b :| b in small;
      SubsetSize(small - {b}, large - {b});
    }
  }
}
