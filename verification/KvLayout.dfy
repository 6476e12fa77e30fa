/** Where keys and values lie in the paged caches of the CPU kernels (csrc/cpu/cache.cpp). */
module KvLayout {
  import opened Arithmetic

  /** The cache of one layer: `[num_blocks, num_heads, head_size / x, block_size, x]` for the keys and
      `[num_blocks, num_heads, head_size, block_size]` for the values. */
  datatype Shape = Shape(numHeads: nat, headSize: nat, blockSize: nat, x: nat) {
    ghost predicate Valid() {
      numHeads > 0 && headSize > 0 && blockSize > 0 && x > 0 && headSize % x == 0
    }

    function BlockElems(): nat { numHeads * headSize * blockSize }

    function HeadElems(): nat { blockSize * headSize }

    /** Within one head of one block (58-66): element `d` of the key in slot `t`. */
    function KeyInHead(t: nat, d: nat): nat
      requires x > 0
    {
      (d / x * x) * blockSize + t * x + d % x
    }

    function ValueInHead(t: nat, d: nat): nat { d * blockSize + t }

    function KeyAt(block: nat, head: nat, t: nat, d: nat): nat
      requires x > 0
    {
      BlockElems() * block + head * HeadElems() + KeyInHead(t, d)
    }

    function ValueAt(block: nat, head: nat, t: nat, d: nat): nat {
      BlockElems() * block + head * HeadElems() + ValueInHead(t, d)
    }
  }

  /** A place in the cache: which block, head, slot of the block and element of the head. */
  ghost predicate Place(s: Shape, block: int, head: int, t: int, d: int) {
    0 <= block && 0 <= head < s.numHeads && 0 <= t < s.blockSize && 0 <= d < s.headSize
  }

  lemma MulLess(a: nat, b: nat, m: nat)
    requires a < b
    ensures a * m + m <= b * m
  {
    MulGap(m, b, a);
  }

  /** Two numbers with the same mixed-radix value agree digit by digit. */
  lemma SameDigits(q: nat, r: nat, q': nat, r': nat, radix: nat)
    requires r < radix && r' < radix && q * radix + r == q' * radix + r'
    ensures q == q' && r == r'
  {
    DivMod(q, r, radix);
    DivMod(q', r', radix);
  }

  lemma KeyInHeadBound(s: Shape, t: nat, d: nat)
    requires s.Valid() && t < s.blockSize && d < s.headSize
    ensures s.KeyInHead(t, d) < s.HeadElems()
    ensures s.KeyInHead(t, d) == (d / s.x * s.blockSize + t) * s.x + d % s.x
  {
    var q, r := d / s.x, d % s.x;
    var n := s.headSize / s.x;
    DivModOf(d, s.x);
    DivModOf(s.headSize, s.x);
    assert s.headSize == n * s.x;
    assert q < n by {
      if q >= n { MulAtLeast(n, q, s.x); }
    }
    assert (q * s.x) * s.blockSize == (q * s.blockSize) * s.x by {
      MulSwap(q, s.x, s.blockSize);
    }
    assert (q * s.blockSize + t) * s.x == (q * s.blockSize) * s.x + t * s.x;
    MulLess(q, n, s.blockSize);
    MulLess(q * s.blockSize + t, n * s.blockSize, s.x);
    assert n * s.blockSize * s.x == s.HeadElems() by { MulSwap(n, s.x, s.blockSize); }
  }

  lemma MulSwap(a: nat, b: nat, c: nat)
    ensures (a * b) * c == (a * c) * b
  {
    assert (a * b) * c == a * (b * c) == a * (c * b) == (a * c) * b;
  }

  /** The keys of one head lie at different offsets. */
  lemma KeyInHeadInjective(s: Shape, t: nat, d: nat, t': nat, d': nat)
    requires s.Valid() && t < s.blockSize && t' < s.blockSize && d < s.headSize && d' < s.headSize
    requires s.KeyInHead(t, d) == s.KeyInHead(t', d')
    ensures t == t' && d == d'
  {
    hide Shape.KeyInHead;
    KeyInHeadBound(s, t, d);
    KeyInHeadBound(s, t', d');
    var q, r := Halves(d, s.x);
    var q', r' := Halves(d', s.x);
    ThreeDigits(q, t, r, q', t', r', s.blockSize, s.x);
  }

  lemma Halves(d: nat, x: nat) returns (q: nat, r: nat)
    requires x > 0
    ensures q == d / x && r == d % x && d == q * x + r && r < x
  {
    q, r := d / x, d % x;
  }

  lemma ThreeDigits(q: nat, t: nat, r: nat, q': nat, t': nat, r': nat, blockSize: nat, x: nat)
    requires t < blockSize && t' < blockSize && r < x && r' < x
    requires (q * blockSize + t) * x + r == (q' * blockSize + t') * x + r'
    ensures q == q' && t == t' && r == r'
  {
    SameDigits(q * blockSize + t, r, q' * blockSize + t', r', x);
    SameDigits(q, t, q', t', blockSize);
  }

  lemma ValueInHeadBound(s: Shape, t: nat, d: nat)
    requires t < s.blockSize && d < s.headSize
    ensures s.ValueInHead(t, d) < s.HeadElems()
  {
    MulLess(d, s.headSize, s.blockSize);
    assert s.headSize * s.blockSize == s.HeadElems();
  }

  lemma ValueInHeadInjective(s: Shape, t: nat, d: nat, t': nat, d': nat)
    requires t < s.blockSize && t' < s.blockSize && s.ValueInHead(t, d) == s.ValueInHead(t', d')
    ensures t == t' && d == d'
  {
    SameDigits(d, t, d', t', s.blockSize);
  }

  /** Heads and blocks do not overlap, whatever is stored within a head. */
  lemma HeadsApart(s: Shape, block: nat, head: nat, o: nat, block': nat, head': nat, o': nat)
    requires head < s.numHeads && head' < s.numHeads && o < s.HeadElems() && o' < s.HeadElems()
    requires s.BlockElems() * block + head * s.HeadElems() + o == s.BlockElems() * block' + head' * s.HeadElems() + o'
    ensures block == block' && head == head' && o == o'
  {
    var h := s.HeadElems();
    BlockOfHeads(s, block, head);
    BlockOfHeads(s, block', head');
    SameDigits(block * s.numHeads + head, o, block' * s.numHeads + head', o', h);
    SameDigits(block, head, block', head', s.numHeads);
  }

  lemma BlockOfHeads(s: Shape, block: nat, head: nat)
    ensures s.BlockElems() * block + head * s.HeadElems() == (block * s.numHeads + head) * s.HeadElems()
  {
    var h := s.HeadElems();
    assert s.BlockElems() == s.numHeads * h by {
      assert s.numHeads * s.headSize * s.blockSize == s.numHeads * (s.headSize * s.blockSize);
      assert s.headSize * s.blockSize == s.blockSize * s.headSize;
    }
    assert (s.numHeads * h) * block == (block * s.numHeads) * h by {
      MulSwap(s.numHeads, h, block);
    }
    assert (block * s.numHeads + head) * h == (block * s.numHeads) * h + head * h;
  }

  lemma InBlock(s: Shape, block: nat, head: nat, o: nat, numBlocks: nat)
    requires block < numBlocks && head < s.numHeads && o < s.HeadElems()
    ensures s.BlockElems() * block + head * s.HeadElems() + o < numBlocks * s.BlockElems()
  {
    var h := s.HeadElems();
    BlockOfHeads(s, block, head);
    MulLess(block, numBlocks, s.numHeads);
    MulLess(block * s.numHeads + head, numBlocks * s.numHeads, h);
    BlockOfHeads(s, numBlocks, 0);
    assert s.BlockElems() * numBlocks == numBlocks * s.BlockElems();
  }

  /** Different places have different key offsets. */
  lemma KeysInjective(s: Shape, block: nat, head: nat, t: nat, d: nat, block': nat, head': nat, t': nat, d': nat)
    requires s.Valid() && Place(s, block, head, t, d) && Place(s, block', head', t', d')
    requires s.KeyAt(block, head, t, d) == s.KeyAt(block', head', t', d')
    ensures block == block' && head == head' && t == t' && d == d'
  {
    KeyInHeadBound(s, t, d);
    KeyInHeadBound(s, t', d');
    HeadsApart(s, block, head, s.KeyInHead(t, d), block', head', s.KeyInHead(t', d'));
    KeyInHeadInjective(s, t, d, t', d');
  }

  lemma ValuesInjective(s: Shape, block: nat, head: nat, t: nat, d: nat, block': nat, head': nat, t': nat, d': nat)
    requires s.Valid() && Place(s, block, head, t, d) && Place(s, block', head', t', d')
    requires s.ValueAt(block, head, t, d) == s.ValueAt(block', head', t', d')
    ensures block == block' && head == head' && t == t' && d == d'
  {
    ValueInHeadBound(s, t, d);
    ValueInHeadBound(s, t', d');
    HeadsApart(s, block, head, s.ValueInHead(t, d), block', head', s.ValueInHead(t', d'));
    ValueInHeadInjective(s, t, d, t', d');
  }

  /** All places of the first `numBlocks` blocks lie in a cache of that many. */
  lemma PlacesInBounds(s: Shape, block: nat, head: nat, t: nat, d: nat, numBlocks: nat)
    requires s.Valid() && Place(s, block, head, t, d) && block < numBlocks
    ensures s.KeyAt(block, head, t, d) < numBlocks * s.BlockElems()
    ensures s.ValueAt(block, head, t, d) < numBlocks * s.BlockElems()
  {
    KeyInHeadBound(s, t, d);
    ValueInHeadBound(s, t, d);
    InBlock(s, block, head, s.KeyInHead(t, d), numBlocks);
    InBlock(s, block, head, s.ValueInHead(t, d), numBlocks);
  }
}
