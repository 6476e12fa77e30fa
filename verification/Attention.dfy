/** Paged attention on the CPU for one query head of one sequence (csrc/cpu/attention.cpp). */
module Attention {
  import opened Wrappers
  import opened Arithmetic
  import opened KvLayout
  import opened Softmax
  import opened Sums
  import opened Partitions
  import Sequences

  // ---- the dot products of one block ---------------------------------------------------------------------------

  /** The products of a query with the key in slot `t` of a block whose head starts at `kBase`. */
  ghost function KeyTerms(q: seq<real>, qBase: nat, k: seq<real>, kBase: nat, s: Shape, t: nat): int -> real
    requires s.x > 0
  {
    d => if 0 <= d < s.headSize && qBase + d < |q| && kBase + s.KeyInHead(t, d) < |k|
         then Times(q[qBase + d], k[kBase + s.KeyInHead(t, d)]) else 0.0
  }

  ghost function KeyDot(q: seq<real>, qBase: nat, k: seq<real>, kBase: nat, s: Shape, t: nat): real
    requires s.x > 0
  {
    Sum(KeyTerms(q, qBase, k, kBase, s, t), s.headSize)
  }

  /** What lane `lane` of the accumulators holds after `chunks` loads. */
  ghost function Accumulated(q: seq<real>, qBase: nat, k: seq<real>, kBase: nat, s: Shape, lane: nat, chunks: nat): real
    requires s.x > 0
  {
    Lane(KeyTerms(q, qBase, k, kBase, s, lane / s.x), s.x, lane % s.x, chunks)
  }

  /** One multiply-and-add of a lane: the index walk of the kernel meets the layout of the keys. */
  lemma AccumulateNext(q: seq<real>, qBase: nat, k: seq<real>, kBase: nat, s: Shape, lane: nat, chunk: nat)
    requires s.Valid() && lane < s.blockSize * s.x && (chunk + 1) * s.x <= s.headSize
    requires qBase + s.headSize <= |q| && kBase + s.HeadElems() <= |k|
    ensures 0 <= qBase + chunk * s.x + lane % s.x < |q| && 0 <= kBase + (chunk * s.x) * s.blockSize + lane < |k|
    ensures Accumulated(q, qBase, k, kBase, s, lane, chunk + 1)
            == Accumulated(q, qBase, k, kBase, s, lane, chunk)
               + Times(q[qBase + chunk * s.x + lane % s.x], k[kBase + (chunk * s.x) * s.blockSize + lane])
  {
    hide Times;
    var t, j := lane / s.x, lane % s.x;
    DivModOf(lane, s.x);
    LessFactor(t, s.blockSize, s.x);
    assert chunk * s.x + s.x == (chunk + 1) * s.x;
    var d := chunk * s.x + j;
    DivMod(chunk, j, s.x);
    KeyInHeadBound(s, t, d);
    assert s.KeyInHead(t, d) == (chunk * s.x) * s.blockSize + t * s.x + j;
  }

  /** The lanes of a token together hold its dot product. */
  lemma LanesOfToken(q: seq<real>, qBase: nat, k: seq<real>, kBase: nat, s: Shape, t: nat, acc: seq<real>, f: int -> real)
    requires s.Valid() && (t + 1) * s.x <= |acc|
    requires forall j: nat | j < s.x :: t * s.x + j < |acc| && f(j) == acc[t * s.x + j]
    requires forall lane: nat | lane < |acc| :: acc[lane] == Accumulated(q, qBase, k, kBase, s, lane, s.headSize / s.x)
    ensures Sum(f, s.x) == KeyDot(q, qBase, k, kBase, s, t)
  {
    var terms, chunks := KeyTerms(q, qBase, k, kBase, s, t), s.headSize / s.x;
    DivModOf(s.headSize, s.x);
    LanesTotal(terms, s.x, chunks);
    forall j | 0 <= j < s.x ensures f(j) == Lanes(terms, s.x, chunks)(j) {
      DivMod(t, j, s.x);
      assert acc[t * s.x + j] == Accumulated(q, qBase, k, kBase, s, t * s.x + j, chunks);
    }
    SumAgree(f, Lanes(terms, s.x, chunks), s.x);
  }

  /** How the kernel divides the tokens of a block among vector registers (127-139). */
  datatype Registers = Registers(tokenPerGroup: nat, unrollGroupNum: nat) {
    ghost predicate Fits(s: Shape) {
      tokenPerGroup > 0 && unrollGroupNum > 0 && s.blockSize % (tokenPerGroup * unrollGroupNum) == 0
    }
  }

  /** The number of tokens whose lanes are loaded: whole groups, a whole number of unrolled turns. */
  function LoadedTokens(r: Registers, s: Shape, tokenNum: nat): (n: nat)
    requires r.tokenPerGroup > 0 && r.unrollGroupNum > 0
  {
    var turn := r.tokenPerGroup * r.unrollGroupNum;
    assert turn > 0;
    if tokenNum == s.blockSize then s.blockSize else (tokenNum + turn - 1) / turn * turn
  }

  lemma LoadedBound(r: Registers, s: Shape, tokenNum: nat)
    requires r.Fits(s) && tokenNum <= s.blockSize
    ensures LoadedTokens(r, s, tokenNum) <= s.blockSize
    ensures (tokenNum + r.tokenPerGroup - 1) / r.tokenPerGroup * r.tokenPerGroup <= LoadedTokens(r, s, tokenNum)
    ensures tokenNum <= (tokenNum + r.tokenPerGroup - 1) / r.tokenPerGroup * r.tokenPerGroup
  {
    var g, turn := r.tokenPerGroup, r.tokenPerGroup * r.unrollGroupNum;
    RoundUp(tokenNum, g, s.blockSize, r.unrollGroupNum);
    RoundUp(tokenNum, turn, s.blockSize, 1);
    RoundUpWithin(tokenNum, g, turn, r.unrollGroupNum);
  }

  lemma RoundUp(n: nat, m: nat, limit: nat, factor: nat)
    requires m > 0 && factor > 0 && n <= limit && limit % (m * factor) == 0
    ensures n <= (n + m - 1) / m * m <= limit
  {
    var c := limit / (m * factor) * factor;
    assert limit == c * m by {
      DivModOf(limit, m * factor);
      assert limit / (m * factor) * (m * factor) == c * m;
    }
    var q, rest := (n + m - 1) / m, (n + m - 1) % m;
    assert n + m - 1 == q * m + rest;
    if q > c {
      MulLess(c, q, m);
    }
    MulAtLeast(q, c, m);
  }

  lemma RoundUpWithin(n: nat, g: nat, turn: nat, factor: nat)
    requires g > 0 && factor > 0 && turn == g * factor
    ensures (n + g - 1) / g * g <= (n + turn - 1) / turn * turn
  {
    var whole := CeilAtLeast(n, turn);
    var q := (n + g - 1) / g;
    var c := whole * factor;
    assert whole * turn == c * g by {
      assert whole * (g * factor) == whole * factor * g;
    }
    assert q * g <= n + g - 1 < c * g + g == (c + 1) * g;
    LessFactor(q, c + 1, g);
    MulAtLeast(q, c, g);
  }

  lemma CeilAtLeast(n: nat, m: nat) returns (q: nat)
    requires m > 0
    ensures q == (n + m - 1) / m && n <= q * m
  {
    q := (n + m - 1) / m;
    DivModOf(n + m - 1, m);
  }

  ghost function Row(acc: seq<real>, start: nat): int -> real {
    j => if 0 <= start + j < |acc| then acc[start + j] else 0.0
  }

  /** The lanes hold what `chunks` loads have accumulated. */
  ghost predicate Holds(acc: seq<real>, lanes: nat, q: seq<real>, qBase: nat, k: seq<real>, kBase: nat, s: Shape, chunks: nat)
    requires s.x > 0
  {
    lanes <= |acc| && forall lane: nat | lane < lanes :: acc[lane] == Accumulated(q, qBase, k, kBase, s, lane, chunks)
  }

  /** Where chunk `chunk` of a query starts, and the part of a head of keys that meets it. */
  ghost function QueryChunk(s: Shape, chunk: nat): nat { chunk * s.x }

  ghost function KeyChunk(s: Shape, chunk: nat): nat { chunk * s.x * s.blockSize }

  lemma ChunksStart(s: Shape)
    ensures QueryChunk(s, 0) == 0 == KeyChunk(s, 0)
  {
  }

  lemma ChunksNext(s: Shape, chunk: nat)
    requires s.Valid() && QueryChunk(s, chunk) < s.headSize
    ensures QueryChunk(s, chunk + 1) == QueryChunk(s, chunk) + s.x <= s.headSize
    ensures KeyChunk(s, chunk + 1) == KeyChunk(s, chunk) + s.x * s.blockSize <= s.HeadElems()
  {
    var chunks := s.headSize / s.x;
    DivModOf(s.headSize, s.x);
    LessFactor(chunk, chunks, s.x);
    MulLess(chunk, chunks, s.x);
    assert (chunk + 1) * s.x == chunk * s.x + s.x;
    assert (chunk * s.x + s.x) * s.blockSize == chunk * s.x * s.blockSize + s.x * s.blockSize;
    MulAtLeast((chunk + 1) * s.x, s.headSize, s.blockSize);
  }

  lemma ChunksEnd(s: Shape, chunk: nat)
    requires s.Valid() && QueryChunk(s, chunk) == s.headSize
    ensures chunk == s.headSize / s.x
  {
    DivMod(chunk, 0, s.x);
  }

  /** The loop over the elements of the head, `x` at a time (142-180). */
  method Accumulate(q: array<real>, qBase: nat, kCache: array<real>, kBase: nat, acc: array<real>, lanes: nat, s: Shape)
    requires s.Valid() && lanes <= s.blockSize * s.x && lanes <= acc.Length
    requires qBase + s.headSize <= q.Length && kBase + s.HeadElems() <= kCache.Length
    requires acc != q && acc != kCache && forall i | 0 <= i < lanes :: acc[i] == 0.0
    modifies acc
    ensures Holds(acc[..], lanes, q[..], qBase, kCache[..], kBase, s, s.headSize / s.x)
  {
    hide Times, Accumulated, Shape.HeadElems, Holds, QueryChunk, KeyChunk;
    ghost var qs, ks := q[..], kCache[..];
    NothingYet(acc[..], lanes, qs, qBase, ks, kBase, s);
    ChunksStart(s);
    var qOffset, kBlock: nat := 0, kBase;
    ghost var chunk: nat := 0;
    while qOffset < s.headSize
      invariant qOffset == QueryChunk(s, chunk) <= s.headSize && kBlock == kBase + KeyChunk(s, chunk)
      invariant q[..] == qs && kCache[..] == ks
      invariant Holds(acc[..], lanes, qs, qBase, ks, kBase, s, chunk)
      decreases s.headSize - qOffset
    {
      ChunksNext(s, chunk);
      ghost var before := acc[..];
      AccumulateChunk(q, qBase + qOffset, kCache, kBlock, acc, lanes, s.x);
      ChunkHolds(before, acc[..], lanes, qs, qBase, ks, kBase, s, chunk);
      qOffset, kBlock, chunk := qOffset + s.x, kBlock + s.x * s.blockSize, chunk + 1;
    }
    ChunksEnd(s, chunk);
  }

  /** One load of a chunk of the query and of the keys of all tokens (148-157, 164-178). */
  method AccumulateChunk(q: array<real>, qAt: nat, kCache: array<real>, kAt: nat, acc: array<real>, lanes: nat, x: nat)
    requires x > 0 && qAt + x <= q.Length && kAt + lanes <= kCache.Length && lanes <= acc.Length && acc != q && acc != kCache
    modifies acc
    ensures forall l: nat | l < lanes :: acc[l] == old(acc[l]) + Times(q[qAt + l % x], kCache[kAt + l])
  {
    hide Times;
    for lane := 0 to lanes
      invariant forall l: nat | l < lane :: acc[l] == old(acc[l]) + Times(q[qAt + l % x], kCache[kAt + l])
      invariant forall l: nat | lane <= l < lanes :: acc[l] == old(acc[l])
    {
      acc[lane] := acc[lane] + Times(q[qAt + lane % x], kCache[kAt + lane]);
    }
  }

  lemma ChunkHolds(before: seq<real>, after: seq<real>, lanes: nat, q: seq<real>, qBase: nat, k: seq<real>, kBase: nat, s: Shape,
                   chunk: nat)
    requires s.Valid() && lanes <= s.blockSize * s.x && QueryChunk(s, chunk + 1) <= s.headSize && lanes <= |after|
    requires qBase + s.headSize <= |q| && kBase + s.HeadElems() <= |k| && Holds(before, lanes, q, qBase, k, kBase, s, chunk)
    requires forall l: nat | l < lanes ::
      && qBase + QueryChunk(s, chunk) + l % s.x < |q| && kBase + KeyChunk(s, chunk) + l < |k|
      && after[l] == before[l] + Times(q[qBase + QueryChunk(s, chunk) + l % s.x], k[kBase + KeyChunk(s, chunk) + l])
    ensures Holds(after, lanes, q, qBase, k, kBase, s, chunk + 1)
  {
    hide Times, Accumulated;
    forall l: nat | l < lanes ensures after[l] == Accumulated(q, qBase, k, kBase, s, l, chunk + 1) {
      AccumulateNext(q, qBase, k, kBase, s, l, chunk);
    }
  }

  lemma NothingYet(acc: seq<real>, lanes: nat, q: seq<real>, qBase: nat, k: seq<real>, kBase: nat, s: Shape)
    requires s.x > 0 && lanes <= |acc| && forall i | 0 <= i < lanes :: acc[i] == 0.0
    ensures Holds(acc, lanes, q, qBase, k, kBase, s, 0)
  {
  }

  /** `reduceQKBlockKernel::call` (135-194): the logits of the tokens of one block.  Whole groups are written, so a few
      entries after the last token may be overwritten, within the block. */
  method QkBlock(q: array<real>, qBase: nat, kCache: array<real>, kBase: nat, logits: array<real>, at: nat,
                 scale: real, tokenNum: nat, s: Shape, r: Registers)
    requires s.Valid() && r.Fits(s) && 0 < tokenNum <= s.blockSize
    requires qBase + s.headSize <= q.Length && kBase + s.HeadElems() <= kCache.Length && at + s.blockSize <= logits.Length
    requires logits != q && logits != kCache
    modifies logits
    ensures forall i | at <= i < at + tokenNum :: logits[i] == Times(KeyDot(q[..], qBase, kCache[..], kBase, s, i - at), scale)
    ensures forall i | 0 <= i < at || at + s.blockSize <= i < logits.Length :: logits[i] == old(logits[i])
  {
    hide Times, KeyDot, Accumulated, LoadedTokens, Shape.HeadElems;
    ghost var qs, ks, ls := q[..], kCache[..], logits[..];
    LoadedBound(r, s, tokenNum);
    var groupNum := (tokenNum + r.tokenPerGroup - 1) / r.tokenPerGroup;
    var loaded := LoadedTokens(r, s, tokenNum);
    MulAtLeast(loaded, s.blockSize, s.x);
    var acc := new real[s.blockSize * s.x](i => 0.0);
    Accumulate(q, qBase, kCache, kBase, acc, loaded * s.x, s);
    for t := 0 to groupNum * r.tokenPerGroup
      invariant q[..] == qs && kCache[..] == ks
      invariant Holds(acc[..], loaded * s.x, qs, qBase, ks, kBase, s, s.headSize / s.x)
      invariant forall i | at <= i < at + t :: logits[i] == Times(KeyDot(qs, qBase, ks, kBase, s, i - at), scale)
      invariant forall i | 0 <= i < at || at + s.blockSize <= i < logits.Length :: logits[i] == ls[i]
    {
      var dot := ReduceLanes(acc, t, s, q, qBase, kCache, kBase, loaded);
      logits[at + t] := Times(dot, scale);
    }
  }

  /** `reduce_sub_sum` (186-189): the lanes of one token. */
  method ReduceLanes(acc: array<real>, t: nat, s: Shape, ghost q: array<real>, ghost qBase: nat, ghost kCache: array<real>,
                     ghost kBase: nat,
                     ghost loaded: nat) returns (dot: real)
    requires s.Valid() && t < loaded && Holds(acc[..], loaded * s.x, q[..], qBase, kCache[..], kBase, s, s.headSize / s.x)
    ensures dot == KeyDot(q[..], qBase, kCache[..], kBase, s, t)
  {
    hide KeyDot, Accumulated;
    MulLess(t, loaded, s.x);
    ghost var a := acc[..loaded * s.x];
    ghost var f := Row(a, t * s.x);
    dot := 0.0;
    for j := 0 to s.x
      invariant dot == Sum(f, j)
    {
      dot := dot + acc[t * s.x + j];
    }
    assert (t + 1) * s.x == t * s.x + s.x;
    LanesOfToken(q[..], qBase, kCache[..], kBase, s, t, a, f);
  }

  // ---- a sequence's cache through its block table -----------------------------------------------------------------

  /** The blocks of a sequence and the key-value head that a query head reads. */
  datatype View = View(s: Shape, table: seq<nat>, head: nat) {
    ghost predicate Fits(numBlocks: nat, cacheLength: nat) {
      s.Valid() && head < s.numHeads && cacheLength == numBlocks * s.BlockElems() && forall b | b in table :: b < numBlocks
    }

    function HeadBase(i: nat): nat
      requires i < |table|
    {
      s.BlockElems() * table[i] + head * s.HeadElems()
    }
  }

  lemma HeadFits(w: View, i: nat, numBlocks: nat, cacheLength: nat)
    requires w.Fits(numBlocks, cacheLength) && i < |w.table|
    ensures w.HeadBase(i) + w.s.HeadElems() <= cacheLength
  {
    var b := w.table[i];
    assert b in w.table && b < numBlocks;
    assert w.s.HeadElems() > 0 by { MulLess(0, w.s.blockSize, w.s.headSize); }
    InBlock(w.s, b, w.head, w.s.HeadElems() - 1, numBlocks);
  }

  /** The logit of the token at position `pos`: scale times the product of query and key. */
  ghost function Logit(w: View, q: seq<real>, qBase: nat, k: seq<real>, scale: real, pos: nat): real
    requires w.s.x > 0 && w.s.blockSize > 0
  {
    if pos / w.s.blockSize < |w.table|
    then Times(KeyDot(q, qBase, k, w.HeadBase(pos / w.s.blockSize), w.s, pos % w.s.blockSize), scale) else 0.0
  }

  /** The same, counted from the start of block `first`. */
  ghost function LogitFrom(w: View, q: seq<real>, qBase: nat, k: seq<real>, scale: real, first: nat, t: nat): real
    requires w.s.x > 0 && w.s.blockSize > 0
  {
    Logit(w, q, qBase, k, scale, first * w.s.blockSize + t)
  }

  lemma LogitInBlock(w: View, q: seq<real>, qBase: nat, k: seq<real>, scale: real, first: nat, b: nat, u: nat)
    requires w.s.x > 0 && w.s.blockSize > 0 && first + b < |w.table| && u < w.s.blockSize
    ensures LogitFrom(w, q, qBase, k, scale, first, b * w.s.blockSize + u)
            == Times(KeyDot(q, qBase, k, w.HeadBase(first + b), w.s, u), scale)
  {
    PositionOf(first, b, u, w.s.blockSize);
  }

  ghost function ValueOf(w: View, v: seq<real>, d: nat, pos: nat): real
    requires w.s.x > 0 && w.s.blockSize > 0
  {
    if pos / w.s.blockSize < |w.table| && w.HeadBase(pos / w.s.blockSize) + w.s.ValueInHead(pos % w.s.blockSize, d) < |v|
    then v[w.HeadBase(pos / w.s.blockSize) + w.s.ValueInHead(pos % w.s.blockSize, d)] else 0.0
  }

  lemma BlocksCover(tokens: nat, blockSize: nat)
    requires blockSize > 0 && tokens > 0
    ensures var n := Sequences.NumBlocks(tokens, blockSize);
      n > 0 && (n - 1) * blockSize < tokens <= n * blockSize
  {
    var n := Sequences.NumBlocks(tokens, blockSize);
    DivModOf(tokens + blockSize - 1, blockSize);
    assert n * blockSize == (n - 1) * blockSize + blockSize;
    LessFactor(0, n, blockSize);
  }

  /** The position of token `u` of block `b`, counted from block `first`. */
  lemma PositionOf(first: nat, b: nat, u: nat, blockSize: nat)
    requires u < blockSize
    ensures (first * blockSize + (b * blockSize + u)) / blockSize == first + b
    ensures (first * blockSize + (b * blockSize + u)) % blockSize == u
  {
    DivMod(first + b, u, blockSize);
    assert (first + b) * blockSize + u == first * blockSize + (b * blockSize + u);
  }

  /** "Compute logits" (265-277, 493-505): the tokens from block `first` on. */
  method ComputeLogits(w: View, q: array<real>, qBase: nat, kCache: array<real>, scale: real, first: nat, tokenNum: nat,
                       logits: array<real>, r: Registers, ghost numBlocks: nat)
    requires w.Fits(numBlocks, kCache.Length) && r.Fits(w.s) && tokenNum > 0
    requires first + Sequences.NumBlocks(tokenNum, w.s.blockSize) <= |w.table|
    requires qBase + w.s.headSize <= q.Length && Sequences.NumBlocks(tokenNum, w.s.blockSize) * w.s.blockSize <= logits.Length
    requires logits != q && logits != kCache
    modifies logits
    ensures forall t: nat | t < tokenNum :: logits[t] == LogitFrom(w, q[..], qBase, kCache[..], scale, first, t)
  {
    hide Times, KeyDot, LogitsDone, LogitFrom, Shape.HeadElems, Shape.BlockElems, Registers.Fits, View.HeadBase, Sequences.NumBlocks;
    var size := w.s.blockSize;
    ghost var qs, ks := q[..], kCache[..];
    var blockNum := Sequences.NumBlocks(tokenNum, size);
    BlocksCover(tokenNum, size);
    NoLogits(w, qs, qBase, ks, scale, first, logits[..]);
    ghost var done: nat := 0;
    for b := 0 to blockNum
      invariant q[..] == qs && kCache[..] == ks
      invariant done == (if b == blockNum then tokenNum else b * size)
      invariant LogitsDone(w, qs, qBase, ks, scale, first, logits[..], done)
    {
      HeadFits(w, first + b, numBlocks, kCache.Length);
      var start, tokens := BlockRange(b, blockNum, tokenNum, size);
      ghost var before := logits[..];
      QkBlock(q, qBase, kCache, w.HeadBase(first + b), logits, start, scale, tokens, w.s, r);
      BlockDone(w, qs, qBase, ks, scale, first, b, start, tokens, before, logits[..]);
      done := start + tokens;
    }
    AllLogits(w, qs, qBase, ks, scale, first, logits[..], tokenNum);
  }

  /** The tokens of block `b` (256-261, 480-483): the last block may hold fewer. */
  method BlockRange(b: nat, blockNum: nat, tokenNum: nat, size: nat) returns (start: nat, tokens: nat)
    requires size > 0 && b < blockNum && (blockNum - 1) * size < tokenNum <= blockNum * size
    ensures start == b * size && 0 < tokens <= size && start + size <= blockNum * size
    ensures start + tokens == if b + 1 == blockNum then tokenNum else (b + 1) * size
  {
    start := b * size;
    MulAtLeast(b + 1, blockNum, size);
    assert (b + 1) * size == b * size + size;
    tokens := if b == blockNum - 1 then tokenNum - (blockNum - 1) * size else size;
  }

  lemma NoLogits(w: View, q: seq<real>, qBase: nat, k: seq<real>, scale: real, first: nat, logits: seq<real>)
    requires w.s.x > 0 && w.s.blockSize > 0
    ensures LogitsDone(w, q, qBase, k, scale, first, logits, 0)
  {
  }

  lemma AllLogits(w: View, q: seq<real>, qBase: nat, k: seq<real>, scale: real, first: nat, logits: seq<real>, n: nat)
    requires w.s.x > 0 && w.s.blockSize > 0 && LogitsDone(w, q, qBase, k, scale, first, logits, n)
    ensures n <= |logits| && forall t: nat | t < n :: logits[t] == LogitFrom(w, q, qBase, k, scale, first, t)
  {
  }

  /** The logits of the first `n` tokens have been computed. */
  ghost predicate LogitsDone(w: View, q: seq<real>, qBase: nat, k: seq<real>, scale: real, first: nat, logits: seq<real>, n: nat)
    requires w.s.x > 0 && w.s.blockSize > 0
  {
    n <= |logits| && forall t: nat | t < n :: logits[t] == LogitFrom(w, q, qBase, k, scale, first, t)
  }

  lemma BlockDone(w: View, q: seq<real>, qBase: nat, k: seq<real>, scale: real, first: nat, b: nat, start: nat, tokens: nat,
                  before: seq<real>, after: seq<real>)
    requires w.s.x > 0 && w.s.blockSize > 0 && tokens <= w.s.blockSize && first + b < |w.table|
    requires start == b * w.s.blockSize && LogitsDone(w, q, qBase, k, scale, first, before, start)
    requires |after| == |before| && start + tokens <= |after|
    requires forall i | 0 <= i < start :: after[i] == before[i]
    requires forall i | start <= i < start + tokens :: after[i] == Times(KeyDot(q, qBase, k, w.HeadBase(first + b), w.s, i - start), scale)
    ensures LogitsDone(w, q, qBase, k, scale, first, after, start + tokens)
  {
    hide Times, KeyDot, View.HeadBase, LogitFrom;
    forall t: nat | t < start + tokens ensures after[t] == LogitFrom(w, q, qBase, k, scale, first, t) {
      if t >= start {
        LogitInBlock(w, q, qBase, k, scale, first, b, t - start);
      }
    }
  }

  // ---- weighting the values ---------------------------------------------------------------------------------------

  ghost function ValueFrom(w: View, v: seq<real>, d: nat, first: nat, t: nat): real
    requires w.s.x > 0 && w.s.blockSize > 0
  {
    ValueOf(w, v, d, first * w.s.blockSize + t)
  }

  ghost function ValueTerms(prob: seq<real>, w: View, v: seq<real>, d: nat, first: nat): int -> real
    requires w.s.x > 0 && w.s.blockSize > 0
  {
    t => if 0 <= t < |prob| then Times(prob[t], ValueFrom(w, v, d, first, t)) else 0.0
  }

  /** The products of one block lie side by side, as the kernel reads them. */
  lemma ValueInBlock(w: View, v: seq<real>, d: nat, first: nat, b: nat, lane: nat, numBlocks: nat)
    requires w.Fits(numBlocks, |v|) && first + b < |w.table| && lane < w.s.blockSize && d < w.s.headSize
    ensures w.HeadBase(first + b) + d * w.s.blockSize + lane < |v|
    ensures ValueFrom(w, v, d, first, b * w.s.blockSize + lane) == v[w.HeadBase(first + b) + d * w.s.blockSize + lane]
  {
    PositionOf(first, b, lane, w.s.blockSize);
    HeadFits(w, first + b, numBlocks, |v|);
    ValueInHeadBound(w.s, lane, d);
  }

  /** Element `d` of the output (293-309, 328-332): lane by lane over the blocks, then across the lanes. */
  method ReduceValue(w: View, vCache: array<real>, prob: array<real>, first: nat, blockNum: nat, d: nat,
                     ghost numBlocks: nat) returns (value: real)
    requires w.Fits(numBlocks, vCache.Length) && d < w.s.headSize && first + blockNum <= |w.table|
    requires blockNum * w.s.blockSize <= prob.Length
    ensures value == Sum(ValueTerms(prob[..], w, vCache[..], d, first), blockNum * w.s.blockSize)
  {
    hide Times, ValueTerms, View.HeadBase, Shape.BlockElems, LanesHold, Sum;
    var size := w.s.blockSize;
    ghost var terms, vs, ps := ValueTerms(prob[..], w, vCache[..], d, first), vCache[..], prob[..];
    var acc := new real[size](i => 0.0);
    NoLanes(terms, size, acc[..]);
    for b := 0 to blockNum
      invariant vCache[..] == vs && prob[..] == ps && LanesHold(terms, size, b, acc[..])
    {
      ProbFits(b, blockNum, size, prob.Length);
      ValuesFit(w, first + b, d, numBlocks, vCache.Length);
      ghost var before := acc[..];
      AccumulateBlock(prob, b * size, vCache, w.HeadBase(first + b) + d * size, acc, size);
      LanesNextBlock(ps, w, vs, d, first, b, before, acc[..], b * size, w.HeadBase(first + b) + d * size, numBlocks);
    }
    value := AddLanes(acc, terms, size, blockNum);
  }

  /** `acc[i] = acc[i] + prob * v` for one block and one element of the head (199-211). */
  method AccumulateBlock(prob: array<real>, at: nat, vCache: array<real>, vAt: nat, acc: array<real>, lanes: nat)
    requires at + lanes <= prob.Length && vAt + lanes <= vCache.Length && acc.Length == lanes && acc != prob && acc != vCache
    modifies acc
    ensures forall l: nat | l < lanes :: acc[l] == old(acc[l]) + Times(prob[at + l], vCache[vAt + l])
  {
    hide Times;
    for lane := 0 to lanes
      invariant forall l: nat | l < lane :: acc[l] == old(acc[l]) + Times(prob[at + l], vCache[vAt + l])
      invariant forall l: nat | lane <= l < lanes :: acc[l] == old(acc[l])
    {
      acc[lane] := acc[lane] + Times(prob[at + lane], vCache[vAt + lane]);
    }
  }

  ghost predicate LanesHold(terms: int -> real, size: nat, blocks: nat, acc: seq<real>) {
    |acc| == size && forall lane: nat | lane < size :: acc[lane] == Lane(terms, size, lane, blocks)
  }

  lemma NoLanes(terms: int -> real, size: nat, acc: seq<real>)
    requires |acc| == size && forall i | 0 <= i < size :: acc[i] == 0.0
    ensures LanesHold(terms, size, 0, acc)
  {
  }

  lemma LanesNextBlock(prob: seq<real>, w: View, v: seq<real>, d: nat, first: nat, b: nat, before: seq<real>, after: seq<real>,
                       at: nat, vAt: nat, numBlocks: nat)
    requires w.s.blockSize > 0 && w.s.x > 0 && |before| == w.s.blockSize == |after|
    requires at + w.s.blockSize <= |prob| && vAt + w.s.blockSize <= |v|
    requires forall l: nat | l < w.s.blockSize :: after[l] == before[l] + Times(prob[at + l], v[vAt + l])
    requires LanesHold(ValueTerms(prob, w, v, d, first), w.s.blockSize, b, before)
    requires w.Fits(numBlocks, |v|) && first + b < |w.table| && d < w.s.headSize
    requires at == b * w.s.blockSize && vAt == w.HeadBase(first + b) + d * w.s.blockSize
    ensures LanesHold(ValueTerms(prob, w, v, d, first), w.s.blockSize, b + 1, after)
  {
    hide Times, ValueFrom, View.HeadBase;
    var terms, size := ValueTerms(prob, w, v, d, first), w.s.blockSize;
    forall lane: nat | lane < size ensures after[lane] == Lane(terms, size, lane, b + 1) {
      ValueInBlock(w, v, d, first, b, lane, numBlocks);
    }
  }

  lemma ValuesFit(w: View, i: nat, d: nat, numBlocks: nat, length: nat)
    requires w.Fits(numBlocks, length) && i < |w.table| && d < w.s.headSize
    ensures w.HeadBase(i) + d * w.s.blockSize + w.s.blockSize <= length
  {
    HeadFits(w, i, numBlocks, length);
    MulLess(d, w.s.headSize, w.s.blockSize);
    assert w.s.headSize * w.s.blockSize == w.s.HeadElems();
  }

  /** `reduce_sum` (315). */
  method AddLanes(acc: array<real>, ghost terms: int -> real, size: nat, ghost blocks: nat) returns (value: real)
    requires LanesHold(terms, size, blocks, acc[..])
    ensures value == Sum(terms, blocks * size)
  {
    value := 0.0;
    for lane := 0 to size
      invariant value == Sum(Lanes(terms, size, blocks), lane)
    {
      value := value + acc[lane];
    }
    LanesTotal(terms, size, blocks);
  }

  lemma ProbFits(b: nat, blockNum: nat, size: nat, length: nat)
    requires b < blockNum && blockNum * size <= length
    ensures b * size + size <= length
  {
    MulLess(b, blockNum, size);
  }

  /** "Compute value" (289-333, 534-577). */
  method ComputeValues(w: View, vCache: array<real>, prob: array<real>, first: nat, blockNum: nat, out: array<real>, outBase: nat,
                       ghost numBlocks: nat)
    requires w.Fits(numBlocks, vCache.Length) && first + blockNum <= |w.table| && blockNum * w.s.blockSize <= prob.Length
    requires outBase + w.s.headSize <= out.Length && out != vCache && out != prob
    modifies out
    ensures forall d: nat | d < w.s.headSize ::
      out[outBase + d] == Sum(ValueTerms(prob[..], w, vCache[..], d, first), blockNum * w.s.blockSize)
    ensures forall i | 0 <= i < outBase || outBase + w.s.headSize <= i < out.Length :: out[i] == old(out[i])
  {
    hide Sum, ValueTerms, Shape.BlockElems;
    ghost var vs, ps := vCache[..], prob[..];
    for d := 0 to w.s.headSize
      invariant vCache[..] == vs && prob[..] == ps
      invariant forall e: nat | e < d :: out[outBase + e] == Sum(ValueTerms(ps, w, vs, e, first), blockNum * w.s.blockSize)
      invariant forall i | 0 <= i < outBase || outBase + w.s.headSize <= i < out.Length :: out[i] == old(out[i])
    {
      out[outBase + d] := ReduceValue(w, vCache, prob, first, blockNum, d, numBlocks);
    }
  }

  // ---- one stretch of the context ---------------------------------------------------------------------------------

  /** The logits of `n` tokens from block `first` on, with their ALiBi bias if there is one. */
  ghost function RowFrom(w: View, q: seq<real>, qBase: nat, k: seq<real>, scale: real, alibi: Option<real>,
                         first: nat, start: int, contextLen: int, n: nat): (r: seq<real>)
    requires w.s.x > 0 && w.s.blockSize > 0
    ensures |r| == n
    ensures forall t: nat | t < n ::
      r[t] == LogitFrom(w, q, qBase, k, scale, first, t) + if alibi.Some? then Bias(alibi.value, start + t, contextLen) else 0.0
  {
    if n == 0 then []
    else RowFrom(w, q, qBase, k, scale, alibi, first, start, contextLen, n - 1)
         + [LogitFrom(w, q, qBase, k, scale, first, n - 1) + if alibi.Some? then Bias(alibi.value, start + n - 1, contextLen) else 0.0]
  }

  ghost function ValuesFrom(w: View, v: seq<real>, d: nat, first: nat, n: nat): (r: seq<real>)
    requires w.s.x > 0 && w.s.blockSize > 0
    ensures |r| == n && forall t: nat | t < n :: r[t] == ValueFrom(w, v, d, first, t)
  {
    if n == 0 then [] else ValuesFrom(w, v, d, first, n - 1) + [ValueFrom(w, v, d, first, n - 1)]
  }

  /** The probabilities of a row, padded with zeros, weight the values to its attention. */
  lemma ValuesAttend(exp: real -> real, row: seq<real>, prob: seq<real>, capacity: nat, max: real, sum: real,
                     w: View, v: seq<real>, d: nat, first: nat)
    requires w.s.x > 0 && w.s.blockSize > 0 && IsExp(exp) && row != [] && |row| <= capacity <= |prob|
    requires sum == ExpSum(exp, row, max) && sum > 0.0
    requires forall i | 0 <= i < |row| :: prob[i] == Over(exp(row[i] - max), sum)
    requires forall i | |row| <= i < capacity :: prob[i] == 0.0
    ensures Sum(ValueTerms(prob, w, v, d, first), capacity) == Attend(exp, row, ValuesFrom(w, v, d, first, |row|))
  {
    hide IsExp, Times, Over, ExpSum, Weighted, Attend, ValueFrom;
    var f, values := ValueTerms(prob, w, v, d, first), ValuesFrom(w, v, d, first, |row|);
    forall i | |row| <= i < capacity ensures f(i) == 0.0 {
      TimesLaws(ValueFrom(w, v, d, first, i), 0.0, 0.0);
    }
    SumZeros(f, |row|, capacity);
    SoftmaxAttends(exp, row, values, max, f);
  }

  /** Logits, softmax and values of one stretch of the context: all of it (253-333), or one partition (468-577). */
  method AttendStretch(exp: real -> real, w: View, q: array<real>, qBase: nat, kCache: array<real>, vCache: array<real>, scale: real,
                       alibi: Option<real>, first: nat, start: int, contextLen: int, tokenNum: nat,
                       logits: array<real>, out: array<real>, outBase: nat, r: Registers, ghost numBlocks: nat)
    returns (max: real, sum: real)
    requires IsExp(exp) && w.Fits(numBlocks, kCache.Length) && vCache.Length == kCache.Length && r.Fits(w.s) && tokenNum > 0
    requires first + Sequences.NumBlocks(tokenNum, w.s.blockSize) <= |w.table|
    requires qBase + w.s.headSize <= q.Length && Sequences.NumBlocks(tokenNum, w.s.blockSize) * w.s.blockSize <= logits.Length
    requires logits != q && logits != kCache && logits != vCache && logits != out
    requires outBase + w.s.headSize <= out.Length && out != q && out != kCache && out != vCache
    modifies logits, out
    ensures var row := RowFrom(w, q[..], qBase, kCache[..], scale, alibi, first, start, contextLen, tokenNum);
      && IsMax(max, row) && sum == ExpSum(exp, row, max) && sum >= 1.0
      && forall d: nat | d < w.s.headSize :: out[outBase + d] == Attend(exp, row, ValuesFrom(w, vCache[..], d, first, tokenNum))
    ensures forall i | 0 <= i < outBase || outBase + w.s.headSize <= i < out.Length :: out[i] == old(out[i])
  {
    hide IsExp, Times, Over, ExpSum, Weighted, Attend, LogitFrom, ValueFrom, ValueTerms, Sum, Bias, Shape.BlockElems;
    hide Sequences.NumBlocks, IsMax, Registers.Fits;
    ghost var qs, ks, vs := q[..], kCache[..], vCache[..];
    BlocksCover(tokenNum, w.s.blockSize);
    var blockNum := Sequences.NumBlocks(tokenNum, w.s.blockSize);
    ComputeLogits(w, q, qBase, kCache, scale, first, tokenNum, logits, r, numBlocks);
    ghost var row := RowFrom(w, qs, qBase, ks, scale, alibi, first, start, contextLen, tokenNum);
    max, sum := ReduceEither(exp, logits, tokenNum, blockNum * w.s.blockSize, alibi, start, contextLen, row);
    ghost var prob := logits[..];
    ComputeValues(w, vCache, logits, first, blockNum, out, outBase, numBlocks);
    assert logits[..] == prob && vCache[..] == vs;
    forall d: nat | d < w.s.headSize ensures out[outBase + d] == Attend(exp, row, ValuesFrom(w, vs, d, first, tokenNum)) {
      ValuesAttend(exp, row, prob, blockNum * w.s.blockSize, max, sum, w, vs, d, first);
    }
  }

  /** The choice of softmax (279-287, 507-515). */
  method ReduceEither(exp: real -> real, logits: array<real>, size: nat, capacity: nat, alibi: Option<real>, start: int, contextLen: int,
                      ghost row: seq<real>) returns (max: real, sum: real)
    requires IsExp(exp) && 0 < size <= capacity <= logits.Length && |row| == size
    requires forall t: nat | t < size :: row[t] == logits[t] + if alibi.Some? then Bias(alibi.value, start + t, contextLen) else 0.0
    modifies logits
    ensures IsMax(max, row) && sum == ExpSum(exp, row, max) && sum >= 1.0
    ensures forall i | 0 <= i < size :: logits[i] == Over(exp(row[i] - max), sum)
    ensures forall i | size <= i < capacity :: logits[i] == 0.0
  {
    hide IsExp, Over, ExpSum, Bias, IsMax;
    if alibi.Some? {
      assert Biased(logits[..size], alibi.value, start, contextLen) == row;
      max, sum := ReduceSoftmaxAlibi(exp, logits, size, capacity, alibi.value, start, contextLen);
    } else {
      assert logits[..size] == row;
      max, sum := ReduceSoftmax(exp, logits, size, capacity);
    }
  }
}
