/** The two attention kernels for one query head of one sequence, and how far they can differ
    (csrc/cpu/attention.cpp:214-338 and 433-646). */
module PagedAttention {
  import opened Wrappers
  import opened Arithmetic
  import opened KvLayout
  import opened KvCache
  import opened Softmax
  import opened Sums
  import opened Partitions
  import opened Attention
  import Sequences

  /** All logits of the sequence, and element `d` of all its values. */
  ghost function FullRow(w: View, q: seq<real>, qBase: nat, k: seq<real>, scale: real, alibi: Option<real>, contextLen: nat): (r: seq<real>)
    requires w.s.x > 0 && w.s.blockSize > 0
    ensures |r| == contextLen
  {
    RowFrom(w, q, qBase, k, scale, alibi, 0, 0, contextLen, contextLen)
  }

  ghost function FullValues(w: View, v: seq<real>, d: nat, contextLen: nat): (r: seq<real>)
    requires w.s.x > 0 && w.s.blockSize > 0
    ensures |r| == contextLen
  {
    ValuesFrom(w, v, d, 0, contextLen)
  }

  /** `paged_attention_v1_impl::call` (253-333): exact softmax attention. */
  method PagedAttentionV1(exp: real -> real, w: View, q: array<real>, qBase: nat, kCache: array<real>, vCache: array<real>, scale: real,
                          alibi: Option<real>, contextLen: nat, out: array<real>, outBase: nat, r: Registers, ghost numBlocks: nat)
    requires IsExp(exp) && w.Fits(numBlocks, kCache.Length) && vCache.Length == kCache.Length && r.Fits(w.s)
    requires contextLen > 0 && Sequences.NumBlocks(contextLen, w.s.blockSize) <= |w.table| && qBase + w.s.headSize <= q.Length
    requires outBase + w.s.headSize <= out.Length && out != q && out != kCache && out != vCache
    modifies out
    ensures var row := FullRow(w, q[..], qBase, kCache[..], scale, alibi, contextLen);
      forall d: nat | d < w.s.headSize :: out[outBase + d] == Attend(exp, row, FullValues(w, vCache[..], d, contextLen))
    ensures forall i | 0 <= i < outBase || outBase + w.s.headSize <= i < out.Length :: out[i] == old(out[i])
  {
    hide IsExp, Sequences.NumBlocks, Attend, RowFrom, ValuesFrom, Shape.BlockElems, Registers.Fits;
    MulAtLeast(Sequences.NumBlocks(contextLen, w.s.blockSize), |w.table|, w.s.blockSize);
    var logits := new real[|w.table| * w.s.blockSize];
    var _, _ := AttendStretch(exp, w, q, qBase, kCache, vCache, scale, alibi, 0, 0, contextLen, contextLen, logits, out, outBase, r,
                              numBlocks);
  }

  // ---- partitions ---------------------------------------------------------------------------------------------------

  /** A partition sees the part of the row that it covers: its start index gives its tokens their absolute positions. */
  lemma PartOfRow(w: View, q: seq<real>, qBase: nat, k: seq<real>, scale: real, alibi: Option<real>, contextLen: nat,
                  size: nat, p: nat, first: nat, n: nat)
    requires w.s.x > 0 && w.s.blockSize > 0 && first * w.s.blockSize == p * size
    requires p * size < contextLen && n == Cut(p + 1, size, contextLen) - p * size && n > 0
    ensures RowFrom(w, q, qBase, k, scale, alibi, first, p * size, contextLen, n)
            == Part(FullRow(w, q, qBase, k, scale, alibi, contextLen), p, size)
  {
    hide Logit, Bias;
    var row, part := FullRow(w, q, qBase, k, scale, alibi, contextLen), RowFrom(w, q, qBase, k, scale, alibi, first, p * size, contextLen,
                                                                                n);
    CutsGrow(p, size, contextLen);
    var start := p * size;
    forall t: nat | t < n ensures part[t] == row[start + t] {
      assert LogitFrom(w, q, qBase, k, scale, first, t) == LogitFrom(w, q, qBase, k, scale, 0, start + t);
    }
  }

  lemma PartOfValues(w: View, v: seq<real>, d: nat, contextLen: nat, size: nat, p: nat, first: nat, n: nat)
    requires w.s.x > 0 && w.s.blockSize > 0 && first * w.s.blockSize == p * size
    requires p * size < contextLen && n == Cut(p + 1, size, contextLen) - p * size && n > 0
    ensures ValuesFrom(w, v, d, first, n) == Part(FullValues(w, v, d, contextLen), p, size)
  {
    hide ValueOf;
    var values, part := FullValues(w, v, d, contextLen), ValuesFrom(w, v, d, first, n);
    CutsGrow(p, size, contextLen);
    var start := p * size;
    forall t: nat | t < n ensures part[t] == values[start + t] {
      assert ValueFrom(w, v, d, first, t) == ValueFrom(w, v, d, 0, start + t);
    }
  }

  /** The blocks of a partition are blocks of the sequence. */
  lemma BlocksOfPart(contextLen: nat, size: nat, p: nat, blockSize: nat, blocks: nat)
    requires blockSize > 0 && size > 0 && size % blockSize == 0 && p * size < contextLen && Sequences.NumBlocks(contextLen,
                                                                                                                blockSize) <= blocks
    ensures var first, n := p * size / blockSize, Cut(p + 1, size, contextLen) - p * size;
      && 0 < n <= size && first * blockSize == p * size && first + Sequences.NumBlocks(n, blockSize) <= blocks
      && Sequences.NumBlocks(n, blockSize) * blockSize <= size
  {
    hide Sequences.NumBlocks;
    var per := size / blockSize;
    DivModOf(size, blockSize);
    var n := TokensOfPart(contextLen, size, p);
    var first := p * per;
    assert p * size == first * blockSize by { assert p * (per * blockSize) == p * per * blockSize; }
    DivMod(first, 0, blockSize);
    BlocksWithin(first, n, contextLen, blockSize, per);
  }

  lemma TokensOfPart(contextLen: nat, size: nat, p: nat) returns (n: nat)
    requires size > 0 && p * size < contextLen
    ensures n == Cut(p + 1, size, contextLen) - p * size && 0 < n <= size && p * size + n <= contextLen
  {
    CutsGrow(p, size, contextLen);
    assert (p + 1) * size == p * size + size;
    n := Cut(p + 1, size, contextLen) - p * size;
  }

  lemma BlocksWithin(first: nat, n: nat, contextLen: nat, blockSize: nat, per: nat)
    requires blockSize > 0 && n > 0 && first * blockSize + n <= contextLen && n <= per * blockSize
    ensures first + Sequences.NumBlocks(n, blockSize) <= Sequences.NumBlocks(contextLen, blockSize)
    ensures Sequences.NumBlocks(n, blockSize) * blockSize <= per * blockSize
  {
    hide Sequences.NumBlocks;
    BlocksCover(n, blockSize);
    BlocksCover(contextLen, blockSize);
    var m, total := Sequences.NumBlocks(n, blockSize), Sequences.NumBlocks(contextLen, blockSize);
    assert (first + m - 1) * blockSize == first * blockSize + (m - 1) * blockSize;
    LessFactor(first + m - 1, total, blockSize);
    LessFactor(m - 1, per, blockSize);
    MulAtLeast(m, per, blockSize);
  }

  /** What the partitions `0..n` have left behind: maxima, sums and outputs. */
  ghost predicate PartsDone(exp: real -> real, w: View, row: seq<real>, v: seq<real>, contextLen: nat, size: nat, n: nat,
                            maxs: seq<real>, sums: seq<real>, outs: seq<real>)
    requires w.s.x > 0 && w.s.blockSize > 0 && IsExp(exp) && |row| == contextLen && size > 0
  {
    && Statistics(exp, row, size, n, maxs, sums)
    && (forall p: nat | p < n :: sums[p] >= 1.0 && Part(row, p, size) != [])
    && forall p: nat, d: nat | p < n && d < w.s.headSize :: OutputOf(exp, w, row, v, contextLen, size, p, d, outs)
  }

  ghost predicate OutputOf(exp: real -> real, w: View, row: seq<real>, v: seq<real>, contextLen: nat, size: nat, p: nat, d: nat,
                           outs: seq<real>)
    requires w.s.x > 0 && w.s.blockSize > 0 && IsExp(exp) && |row| == contextLen && size > 0 && Part(row, p, size) != []
  {
    p * w.s.headSize + d < |outs|
    && outs[p * w.s.headSize + d] == Attend(exp, Part(row, p, size), Part(FullValues(w, v, d, contextLen), p, size))
  }

  /** The work of one partition (468-577), when there are several: its output, maximum and sum are kept for later. */
  method OnePartition(exp: real -> real, w: View, q: array<real>, qBase: nat, kCache: array<real>, vCache: array<real>, scale: real,
                      alibi: Option<real>, contextLen: nat, size: nat, p: nat,
                      expSums: array<real>, maxLogits: array<real>, tmpOut: array<real>, r: Registers, ghost numBlocks: nat)
    requires IsExp(exp) && w.Fits(numBlocks, kCache.Length) && vCache.Length == kCache.Length && r.Fits(w.s)
    requires size > 0 && size % w.s.blockSize == 0 && p * size < contextLen
    requires Sequences.NumBlocks(contextLen, w.s.blockSize) <= |w.table| && qBase + w.s.headSize <= q.Length
    requires p < expSums.Length && p < maxLogits.Length && p * w.s.headSize + w.s.headSize <= tmpOut.Length
    requires expSums != maxLogits && expSums != tmpOut && maxLogits != tmpOut
    requires {expSums, maxLogits, tmpOut} !! {q, kCache, vCache}
    requires PartsDone(exp, w, FullRow(w, q[..], qBase, kCache[..], scale, alibi, contextLen), vCache[..], contextLen, size, p,
                       maxLogits[..], expSums[..], tmpOut[..])
    modifies expSums, maxLogits, tmpOut
    ensures PartsDone(exp, w, FullRow(w, q[..], qBase, kCache[..], scale, alibi, contextLen), vCache[..], contextLen, size, p + 1,
                      maxLogits[..], expSums[..], tmpOut[..])
  {
    hide IsExp, Sequences.NumBlocks, Attend, Shape.BlockElems, Registers.Fits, PartsDone, FullRow, FullValues, RowFrom;
    hide ValuesFrom, IsMax, ExpSum, Part, Cut, View.Fits;
    ghost var qs, ks, vs := q[..], kCache[..], vCache[..];
    FitsShape(w, numBlocks, kCache.Length);
    ghost var maxs, sums, outs := maxLogits[..], expSums[..], tmpOut[..];
    BlocksOfPart(contextLen, size, p, w.s.blockSize, |w.table|);
    var startTokenIdx := p * size;
    var contextTokenNum := Cut(p + 1, size, contextLen) - startTokenIdx;
    var first, at := startTokenIdx / w.s.blockSize, p * w.s.headSize;
    var logits := new real[size](i => 0.0);
    var max, sum := AttendStretch(exp, w, q, qBase, kCache, vCache, scale, alibi, first, startTokenIdx, contextLen, contextTokenNum,
                                  logits, tmpOut, at, r, numBlocks);
    maxLogits[p] := max;
    expSums[p] := sum;
    assert q[..] == qs && kCache[..] == ks && vCache[..] == vs;
    assert maxLogits[..] == maxs[p := max] && expSums[..] == sums[p := sum];
    PartAttended(exp, w, qs, qBase, ks, vs, scale, alibi, contextLen, size, p, first, contextTokenNum, maxs, sums, outs, max, sum,
                 tmpOut[..], at);
  }

  lemma PartAttended(exp: real -> real, w: View, q: seq<real>, qBase: nat, k: seq<real>, v: seq<real>, scale: real, alibi: Option<real>,
                     contextLen: nat, size: nat, p: nat, first: nat, n: nat, maxs: seq<real>, sums: seq<real>, outs: seq<real>,
                     max: real, sum: real, outs': seq<real>, at: nat)
    requires w.s.x > 0 && w.s.blockSize > 0 && IsExp(exp) && size > 0 && p * size < contextLen && first * w.s.blockSize == p * size
    requires n == Cut(p + 1, size, contextLen) - p * size && n > 0 && at == p * w.s.headSize && at + w.s.headSize <= |outs'| == |outs|
    requires var row := FullRow(w, q, qBase, k, scale, alibi, contextLen);
      PartsDone(exp, w, row, v, contextLen, size, p, maxs, sums, outs) && p < |maxs| && p < |sums|
    requires var part := RowFrom(w, q, qBase, k, scale, alibi, first, p * size, contextLen, n);
      && IsMax(max, part) && sum == ExpSum(exp, part, max) && sum >= 1.0
      && forall d: nat | d < w.s.headSize :: outs'[at + d] == Attend(exp, part, ValuesFrom(w, v, d, first, n))
    requires forall i | 0 <= i < at :: outs'[i] == outs[i]
    ensures PartsDone(exp, w, FullRow(w, q, qBase, k, scale, alibi, contextLen), v, contextLen, size, p + 1,
                      maxs[p := max], sums[p := sum], outs')
  {
    hide IsExp, Attend, PartsDone, FullRow, FullValues, IsMax, ExpSum, Part, Cut;
    var row := FullRow(w, q, qBase, k, scale, alibi, contextLen);
    PartOfRow(w, q, qBase, k, scale, alibi, contextLen, size, p, first, n);
    forall d: nat | d < w.s.headSize
      ensures outs'[at + d] == Attend(exp, Part(row, p, size), Part(FullValues(w, v, d, contextLen), p, size))
    {
      PartOfValues(w, v, d, contextLen, size, p, first, n);
    }
    PartsNext(exp, w, row, v, contextLen, size, p, maxs, sums, outs, max, sum, outs');
  }

  lemma PartsNext(exp: real -> real, w: View, row: seq<real>, v: seq<real>, contextLen: nat, size: nat, p: nat,
                  maxs: seq<real>, sums: seq<real>, outs: seq<real>, max: real, sum: real, outs': seq<real>)
    requires w.s.x > 0 && w.s.blockSize > 0 && IsExp(exp) && |row| == contextLen && size > 0 && p * size < contextLen
    requires PartsDone(exp, w, row, v, contextLen, size, p, maxs, sums, outs) && p < |maxs| && p < |sums| && |outs'| == |outs|
    requires IsMax(max, Part(row, p, size)) && sum == ExpSum(exp, Part(row, p, size), max) && sum >= 1.0 && Part(row, p, size) != []
    requires p * w.s.headSize + w.s.headSize <= |outs'|
    requires forall d: nat | d < w.s.headSize ::
      outs'[p * w.s.headSize + d] == Attend(exp, Part(row, p, size), Part(FullValues(w, v, d, contextLen), p, size))
    requires forall i | 0 <= i < p * w.s.headSize :: outs'[i] == outs[i]
    ensures PartsDone(exp, w, row, v, contextLen, size, p + 1, maxs[p := max], sums[p := sum], outs')
  {
    hide IsExp, Attend, FullValues, IsMax, ExpSum, Part;
    forall o: nat, d: nat | o < p + 1 && d < w.s.headSize ensures OutputOf(exp, w, row, v, contextLen, size, o, d, outs') {
      if o < p {
        assert OutputOf(exp, w, row, v, contextLen, size, o, d, outs);
        MulLess(o, p, w.s.headSize);
      }
    }
  }

  lemma NoParts(exp: real -> real, w: View, row: seq<real>, v: seq<real>, contextLen: nat, size: nat, maxs: seq<real>, sums: seq<real>,
                outs: seq<real>)
    requires w.s.x > 0 && w.s.blockSize > 0 && IsExp(exp) && |row| == contextLen && size > 0
    ensures PartsDone(exp, w, row, v, contextLen, size, 0, maxs, sums, outs)
  {
  }

  // ---- combining the partitions ---------------------------------------------------------------------------------------

  /** The products of the outputs and the factors of the partitions, for element `d`. */
  ghost function PartTerms(outs: seq<real>, factors: seq<real>, headSize: nat, d: nat): int -> real {
    i => if 0 <= i < |factors| && i * headSize + d < |outs| then Times(outs[i * headSize + d], factors[i]) else 0.0
  }

  /** "Reduce values" (602-644). */
  method ReduceParts(tmpOut: array<real>, factors: array<real>, n: nat, headSize: nat, out: array<real>, outBase: nat)
    requires n <= factors.Length && n * headSize <= tmpOut.Length && outBase + headSize <= out.Length && out != tmpOut && out != factors
    modifies out
    ensures forall d: nat | d < headSize :: out[outBase + d] == Sum(PartTerms(tmpOut[..], factors[..], headSize, d), n)
    ensures forall i | 0 <= i < outBase || outBase + headSize <= i < out.Length :: out[i] == old(out[i])
  {
    hide Sum, PartTerms;
    ghost var os, fs := tmpOut[..], factors[..];
    for d := 0 to headSize
      invariant tmpOut[..] == os && factors[..] == fs
      invariant forall e: nat | e < d :: out[outBase + e] == Sum(PartTerms(os, fs, headSize, e), n)
      invariant forall i | 0 <= i < outBase || outBase + headSize <= i < out.Length :: out[i] == old(out[i])
    {
      out[outBase + d] := ReducePart(tmpOut, factors, n, headSize, d);
    }
  }

  method ReducePart(tmpOut: array<real>, factors: array<real>, n: nat, headSize: nat, d: nat) returns (acc: real)
    requires n <= factors.Length && n * headSize <= tmpOut.Length && d < headSize
    ensures acc == Sum(PartTerms(tmpOut[..], factors[..], headSize, d), n)
  {
    hide Times;
    acc := 0.0;
    for i := 0 to n
      invariant acc == Sum(PartTerms(tmpOut[..], factors[..], headSize, d), i)
    {
      MulLess(i, n, headSize);
      acc := acc + Times(tmpOut[i * headSize + d], factors[i]);
    }
  }

  /** Element `d` of the combined output. */
  lemma PartsCombined(exp: real -> real, w: View, row: seq<real>, v: seq<real>, contextLen: nat, size: nat, n: nat,
                      maxs: seq<real>, sums: seq<real>, outs: seq<real>, factors: seq<real>, max: real, d: nat)
    requires w.s.x > 0 && w.s.blockSize > 0 && IsExp(exp) && |row| == contextLen > 0 && size > 0 && d < w.s.headSize
    requires n > 0 && (n - 1) * size < contextLen <= n * size
    requires n <= |maxs| && n <= |sums| && n <= |factors|
    requires PartsDone(exp, w, row, v, contextLen, size, n, maxs, sums, outs) && IsMax(max, maxs[..n])
    requires var total := Weighted(exp, maxs[..n], sums[..n], max);
      && total > 0.0
      && forall i | 0 <= i < n :: factors[i] == Over(Times(sums[i], exp(maxs[i] - max)), total + EPSILON)
    ensures IsMax(max, row) && ExpSum(exp, row, max) >= 1.0
    ensures Sum(PartTerms(outs, factors, w.s.headSize, d), n)
            == Shrunk(Attend(exp, row, FullValues(w, v, d, contextLen)), ExpSum(exp, row, max))
  {
    hide IsExp, Attend, FullValues, IsMax, ExpSum, Part, Times, Over, Weighted, Shrunk, Sum, Statistics;
    var values, g := FullValues(w, v, d, contextLen), PartTerms(outs, factors, w.s.headSize, d);
    forall p: nat | p < n
      ensures Part(row, p, size) != []
        && g(p) == Times(Attend(exp, Part(row, p, size), Part(values, p, size)),
                         Over(Times(sums[p], exp(maxs[p] - max)), Weighted(exp, maxs[..n], sums[..n], max) + EPSILON))
    {
      assert OutputOf(exp, w, row, v, contextLen, size, p, d, outs);
    }
    PartitionsAttend(exp, row, values, size, n, maxs, sums, max, g);
  }

  /** The second kernel's answer: exact with one partition, otherwise shrunk by S / (S + 1e-8) with S >= 1. */
  ghost predicate Approximates(exp: real -> real, w: View, row: seq<real>, v: seq<real>, contextLen: nat, parts: nat, out: seq<real>,
                               outBase: nat)
    requires w.s.x > 0 && w.s.blockSize > 0 && IsExp(exp) && |row| == contextLen > 0
  {
    outBase + w.s.headSize <= |out|
    && exists max: real | IsMax(max, row) && ExpSum(exp, row, max) >= 1.0 ::
         forall d: nat | d < w.s.headSize ::
           var exact := Attend(exp, row, FullValues(w, v, d, contextLen));
           out[outBase + d] == if parts == 1 then exact else Shrunk(exact, ExpSum(exp, row, max))
  }

  /** A context of one partition is not rescaled (`no_reduce`, 476, 529-532). */
  method OnlyPartition(exp: real -> real, w: View, q: array<real>, qBase: nat, kCache: array<real>, vCache: array<real>, scale: real,
                       alibi: Option<real>, contextLen: nat, partitionSize: nat, out: array<real>, outBase: nat, r: Registers,
                       ghost numBlocks: nat)
    requires IsExp(exp) && w.Fits(numBlocks, kCache.Length) && vCache.Length == kCache.Length && r.Fits(w.s)
    requires partitionSize > 0 && partitionSize % w.s.blockSize == 0 && 0 < contextLen <= partitionSize
    requires Sequences.NumBlocks(contextLen, w.s.blockSize) <= |w.table| && qBase + w.s.headSize <= q.Length
    requires outBase + w.s.headSize <= out.Length && out !in {q, kCache, vCache}
    modifies out
    ensures Approximates(exp, w, FullRow(w, q[..], qBase, kCache[..], scale, alibi, contextLen), vCache[..], contextLen, 1, out[..],
                         outBase)
    ensures forall i | 0 <= i < outBase || outBase + w.s.headSize <= i < out.Length :: out[i] == old(out[i])
  {
    hide IsExp, Sequences.NumBlocks, Attend, Shape.BlockElems, Registers.Fits, IsMax, ExpSum, RowFrom, ValuesFrom;
    BlocksOfPart(contextLen, partitionSize, 0, w.s.blockSize, |w.table|);
    var logits := new real[partitionSize](i => 0.0);
    var max, sum := AttendStretch(exp, w, q, qBase, kCache, vCache, scale, alibi, 0, 0, contextLen, contextLen, logits, out, outBase, r,
                                  numBlocks);
  }

  /** The two passes after the partitions (582-644). */
  method Combine(exp: real -> real, ghost w: View, ghost row: seq<real>, ghost v: seq<real>, ghost contextLen: nat, ghost size: nat, n: nat,
                 headSize: nat, expSums: array<real>, maxLogits: array<real>, tmpOut: array<real>, out: array<real>, outBase: nat)
    requires w.s.x > 0 && w.s.blockSize > 0 && IsExp(exp) && |row| == contextLen > 0 && size > 0 && headSize == w.s.headSize
    requires n > 1 && (n - 1) * size < contextLen <= n * size && n <= expSums.Length && n <= maxLogits.Length
    requires n * headSize <= tmpOut.Length && outBase + headSize <= out.Length
    requires expSums != maxLogits && expSums != tmpOut && maxLogits != tmpOut && out !in {expSums, maxLogits, tmpOut}
    requires PartsDone(exp, w, row, v, contextLen, size, n, maxLogits[..], expSums[..], tmpOut[..])
    modifies out, expSums
    ensures Approximates(exp, w, row, v, contextLen, n, out[..], outBase)
    ensures forall i | 0 <= i < outBase || outBase + headSize <= i < out.Length :: out[i] == old(out[i])
  {
    hide IsExp, Attend, FullValues, IsMax, ExpSum, Part, Times, Over, Weighted, Shrunk, Sum, Statistics, PartTerms, OutputOf;
    ghost var maxs, sums, outs := maxLogits[..], expSums[..], tmpOut[..];
    assert forall i | 0 <= i < n :: expSums[i] == sums[i] && sums[i] >= 1.0;
    ghost var max := ReducePartitionSoftmax(exp, maxLogits, expSums, n);
    assert sums[..n] == old(expSums[..n]) && maxs[..n] == maxLogits[..n];
    ghost var factors := expSums[..];
    ReduceParts(tmpOut, expSums, n, headSize, out, outBase);
    assert tmpOut[..] == outs && expSums[..] == factors;
    forall d: nat | d < headSize
      ensures IsMax(max, row) && ExpSum(exp, row, max) >= 1.0
      ensures out[outBase + d] == Shrunk(Attend(exp, row, FullValues(w, v, d, contextLen)), ExpSum(exp, row, max))
    {
      PartsCombined(exp, w, row, v, contextLen, size, n, maxs, sums, outs, factors, max, d);
    }
    RowMax(exp, w, row, v, contextLen, size, n, maxs, sums, outs, max);
  }

  lemma RowMax(exp: real -> real, w: View, row: seq<real>, v: seq<real>, contextLen: nat, size: nat, n: nat,
               maxs: seq<real>, sums: seq<real>, outs: seq<real>, max: real)
    requires w.s.x > 0 && w.s.blockSize > 0 && IsExp(exp) && |row| == contextLen > 0 && size > 0 && contextLen <= n * size
    requires n <= |maxs| && PartsDone(exp, w, row, v, contextLen, size, n, maxs, sums, outs) && IsMax(max, maxs[..n])
    ensures IsMax(max, row) && ExpSum(exp, row, max) >= 1.0
  {
    hide IsExp, ExpSum, Statistics, IsMax, OutputOf;
    MaxOfParts(exp, row, size, n, maxs, sums, max);
    MaxIn(max, row);
    OneTerm(exp, row, max);
  }

  lemma MaxIn(max: real, row: seq<real>)
    requires IsMax(max, row)
    ensures max in row
  {
  }

  /** `paged_attention_v2_impl::call` (463-645). */
  method PagedAttentionV2(exp: real -> real, w: View, q: array<real>, qBase: nat, kCache: array<real>, vCache: array<real>, scale: real,
                          alibi: Option<real>, contextLen: nat, partitionSize: nat, maxNumPartitions: nat,
                          out: array<real>, outBase: nat, expSums: array<real>, maxLogits: array<real>, tmpOut: array<real>,
                          r: Registers, ghost numBlocks: nat)
    requires IsExp(exp) && w.Fits(numBlocks, kCache.Length) && vCache.Length == kCache.Length && r.Fits(w.s)
    requires partitionSize > 0 && partitionSize % w.s.blockSize == 0 && contextLen > 0
    requires Sequences.NumBlocks(contextLen, partitionSize) <= maxNumPartitions
    requires maxNumPartitions <= expSums.Length && maxNumPartitions <= maxLogits.Length
    requires maxNumPartitions * w.s.headSize <= tmpOut.Length && outBase + w.s.headSize <= out.Length
    requires Sequences.NumBlocks(contextLen, w.s.blockSize) <= |w.table| && qBase + w.s.headSize <= q.Length
    requires expSums != maxLogits && expSums != tmpOut && maxLogits != tmpOut && out !in {expSums, maxLogits, tmpOut}
    requires {expSums, maxLogits, tmpOut, out} !! {q, kCache, vCache}
    modifies out, expSums, maxLogits, tmpOut
    ensures Approximates(exp, w, FullRow(w, q[..], qBase, kCache[..], scale, alibi, contextLen), vCache[..], contextLen,
                         Sequences.NumBlocks(contextLen, partitionSize), out[..], outBase)
    ensures forall i | 0 <= i < outBase || outBase + w.s.headSize <= i < out.Length :: out[i] == old(out[i])
  {
    hide IsExp, Sequences.NumBlocks, Attend, Shape.BlockElems, Registers.Fits, PartsDone, FullRow, FullValues, RowFrom;
    hide ValuesFrom, IsMax, ExpSum, Part;
    hide Approximates, View.Fits;
    var n := Sequences.NumBlocks(contextLen, partitionSize);
    BlocksCover(contextLen, partitionSize);
    ghost var qs, ks, vs, os := q[..], kCache[..], vCache[..], out[..];
    FitsShape(w, numBlocks, kCache.Length);
    ghost var row := FullRow(w, qs, qBase, ks, scale, alibi, contextLen);
    if n == 1 {
      OnlyPartition(exp, w, q, qBase, kCache, vCache, scale, alibi, contextLen, partitionSize, out, outBase, r, numBlocks);
      return;
    }
    NoParts(exp, w, row, vs, contextLen, partitionSize, maxLogits[..], expSums[..], tmpOut[..]);
    for p := 0 to maxNumPartitions
      invariant q[..] == qs && kCache[..] == ks && vCache[..] == vs && out[..] == os
      invariant PartsDone(exp, w, row, vs, contextLen, partitionSize, if p < n then p else n, maxLogits[..], expSums[..], tmpOut[..])
    {
      PartExists(p, n, partitionSize, contextLen);
      if p * partitionSize < contextLen {
        MulLess(p, maxNumPartitions, w.s.headSize);
        OnePartition(exp, w, q, qBase, kCache, vCache, scale, alibi, contextLen, partitionSize, p, expSums, maxLogits, tmpOut, r,
                     numBlocks);
      }
    }
    MulAtLeast(n, maxNumPartitions, w.s.headSize);
    Combine(exp, w, row, vs, contextLen, partitionSize, n, w.s.headSize, expSums, maxLogits, tmpOut, out, outBase);
  }

  lemma FitsShape(w: View, numBlocks: nat, length: nat)
    requires w.Fits(numBlocks, length)
    ensures w.s.x > 0 && w.s.blockSize > 0
  {
  }

  lemma PartExists(p: nat, n: nat, size: nat, contextLen: nat)
    requires size > 0 && n > 0 && (n - 1) * size < contextLen <= n * size
    ensures p * size < contextLen <==> p < n
  {
    if p < n {
      MulAtLeast(p, n - 1, size);
    } else {
      MulAtLeast(n, p, size);
    }
  }

  /** The two kernels differ by at most one part in 10^8, and not at all when the context is one partition.  With more, the
      second output is the first times S / (S + 1e-8), S being the sum of the exponentials. */
  lemma KernelsAgree(exp: real -> real, w: View, row: seq<real>, v: seq<real>, contextLen: nat, parts: nat,
                     out1: seq<real>, base1: nat, out2: seq<real>, base2: nat, d: nat)
    requires w.s.x > 0 && w.s.blockSize > 0 && IsExp(exp) && |row| == contextLen > 0 && d < w.s.headSize && base1 + d < |out1|
    requires out1[base1 + d] == Attend(exp, row, FullValues(w, v, d, contextLen))
    requires Approximates(exp, w, row, v, contextLen, parts, out2, base2)
    ensures Abs(out2[base2 + d] - out1[base1 + d]) <= 0.00000001 * Abs(out1[base1 + d])
    ensures parts != 1 ==> exists max :: IsMax(max, row) && ShrunkBy(out1[base1 + d], ExpSum(exp, row, max), out2[base2 + d])
    ensures parts == 1 || out1[base1 + d] == 0.0 <==> out2[base2 + d] == out1[base1 + d]
  {
    hide IsExp, Attend, IsMax, Shrunk, ShrunkBy, Abs, ExpSum;
    var exact := Attend(exp, row, FullValues(w, v, d, contextLen));
    var max :| IsMax(max, row) && ExpSum(exp, row, max) >= 1.0
               && out2[base2 + d] == if parts == 1 then exact else Shrunk(exact, ExpSum(exp, row, max));
    ShrunkBound(exact, ExpSum(exp, row, max));
    NoDifference(exact);
  }

  lemma NoDifference(a: real)
    ensures Abs(a - a) <= 0.00000001 * Abs(a)
  {
    assert 0.00000001 * Abs(a) >= 0.0;
  }

  // ---- what `reshape_and_cache` stores is what the kernels read ---------------------------------------------------

  ghost function Products(q: seq<real>, qBase: nat, key: seq<real>, base: nat, n: nat): int -> real {
    d => if 0 <= d < n && qBase + d < |q| && base + d < |key| then Times(q[qBase + d], key[base + d]) else 0.0
  }

  /** A token stored in slot `slot` contributes the plain scaled product of query and key to the logits, and its own
      value, at every position whose block and offset make up that slot. */
  lemma StoredIsRead(w: View, q: seq<real>, qBase: nat, keyCache: seq<real>, valueCache: seq<real>, scale: real, pos: nat,
                     key: seq<real>, value: seq<real>, keyBase: nat, valueBase: nat, d: nat)
    requires w.s.Valid() && pos / w.s.blockSize < |w.table| && qBase + w.s.headSize <= |q| && d < w.s.headSize
    requires var slot := w.table[pos / w.s.blockSize] * w.s.blockSize + pos % w.s.blockSize;
      && HeadStored(w.s, Keys, slot, w.head, keyCache, key, keyBase)
      && HeadStored(w.s, KvCache.Values, slot, w.head, valueCache, value, valueBase)
    ensures Logit(w, q, qBase, keyCache, scale, pos) == Times(Sum(Products(q, qBase, key, keyBase, w.s.headSize), w.s.headSize), scale)
    ensures valueBase + d < |value| && ValueOf(w, valueCache, d, pos) == value[valueBase + d]
  {
    hide Times;
    var i, t := pos / w.s.blockSize, pos % w.s.blockSize;
    var slot := w.table[i] * w.s.blockSize + t;
    DivMod(w.table[i], t, w.s.blockSize);
    var stored, plain := KeyTerms(q, qBase, keyCache, w.HeadBase(i), w.s, t), Products(q, qBase, key, keyBase, w.s.headSize);
    forall e | 0 <= e < w.s.headSize ensures stored(e) == plain(e) {
      assert Cell(w.s, Keys, slot, w.head, e) == w.HeadBase(i) + w.s.KeyInHead(t, e);
    }
    SumAgree(stored, plain, w.s.headSize);
    assert Cell(w.s, KvCache.Values, slot, w.head, d) == w.HeadBase(i) + w.s.ValueInHead(t, d);
  }
}
