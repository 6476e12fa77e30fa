/** The attention kernels over all sequences and query heads of a batch (csrc/cpu/attention.cpp:250-338, 463-645). */
module KernelBatches {
  import opened Wrappers
  import opened Arithmetic
  import opened KvLayout
  import opened Softmax
  import opened Attention
  import opened PagedAttention
  import Sequences

  /** One iteration of the collapsed parallel loops. */
  datatype Job = Job(sequence: nat, head: nat)

  /** The arguments that differ between sequences and heads. */
  datatype Batch = Batch(s: Shape, tables: seq<seq<nat>>, contextLens: seq<nat>, numHeads: nat, queriesPerKv: nat, qStride: nat,
                         slopes: Option<seq<real>>)
  {
    ghost predicate Shaped() {
      && s.Valid() && |contextLens| == |tables| && (forall n | n in contextLens :: n > 0)
      && queriesPerKv > 0 && (slopes.Some? ==> |slopes.value| == numHeads)
    }

    ghost predicate Fits(numBlocks: nat, cacheLength: nat, qLength: nat)
      requires Shaped()
    {
      forall j | Has(j) ::
           && ViewOf(j).Fits(numBlocks, cacheLength)
           && Sequences.NumBlocks(contextLens[j.sequence], s.blockSize) <= |tables[j.sequence]|
           && QueryBase(j) + s.headSize <= qLength
    }

    predicate Has(j: Job) { j.sequence < |tables| && j.head < numHeads }

    function ViewOf(j: Job): View
      requires Has(j) && queriesPerKv > 0
    {
      View(s, tables[j.sequence], j.head / queriesPerKv)
    }

    function QueryBase(j: Job): nat { j.sequence * qStride + j.head * s.headSize }

    function Slope(j: Job): Option<real>
      requires Has(j) && (slopes.Some? ==> |slopes.value| == numHeads)
    {
      if slopes.Some? then Some(slopes.value[j.head]) else None
    }

    /** All iterations. */
    function Jobs(): set<Job> {
      set sequence, head | 0 <= sequence < |tables| && 0 <= head < numHeads :: Job(sequence, head)
    }
  }

  /** Where the slice of an iteration begins in an array of `size` elements for each sequence and head: `size` is the head size for
      the output, the number of partitions for the maxima and sums, and their product for the partitions' outputs. */
  function Slice(numHeads: nat, size: nat, j: Job): nat { (j.sequence * numHeads + j.head) * size }

  /** Different iterations write to disjoint slices, so they may run in any order. */
  lemma SlicesApart(numHeads: nat, size: nat, i: Job, j: Job)
    requires i != j && i.head < numHeads && j.head < numHeads
    ensures Slice(numHeads, size, i) + size <= Slice(numHeads, size, j) || Slice(numHeads, size, j) + size <= Slice(numHeads, size, i)
  {
    var a, b := i.sequence * numHeads + i.head, j.sequence * numHeads + j.head;
    DivMod(i.sequence, i.head, numHeads);
    DivMod(j.sequence, j.head, numHeads);
    assert a != b;
    if a < b {
      MulAtLeast(a + 1, b, size);
    } else {
      MulAtLeast(b + 1, a, size);
    }
  }

  /** All slices lie in the array. */
  lemma SliceFits(b: Batch, size: nat, j: Job)
    requires b.Has(j)
    ensures Slice(b.numHeads, size, j) + size <= |b.tables| * b.numHeads * size
  {
    MulLess(j.sequence, |b.tables|, b.numHeads);
    MulAtLeast(j.sequence + 1, |b.tables|, b.numHeads);
    assert (j.sequence + 1) * b.numHeads == j.sequence * b.numHeads + b.numHeads;
    MulAtLeast(j.sequence * b.numHeads + j.head + 1, |b.tables| * b.numHeads, size);
  }

  /** Element `d` of the attention of a query head over the whole context of its sequence. */
  ghost function HeadOutput(exp: real -> real, b: Batch, j: Job, q: seq<real>, k: seq<real>, v: seq<real>, scale: real, d: nat): real
    requires IsExp(exp) && b.Shaped() && b.Has(j)
  {
    var w, n := b.ViewOf(j), b.contextLens[j.sequence];
    assert n in b.contextLens;
    Attend(exp, FullRow(w, q, b.QueryBase(j), k, scale, b.Slope(j), n), FullValues(w, v, d, n))
  }

  ghost predicate Attended(exp: real -> real, b: Batch, j: Job, q: seq<real>, k: seq<real>, v: seq<real>, scale: real, out: seq<real>)
    requires IsExp(exp) && b.Shaped()
  {
    && b.Has(j) && Slice(b.numHeads, b.s.headSize, j) + b.s.headSize <= |out|
    && forall i | Slice(b.numHeads, b.s.headSize, j) <= i < Slice(b.numHeads, b.s.headSize, j) + b.s.headSize ::
         out[i] == HeadOutput(exp, b, j, q, k, v, scale, i - Slice(b.numHeads, b.s.headSize, j))
  }

  /** One more iteration leaves the outputs of the others. */
  lemma AttendedNext(exp: real -> real, b: Batch, done: set<Job>, j: Job, q: seq<real>, k: seq<real>, v: seq<real>, scale: real,
                     out: seq<real>, out': seq<real>)
    requires IsExp(exp) && b.Shaped() && forall i | i in done :: Attended(exp, b, i, q, k, v, scale, out)
    requires j !in done && Attended(exp, b, j, q, k, v, scale, out') && |out'| == |out|
    requires forall i | 0 <= i < |out| && !(Slice(b.numHeads, b.s.headSize, j) <= i < Slice(b.numHeads, b.s.headSize, j) + b.s.headSize) ::
      out'[i] == out[i]
    ensures forall i | i in done + {j} :: Attended(exp, b, i, q, k, v, scale, out')
  {
    hide HeadOutput, Slice, IsExp, Batch.Shaped;
    forall i | i in done ensures Attended(exp, b, i, q, k, v, scale, out') {
      SlicesApart(b.numHeads, b.s.headSize, i, j);
    }
  }

  lemma IsAttended(exp: real -> real, b: Batch, j: Job, q: seq<real>, k: seq<real>, v: seq<real>, scale: real, out: seq<real>, base: nat)
    requires IsExp(exp) && b.Shaped() && b.Has(j) && base == Slice(b.numHeads, b.s.headSize, j) && base + b.s.headSize <= |out|
    requires forall d: nat | d < b.s.headSize :: out[base + d] == HeadOutput(exp, b, j, q, k, v, scale, d)
    ensures Attended(exp, b, j, q, k, v, scale, out)
  {
    hide HeadOutput, Slice, IsExp, Batch.Shaped;
    forall i | base <= i < base + b.s.headSize ensures out[i] == HeadOutput(exp, b, j, q, k, v, scale, i - base) {
      assert out[base + (i - base)] == HeadOutput(exp, b, j, q, k, v, scale, i - base);
    }
  }

  /** One iteration. */
  method AttendOne(exp: real -> real, b: Batch, j: Job, q: array<real>, kCache: array<real>, vCache: array<real>, scale: real,
                   out: array<real>, r: Registers, ghost numBlocks: nat)
    requires IsExp(exp) && b.Shaped() && b.Fits(numBlocks, kCache.Length, q.Length) && vCache.Length == kCache.Length && r.Fits(b.s)
    requires out.Length == |b.tables| * b.numHeads * b.s.headSize && out != q && out != kCache && out != vCache && b.Has(j)
    modifies out
    ensures Attended(exp, b, j, q[..], kCache[..], vCache[..], scale, out[..])
    ensures var base := Slice(b.numHeads, b.s.headSize, j);
      forall i | 0 <= i < out.Length && !(base <= i < base + b.s.headSize) :: out[i] == old(out[i])
  {
    hide IsExp, Sequences.NumBlocks, Attend, FullRow, FullValues, View.Fits, Attended, Slice, Registers.Fits, Shape.BlockElems;
    SliceFits(b, b.s.headSize, j);
    var base := Slice(b.numHeads, b.s.headSize, j);
    assert b.contextLens[j.sequence] in b.contextLens;
    PagedAttentionV1(exp, b.ViewOf(j), q, b.QueryBase(j), kCache, vCache, scale, b.Slope(j), b.contextLens[j.sequence], out, base, r,
                     numBlocks);
    IsAttended(exp, b, j, q[..], kCache[..], vCache[..], scale, out[..], base);
  }

  /** `paged_attention_v1_impl::call` (250-338): the iterations of the collapsed loops, in any order. */
  method PagedAttentionV1Batch(exp: real -> real, b: Batch, q: array<real>, kCache: array<real>, vCache: array<real>, scale: real,
                               out: array<real>, r: Registers, ghost numBlocks: nat)
    requires IsExp(exp) && b.Shaped() && b.Fits(numBlocks, kCache.Length, q.Length) && vCache.Length == kCache.Length && r.Fits(b.s)
    requires out.Length == |b.tables| * b.numHeads * b.s.headSize && out != q && out != kCache && out != vCache
    modifies out
    ensures forall j | j in b.Jobs() :: Attended(exp, b, j, q[..], kCache[..], vCache[..], scale, out[..])
  {
    hide IsExp, Batch.Shaped, Batch.Fits, Attended, Slice, Registers.Fits;
    ghost var qs, ks, vs := q[..], kCache[..], vCache[..];
    var pending, done: set<Job> := b.Jobs(), {};
    while pending != {}
      invariant q[..] == qs && kCache[..] == ks && vCache[..] == vs
      invariant done + pending == b.Jobs() && done !! pending
      invariant forall j | j in done :: Attended(exp, b, j, qs, ks, vs, scale, out[..])
      decreases |pending|
    {
      var j :| j in pending;
      assert b.Has(j) by { assert j in b.Jobs(); }
      ghost var before := out[..];
      AttendOne(exp, b, j, q, kCache, vCache, scale, out, r, numBlocks);
      AttendedNext(exp, b, done, j, qs, ks, vs, scale, before, out[..]);
      pending, done := pending - {j}, done + {j};
    }
    assert done == b.Jobs();
  }
}
