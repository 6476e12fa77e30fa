/** The batched kernel against attention over plain lists of keys and values, as if nothing were paged
    (csrc/cpu/cache.cpp:34-78, csrc/cpu/attention.cpp:250-338). */
module PlainAttention {
  import opened Wrappers
  import opened Arithmetic
  import opened KvLayout
  import opened KvCache
  import opened Softmax
  import opened Sums
  import opened Attention
  import opened PagedAttention
  import opened KernelBatches
  import Sequences

  /** All heads of one token, one after the other, are in its slot. */
  ghost predicate TokenStored(s: Shape, kind: Kind, slot: nat, cache: seq<real>, token: seq<real>)
    requires s.Valid()
  {
    forall head: nat | head < s.numHeads :: HeadStored(s, kind, slot, head, cache, token, head * s.headSize)
  }

  /** The tokens are in the slots that the block table names. */
  ghost predicate ContextStored(s: Shape, kind: Kind, table: seq<nat>, cache: seq<real>, tokens: seq<seq<real>>)
    requires s.Valid()
  {
    forall pos: nat | pos < |tokens| :: pos / s.blockSize < |table|
      && TokenStored(s, kind, table[pos / s.blockSize] * s.blockSize + pos % s.blockSize, cache, tokens[pos])
  }

  /** Each call of `reshape_and_cache` puts its tokens into their slots. */
  lemma SlotHoldsToken(s: Shape, kind: Kind, slots: seq<int>, stride: nat, before: seq<real>, after: seq<real>, source: seq<real>, t: nat)
    requires s.Valid() && Stored(s, kind, slots, AllWork(s, slots), stride, before, after, source)
    requires t < |slots| && slots[t] >= 0 && t * stride + s.numHeads * s.headSize <= |source|
    ensures TokenStored(s, kind, slots[t], after, source[t * stride..t * stride + s.numHeads * s.headSize])
  {
    var token := source[t * stride..t * stride + s.numHeads * s.headSize];
    forall head: nat | head < s.numHeads ensures HeadStored(s, kind, slots[t], head, after, token, head * s.headSize) {
      var w := Work(t, head);
      assert w in AllWork(s, slots) && Doable(s, slots, w);
      assert HeadStored(s, kind, slots[t], head, after, source, Source(s, stride, w));
      MulLess(head, s.numHeads, s.headSize);
      OfToken(s, kind, slots[t], head, after, source, t * stride, token);
    }
  }

  lemma OfToken(s: Shape, kind: Kind, slot: nat, head: nat, cache: seq<real>, source: seq<real>, start: nat, token: seq<real>)
    requires s.Valid() && HeadStored(s, kind, slot, head, cache, source, start + head * s.headSize)
    requires start + |token| <= |source| && token == source[start..start + |token|]
    requires head * s.headSize + s.headSize <= |token|
    ensures HeadStored(s, kind, slot, head, cache, token, head * s.headSize)
  {
    hide Cell;
    var base := head * s.headSize;
    forall d: nat | d < s.headSize
      ensures Cell(s, kind, slot, head, d) < |cache| && base + d < |token| && cache[Cell(s, kind, slot, head, d)] == token[base + d]
    {
      assert token[base + d] == source[start + base + d];
    }
  }

  /** The scaled product of a query with the key of each token, plus the ALiBi bias: nothing for the newest token, and one
      slope less for each token before it. */
  ghost function PlainRow(q: seq<real>, qBase: nat, keys: seq<seq<real>>, base: nat, size: nat, scale: real, slope: Option<real>,
                          newest: int): (r: seq<real>)
    ensures |r| == |keys| && forall pos | 0 <= pos < |r| ::
      r[pos] == Times(Sum(Products(q, qBase, keys[pos], base, size), size), scale)
                + if slope.Some? then slope.value * (pos - newest) as real else 0.0
  {
    if keys == [] then []
    else PlainRow(q, qBase, keys[..|keys| - 1], base, size, scale, slope, newest)
         + [Times(Sum(Products(q, qBase, keys[|keys| - 1], base, size), size), scale)
            + if slope.Some? then slope.value * (|keys| - 1 - newest) as real else 0.0]
  }

  /** One element of the value of each token. */
  ghost function PlainValues(values: seq<seq<real>>, i: nat): (r: seq<real>)
    requires forall v | v in values :: i < |v|
    ensures |r| == |values| && forall pos | 0 <= pos < |r| :: r[pos] == values[pos][i]
  {
    if values == [] then [] else PlainValues(values[..|values| - 1], i) + [values[|values| - 1][i]]
  }

  lemma PositionIsPlain(w: View, q: seq<real>, qBase: nat, k: seq<real>, v: seq<real>, scale: real, keys: seq<seq<real>>,
                        values: seq<seq<real>>, pos: nat, base: nat, d: nat)
    requires w.s.Valid() && w.head < w.s.numHeads && qBase + w.s.headSize <= |q| && d < w.s.headSize && base == w.head * w.s.headSize
    requires pos < |keys| == |values|
    requires ContextStored(w.s, Keys, w.table, k, keys) && ContextStored(w.s, KvCache.Values, w.table, v, values)
    ensures LogitFrom(w, q, qBase, k, scale, 0, pos) == Times(Sum(Products(q, qBase, keys[pos], base, w.s.headSize), w.s.headSize), scale)
    ensures base + d < |values[pos]| && ValueFrom(w, v, d, 0, pos) == values[pos][base + d]
  {
    hide HeadStored, Times, Products;
    StoredIsRead(w, q, qBase, k, v, scale, pos, keys[pos], values[pos], base, base, d);
    assert 0 * w.s.blockSize + pos == pos;
  }

  /** The positions of the view are those of the plain lists. */
  lemma RowIsPlain(w: View, q: seq<real>, qBase: nat, k: seq<real>, v: seq<real>, scale: real, slope: Option<real>,
                   keys: seq<seq<real>>, values: seq<seq<real>>, base: nat, d: nat)
    requires w.s.Valid() && w.head < w.s.numHeads && qBase + w.s.headSize <= |q| && d < w.s.headSize && |keys| == |values|
    requires ContextStored(w.s, Keys, w.table, k, keys) && ContextStored(w.s, KvCache.Values, w.table, v, values)
    requires base == w.head * w.s.headSize
    ensures forall value | value in values :: base + d < |value|
    ensures FullRow(w, q, qBase, k, scale, slope, |keys|) == PlainRow(q, qBase, keys, base, w.s.headSize, scale, slope, |keys| - 1)
    ensures FullValues(w, v, d, |values|) == PlainValues(values, base + d)
  {
    hide ContextStored, Times, Products, LogitFrom, ValueFrom, Sum, PlainRow, PlainValues, RowFrom, ValuesFrom, Bias;
    forall pos: nat | pos < |keys|
      ensures LogitFrom(w, q, qBase, k, scale, 0, pos) == Times(Sum(Products(q, qBase, keys[pos], base, w.s.headSize), w.s.headSize), scale)
      ensures base + d < |values[pos]| && ValueFrom(w, v, d, 0, pos) == values[pos][base + d]
    {
      PositionIsPlain(w, q, qBase, k, v, scale, keys, values, pos, base, d);
    }
    var row, plain := FullRow(w, q, qBase, k, scale, slope, |keys|), PlainRow(q, qBase, keys, base, w.s.headSize, scale, slope, |keys| - 1);
    forall pos | 0 <= pos < |keys| ensures row[pos] == plain[pos] {
      if slope.Some? {
        BiasIs(slope.value, pos, |keys|);
      }
    }
    assert row == plain;
  }

  /** All iterations of the kernel have run on a batch whose arguments fit. */
  ghost predicate Computed(exp: real -> real, b: Batch, q: seq<real>, k: seq<real>, v: seq<real>, scale: real, out: seq<real>,
                           numBlocks: nat)
  {
    && IsExp(exp) && b.Shaped() && b.Fits(numBlocks, |k|, |q|) && |v| == |k|
    && forall j | j in b.Jobs() :: Attended(exp, b, j, q, k, v, scale, out)
  }

  /** The slice that the batched kernel writes for query head `h` of sequence `i` is the attention over the plain keys and
      values of key-value head `g`, which the query heads from `g * queriesPerKv` on share (257). */
  lemma BatchIsPlain(exp: real -> real, b: Batch, q: seq<real>, k: seq<real>, v: seq<real>, scale: real, out: seq<real>, numBlocks: nat,
                     i: nat, h: nat, g: nat, keys: seq<seq<real>>, values: seq<seq<real>>, d: nat, qBase: nat, base: nat, at: nat)
    requires IsExp(exp) && b.Shaped() && i < |b.tables| && h < b.numHeads && d < b.s.headSize && |keys| == |values| == b.contextLens[i]
    requires g * b.queriesPerKv <= h < (g + 1) * b.queriesPerKv
    requires qBase == i * b.qStride + h * b.s.headSize && base == g * b.s.headSize && at == (i * b.numHeads + h) * b.s.headSize + d
    requires ContextStored(b.s, Keys, b.tables[i], k, keys) && ContextStored(b.s, KvCache.Values, b.tables[i], v, values)
    requires Computed(exp, b, q, k, v, scale, out, numBlocks)
    ensures keys != [] && at < |out| && forall value | value in values :: base + d < |value|
    ensures var slope := if b.slopes.Some? then Some(b.slopes.value[h]) else None;
      out[at] == Attend(exp, PlainRow(q, qBase, keys, base, b.s.headSize, scale, slope, |keys| - 1), PlainValues(values, base + d))
  {
    hide IsExp, Attend, ContextStored, Sequences.NumBlocks, FullRow, FullValues, PlainRow, PlainValues;
    var j := Job(i, h);
    assert j in b.Jobs() && b.Has(j);
    assert b.contextLens[i] in b.contextLens;
    DivMod(g, h - g * b.queriesPerKv, b.queriesPerKv);
    assert b.ViewOf(j).Fits(numBlocks, |k|);
    RowIsPlain(View(b.s, b.tables[i], g), q, b.QueryBase(j), k, v, scale, b.Slope(j), keys, values, base, d);
    var start := Slice(b.numHeads, b.s.headSize, j);
    assert out[start + d] == HeadOutput(exp, b, j, q, k, v, scale, start + d - start);
  }

  /** Attention over one token is its value. */
  lemma OneTokenAttends(exp: real -> real, l: seq<real>, v: seq<real>)
    requires IsExp(exp) && |l| == |v| == 1
    ensures Attend(exp, l, v) == v[0]
  {
    hide IsExp, Times, Over, ExpSum, Weighted;
    ExpLaw(exp, l[0] - 0.0, 0.0);
    OneTerm(exp, l[0], v[0]);
    assert l == [l[0]] && v == [v[0]];
    OverTimes(exp(l[0] - 0.0), v[0]);
  }

  lemma OneTerm(exp: real -> real, x: real, y: real)
    ensures ExpSum(exp, [x], 0.0) == exp(x - 0.0) && Weighted(exp, [x], [y], 0.0) == Times(exp(x - 0.0), y)
  {
    hide Times;
    assert [x][..0] == [] && [y][..0] == [];
    assert ExpSum(exp, [], 0.0) == 0.0 == Weighted(exp, [], [], 0.0);
  }

  lemma OverTimes(a: real, b: real)
    requires a > 0.0
    ensures Over(Times(a, b), a) == b
  {
  }

  lemma OneStored(s: Shape, kind: Kind, table: seq<nat>, cache: seq<real>, token: seq<real>)
    requires s.Valid() && table != [] && TokenStored(s, kind, table[0] * s.blockSize, cache, token)
    ensures ContextStored(s, kind, table, cache, [token])
  {
    hide TokenStored;
    DivMod(0, 0, s.blockSize);
  }

  /** For instance, after one token the output for each query head is the value stored for its key-value head. */
  lemma FirstTokenOut(exp: real -> real, b: Batch, q: seq<real>, k: seq<real>, v: seq<real>, scale: real, out: seq<real>, numBlocks: nat,
                      i: nat, h: nat, g: nat, key: seq<real>, value: seq<real>, d: nat, base: nat, at: nat)
    requires IsExp(exp) && b.Shaped() && i < |b.tables| && b.contextLens[i] == 1 && b.tables[i] != [] && d < b.s.headSize
    requires h < b.numHeads && g * b.queriesPerKv <= h < (g + 1) * b.queriesPerKv
    requires base == g * b.s.headSize && at == (i * b.numHeads + h) * b.s.headSize + d
    requires TokenStored(b.s, Keys, b.tables[i][0] * b.s.blockSize, k, key)
    requires TokenStored(b.s, KvCache.Values, b.tables[i][0] * b.s.blockSize, v, value)
    requires Computed(exp, b, q, k, v, scale, out, numBlocks)
    ensures at < |out| && base + d < |value| && out[at] == value[base + d]
  {
    hide IsExp, Attend, Computed, TokenStored, ContextStored;
    OneStored(b.s, Keys, b.tables[i], k, key);
    OneStored(b.s, KvCache.Values, b.tables[i], v, value);
    var qBase := i * b.qStride + h * b.s.headSize;
    BatchIsPlain(exp, b, q, k, v, scale, out, numBlocks, i, h, g, [key], [value], d, qBase, base, at);
    assert value in [value];
    var slope := if b.slopes.Some? then Some(b.slopes.value[h]) else None;
    OneTokenAttends(exp, PlainRow(q, qBase, [key], base, b.s.headSize, scale, slope, 0), PlainValues([value], base + d));
  }
}
