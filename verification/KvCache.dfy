/** Writing new keys and values into the paged caches, and copying blocks (csrc/cpu/cache.cpp).  The loops that run in
    parallel there take their iterations in any order here. */
module KvCache {
  import opened Arithmetic
  import opened KvLayout

  /** The two caches of a layer differ in how the elements of one head are laid out. */
  datatype Kind = Keys | Values

  function Cell(s: Shape, kind: Kind, slot: nat, head: nat, d: nat): nat
    requires s.x > 0 && s.blockSize > 0
  {
    if kind.Keys? then s.KeyAt(slot / s.blockSize, head, slot % s.blockSize, d)
    else s.ValueAt(slot / s.blockSize, head, slot % s.blockSize, d)
  }

  lemma CellsInjective(s: Shape, kind: Kind, slot: nat, head: nat, d: nat, slot': nat, head': nat, d': nat)
    requires s.Valid() && head < s.numHeads && head' < s.numHeads && d < s.headSize && d' < s.headSize
    requires Cell(s, kind, slot, head, d) == Cell(s, kind, slot', head', d')
    ensures slot == slot' && head == head' && d == d'
  {
    DivModOf(slot, s.blockSize);
    DivModOf(slot', s.blockSize);
    if kind.Keys? {
      KeysInjective(s, slot / s.blockSize, head, slot % s.blockSize, d, slot' / s.blockSize, head', slot' % s.blockSize, d');
    } else {
      ValuesInjective(s, slot / s.blockSize, head, slot % s.blockSize, d, slot' / s.blockSize, head', slot' % s.blockSize, d');
    }
  }

  lemma CellInBounds(s: Shape, kind: Kind, slot: nat, head: nat, d: nat, numBlocks: nat)
    requires s.Valid() && slot < numBlocks * s.blockSize && head < s.numHeads && d < s.headSize
    ensures Cell(s, kind, slot, head, d) < numBlocks * s.BlockElems()
  {
    DivModOf(slot, s.blockSize);
    if slot / s.blockSize >= numBlocks {
      MulAtLeast(numBlocks, slot / s.blockSize, s.blockSize);
    }
    PlacesInBounds(s, slot / s.blockSize, head, slot % s.blockSize, d, numBlocks);
  }

  /** One head of one token is in its cells: `source[base..]` holds its elements. */
  ghost predicate HeadStored(s: Shape, kind: Kind, slot: nat, head: nat, cache: seq<real>, source: seq<real>, base: nat)
    requires s.x > 0 && s.blockSize > 0
  {
    forall d: nat | d < s.headSize ::
      Cell(s, kind, slot, head, d) < |cache| && base + d < |source| && cache[Cell(s, kind, slot, head, d)] == source[base + d]
  }

  ghost predicate CellOf(s: Shape, kind: Kind, slot: nat, head: nat, a: nat)
    requires s.x > 0 && s.blockSize > 0
  {
    exists d: nat :: d < s.headSize && Cell(s, kind, slot, head, d) == a
  }

  /** Nothing but the cells of one head has changed. */
  ghost predicate OnlyHead(s: Shape, kind: Kind, slot: nat, head: nat, before: seq<real>, after: seq<real>)
    requires s.x > 0 && s.blockSize > 0
  {
    |after| == |before| && forall a: nat | a < |before| && !CellOf(s, kind, slot, head, a) :: after[a] == before[a]
  }

  // ---- one head of one token ----------------------------------------------------------------------------------

  /** The first `n` elements of the head have been stored, nothing else has changed. */
  ghost predicate PartStored(s: Shape, kind: Kind, slot: nat, head: nat, n: nat, before: seq<real>, after: seq<real>, source: seq<real>,
                             base: nat)
    requires s.x > 0 && s.blockSize > 0
  {
    && |after| == |before|
    && (forall d: nat | d < n && d < s.headSize ::
          Cell(s, kind, slot, head, d) < |after| && base + d < |source| && after[Cell(s, kind, slot, head, d)] == source[base + d])
    && forall a: nat | a < |before| && !CellOf(s, kind, slot, head, a) :: after[a] == before[a]
  }

  lemma StoreOne(s: Shape, kind: Kind, slot: nat, head: nat, n: nat, before: seq<real>, after: seq<real>, source: seq<real>, base: nat)
    requires s.Valid() && head < s.numHeads && n < s.headSize && base + n < |source|
    requires PartStored(s, kind, slot, head, n, before, after, source, base) && Cell(s, kind, slot, head, n) < |after|
    ensures PartStored(s, kind, slot, head, n + 1, before, after[Cell(s, kind, slot, head, n) := source[base + n]], source, base)
  {
    hide Cell;
    var next := after[Cell(s, kind, slot, head, n) := source[base + n]];
    forall d: nat | d < n + 1 && d < s.headSize
      ensures Cell(s, kind, slot, head, d) < |next| && next[Cell(s, kind, slot, head, d)] == source[base + d]
    {
      if d < n && Cell(s, kind, slot, head, d) == Cell(s, kind, slot, head, n) {
        CellsInjective(s, kind, slot, head, d, slot, head, n);
      }
    }
    assert CellOf(s, kind, slot, head, Cell(s, kind, slot, head, n));
  }

  /** Where the loops of a head write (58-66 and 69-73). */
  lemma WritesTo(s: Shape, slot: nat, head: nat, chunk: nat, i: nat)
    requires s.Valid() && i < s.x
    ensures var start, t := s.BlockElems() * (slot / s.blockSize) + head * s.blockSize * s.headSize, slot % s.blockSize;
      && start + (chunk * s.x) * s.blockSize + t * s.x + i == Cell(s, Keys, slot, head, chunk * s.x + i)
  {
    DivMod(chunk, i, s.x);
    assert head * s.blockSize * s.headSize == head * s.HeadElems();
  }

  lemma ValueWritesTo(s: Shape, slot: nat, head: nat, d: nat)
    requires s.Valid()
    ensures s.BlockElems() * (slot / s.blockSize) + head * s.blockSize * s.headSize + (d * s.blockSize + slot % s.blockSize)
            == Cell(s, Values, slot, head, d)
  {
    assert head * s.blockSize * s.headSize == head * s.HeadElems();
  }

  /** The two inner loops of `reshape_and_cache_cpu_impl` (58-73) for one head of one token. */
  method StoreHead(key: array<real>, value: array<real>, keyCache: array<real>, valueCache: array<real>,
                   s: Shape, slot: nat, head: nat, srcKey: nat, srcValue: nat, ghost numBlocks: nat)
    requires s.Valid() && head < s.numHeads && slot < numBlocks * s.blockSize
    requires keyCache.Length == numBlocks * s.BlockElems() == valueCache.Length
    requires srcKey + s.headSize <= key.Length && srcValue + s.headSize <= value.Length
    requires keyCache != valueCache && key != keyCache && key != valueCache && value != keyCache && value != valueCache
    modifies keyCache, valueCache
    ensures HeadStored(s, Keys, slot, head, keyCache[..], key[..], srcKey)
    ensures HeadStored(s, Values, slot, head, valueCache[..], value[..], srcValue)
    ensures OnlyHead(s, Keys, slot, head, old(keyCache[..]), keyCache[..])
    ensures OnlyHead(s, Values, slot, head, old(valueCache[..]), valueCache[..])
  {
    hide Cell, CellOf, Shape.HeadElems, Shape.BlockElems;
    StoreKey(key, keyCache, s, slot, head, srcKey, numBlocks);
    StoreValue(value, valueCache, s, slot, head, srcValue, numBlocks);
  }

  method StoreKey(key: array<real>, keyCache: array<real>, s: Shape, slot: nat, head: nat, srcKey: nat, ghost numBlocks: nat)
    requires s.Valid() && head < s.numHeads && slot < numBlocks * s.blockSize
    requires keyCache.Length == numBlocks * s.BlockElems() && srcKey + s.headSize <= key.Length && key != keyCache
    modifies keyCache
    ensures PartStored(s, Keys, slot, head, s.headSize, old(keyCache[..]), keyCache[..], key[..], srcKey)
  {
    hide Cell, CellOf;
    ghost var before, source := keyCache[..], key[..];
    ghost var chunks := s.headSize / s.x;
    DivModOf(s.headSize, s.x);
    var start, t := s.BlockElems() * (slot / s.blockSize) + head * s.blockSize * s.headSize, slot % s.blockSize;
    var srcKeyIdx := 0;
    ghost var chunk: nat := 0;
    while srcKeyIdx < s.headSize
      invariant chunk <= chunks && srcKeyIdx == chunk * s.x
      invariant key[..] == source
      invariant PartStored(s, Keys, slot, head, srcKeyIdx, before, keyCache[..], source, srcKey)
    {
      LessFactor(chunk, chunks, s.x);
      MulLess(chunk, chunks, s.x);
      var targetOffset := srcKeyIdx * s.blockSize + t * s.x;
      for i := 0 to s.x
        invariant key[..] == source
        invariant PartStored(s, Keys, slot, head, srcKeyIdx + i, before, keyCache[..], source, srcKey)
      {
        WritesTo(s, slot, head, chunk, i);
        CellInBounds(s, Keys, slot, head, srcKeyIdx + i, numBlocks);
        StoreOne(s, Keys, slot, head, srcKeyIdx + i, before, keyCache[..], source, srcKey);
        ghost var now := keyCache[..];
        keyCache[start + targetOffset + i] := key[srcKey + srcKeyIdx + i];
        assert keyCache[..] == now[Cell(s, Keys, slot, head, srcKeyIdx + i) := source[srcKey + (srcKeyIdx + i)]];
      }
      assert (chunk + 1) * s.x == srcKeyIdx + s.x;
      srcKeyIdx, chunk := srcKeyIdx + s.x, chunk + 1;
    }
  }

  method StoreValue(value: array<real>, valueCache: array<real>, s: Shape, slot: nat, head: nat, srcValue: nat, ghost numBlocks: nat)
    requires s.Valid() && head < s.numHeads && slot < numBlocks * s.blockSize
    requires valueCache.Length == numBlocks * s.BlockElems() && srcValue + s.headSize <= value.Length && value != valueCache
    modifies valueCache
    ensures PartStored(s, Values, slot, head, s.headSize, old(valueCache[..]), valueCache[..], value[..], srcValue)
  {
    hide Cell, CellOf;
    ghost var before, source := valueCache[..], value[..];
    var start, t := s.BlockElems() * (slot / s.blockSize) + head * s.blockSize * s.headSize, slot % s.blockSize;
    for srcValueIdx := 0 to s.headSize
      invariant value[..] == source
      invariant PartStored(s, Values, slot, head, srcValueIdx, before, valueCache[..], source, srcValue)
    {
      ValueWritesTo(s, slot, head, srcValueIdx);
      CellInBounds(s, Values, slot, head, srcValueIdx, numBlocks);
      StoreOne(s, Values, slot, head, srcValueIdx, before, valueCache[..], source, srcValue);
      ghost var now := valueCache[..];
      var targetOffset := srcValueIdx * s.blockSize + t;
      valueCache[start + targetOffset] := value[srcValue + srcValueIdx];
      assert valueCache[..] == now[Cell(s, Values, slot, head, srcValueIdx) := source[srcValue + srcValueIdx]];
    }
  }

  // ---- all tokens ---------------------------------------------------------------------------------------------

  /** An iteration of the parallel loop: a token and a head. */
  datatype Work = Work(token: nat, head: nat)

  /** Tokens to be stored have slots of their own; a negative slot marks a padded token. */
  ghost predicate SlotsOk(slots: seq<int>, s: Shape, numBlocks: nat) {
    && (forall i | 0 <= i < |slots| :: slots[i] < numBlocks * s.blockSize)
    && forall i, j | 0 <= i < j < |slots| :: slots[i] >= 0 ==> slots[i] != slots[j]
  }

  ghost predicate Doable(s: Shape, slots: seq<int>, w: Work) {
    w.token < |slots| && w.head < s.numHeads && slots[w.token] >= 0
  }

  function Source(s: Shape, stride: nat, w: Work): nat { w.token * stride + w.head * s.headSize }

  /** Exactly the iterations `done` have taken effect. */
  ghost predicate Stored(s: Shape, kind: Kind, slots: seq<int>, done: set<Work>, stride: nat,
                         before: seq<real>, after: seq<real>, source: seq<real>)
    requires s.x > 0 && s.blockSize > 0
  {
    && |after| == |before|
    && (forall w | w in done && Doable(s, slots, w) :: HeadStored(s, kind, slots[w.token], w.head, after, source, Source(s, stride, w)))
    && forall a: nat | a < |before| && (forall w | w in done && Doable(s, slots, w) :: !CellOf(s, kind, slots[w.token], w.head, a)) ::
         after[a] == before[a]
  }

  /** Another iteration leaves those done before it alone. */
  lemma StoredNext(s: Shape, kind: Kind, slots: seq<int>, done: set<Work>, w: Work, stride: nat,
                   before: seq<real>, now: seq<real>, next: seq<real>, source: seq<real>, numBlocks: nat)
    requires s.Valid() && SlotsOk(slots, s, numBlocks) && Doable(s, slots, w) && w !in done
    requires Stored(s, kind, slots, done, stride, before, now, source)
    requires HeadStored(s, kind, slots[w.token], w.head, next, source, Source(s, stride, w))
    requires OnlyHead(s, kind, slots[w.token], w.head, now, next)
    ensures Stored(s, kind, slots, done + {w}, stride, before, next, source)
  {
    hide Cell, Source;
    forall v | v in done && Doable(s, slots, v)
      ensures HeadStored(s, kind, slots[v.token], v.head, next, source, Source(s, stride, v))
    {
      StillStored(s, kind, slots, v, w, stride, now, next, source, numBlocks);
    }
    forall a: nat | a < |before| && (forall v | v in done + {w} && Doable(s, slots, v) :: !CellOf(s, kind, slots[v.token], v.head, a))
      ensures next[a] == before[a]
    {
      assert forall v | v in done && Doable(s, slots, v) :: v in done + {w};
      assert w in done + {w};
    }
  }

  lemma DoableIs(s: Shape, slots: seq<int>, w: Work)
    requires Doable(s, slots, w)
    ensures w.token < |slots| && slots[w.token] >= 0 && w.head < s.numHeads
  {
  }

  lemma StillStored(s: Shape, kind: Kind, slots: seq<int>, v: Work, w: Work, stride: nat,
                    now: seq<real>, next: seq<real>, source: seq<real>, numBlocks: nat)
    requires s.Valid() && SlotsOk(slots, s, numBlocks) && Doable(s, slots, v) && Doable(s, slots, w) && v != w
    requires HeadStored(s, kind, slots[v.token], v.head, now, source, Source(s, stride, v))
    requires OnlyHead(s, kind, slots[w.token], w.head, now, next)
    ensures HeadStored(s, kind, slots[v.token], v.head, next, source, Source(s, stride, v))
  {
    hide Cell, Source, CellOf, Doable, SlotsOk;
    DoableIs(s, slots, v);
    DoableIs(s, slots, w);
    forall d: nat | d < s.headSize
      ensures next[Cell(s, kind, slots[v.token], v.head, d)] == now[Cell(s, kind, slots[v.token], v.head, d)]
    {
      Elsewhere(s, kind, slots, v, w, d, numBlocks);
    }
  }

  lemma Elsewhere(s: Shape, kind: Kind, slots: seq<int>, v: Work, w: Work, d: nat, numBlocks: nat)
    requires s.Valid() && SlotsOk(slots, s, numBlocks) && Doable(s, slots, v) && Doable(s, slots, w) && v != w && d < s.headSize
    ensures !CellOf(s, kind, slots[w.token], w.head, Cell(s, kind, slots[v.token], v.head, d))
  {
    hide Cell;
    forall e: nat | e < s.headSize
      ensures Cell(s, kind, slots[w.token], w.head, e) != Cell(s, kind, slots[v.token], v.head, d)
    {
      if Cell(s, kind, slots[w.token], w.head, e) == Cell(s, kind, slots[v.token], v.head, d) {
        CellsInjective(s, kind, slots[w.token], w.head, e, slots[v.token], v.head, d);
      }
    }
  }

  lemma StoredNothing(s: Shape, kind: Kind, slots: seq<int>, stride: nat, before: seq<real>, source: seq<real>)
    requires s.x > 0 && s.blockSize > 0
    ensures Stored(s, kind, slots, {}, stride, before, before, source)
  {
  }

  /** A padded token stores nothing. */
  lemma StoredSkip(s: Shape, kind: Kind, slots: seq<int>, done: set<Work>, w: Work, stride: nat,
                   before: seq<real>, now: seq<real>, source: seq<real>)
    requires s.x > 0 && s.blockSize > 0 && !Doable(s, slots, w) && Stored(s, kind, slots, done, stride, before, now, source)
    ensures Stored(s, kind, slots, done + {w}, stride, before, now, source)
  {
    assert forall v | v in done + {w} && Doable(s, slots, v) :: v in done;
  }

  function AllWork(s: Shape, slots: seq<int>): set<Work> {
    set t, h | 0 <= t < |slots| && 0 <= h < s.numHeads :: Work(t, h)
  }

  /** `reshape_and_cache_cpu_impl` (34-78). */
  method ReshapeAndCache(key: array<real>, value: array<real>, keyCache: array<real>, valueCache: array<real>, slotMapping: seq<int>,
                         s: Shape, keyStride: nat, valueStride: nat, ghost numBlocks: nat)
    requires s.Valid() && SlotsOk(slotMapping, s, numBlocks)
    requires keyCache.Length == numBlocks * s.BlockElems() == valueCache.Length
    requires forall w | w in AllWork(s, slotMapping) ::
      Source(s, keyStride, w) + s.headSize <= key.Length && Source(s, valueStride, w) + s.headSize <= value.Length
    requires keyCache != valueCache && key != keyCache && key != valueCache && value != keyCache && value != valueCache
    modifies keyCache, valueCache
    ensures Stored(s, Keys, slotMapping, AllWork(s, slotMapping), keyStride, old(keyCache[..]), keyCache[..], key[..])
    ensures Stored(s, Values, slotMapping, AllWork(s, slotMapping), valueStride, old(valueCache[..]), valueCache[..], value[..])
  {
    hide Cell, CellOf, HeadStored, OnlyHead, Stored, SlotsOk;
    ghost var keys, values, keySource, valueSource := keyCache[..], valueCache[..], key[..], value[..];
    var pending, done: set<Work> := AllWork(s, slotMapping), {};
    StoredNothing(s, Keys, slotMapping, keyStride, keys, keySource);
    StoredNothing(s, Values, slotMapping, valueStride, values, valueSource);
    while pending != {}
      invariant key[..] == keySource && value[..] == valueSource
      invariant done + pending == AllWork(s, slotMapping) && done !! pending
      invariant Stored(s, Keys, slotMapping, done, keyStride, keys, keyCache[..], keySource)
      invariant Stored(s, Values, slotMapping, done, valueStride, values, valueCache[..], valueSource)
      decreases |pending|
    {
      var w :| w in pending;
      assert w in AllWork(s, slotMapping);
      var slot := slotMapping[w.token];
      if slot >= 0 {
        ghost var keysNow, valuesNow := keyCache[..], valueCache[..];
        SlotBound(slotMapping, s, numBlocks, w.token);
        StoreHead(key, value, keyCache, valueCache, s, slot, w.head, Source(s, keyStride, w), Source(s, valueStride, w), numBlocks);
        StoredNext(s, Keys, slotMapping, done, w, keyStride, keys, keysNow, keyCache[..], keySource, numBlocks);
        StoredNext(s, Values, slotMapping, done, w, valueStride, values, valuesNow, valueCache[..], valueSource, numBlocks);
      } else {
        StoredSkip(s, Keys, slotMapping, done, w, keyStride, keys, keyCache[..], keySource);
        StoredSkip(s, Values, slotMapping, done, w, valueStride, values, valueCache[..], valueSource);
      }
      pending, done := pending - {w}, done + {w};
    }
    assert done == AllWork(s, slotMapping);
  }

  lemma SlotBound(slots: seq<int>, s: Shape, numBlocks: nat, i: nat)
    requires SlotsOk(slots, s, numBlocks) && i < |slots|
    ensures slots[i] < numBlocks * s.blockSize
  {
  }

  // ---- copying blocks -----------------------------------------------------------------------------------------

  datatype Copy = Copy(source: nat, target: nat)

  /** Block `b` of a cache. */
  function BlockOf(cache: seq<real>, elems: nat, b: nat): (r: seq<real>)
    requires b * elems + elems <= |cache|
    ensures |r| == elems
  {
    cache[b * elems..b * elems + elems]
  }

  ghost predicate CopiesOk(pairs: set<Copy>, numBlocks: nat) {
    && (forall p | p in pairs :: p.source < numBlocks && p.target < numBlocks)
    && (forall p, q | p in pairs && q in pairs :: p.target != q.source)
    && (forall p, q | p in pairs && q in pairs && p.target == q.target :: p == q)
  }

  lemma BlockFits(b: nat, numBlocks: nat, elems: nat)
    requires b < numBlocks
    ensures b * elems + elems <= numBlocks * elems
  {
    MulLess(b, numBlocks, elems);
  }

  /** The pairs `done` have been copied: each target holds what its source held at the start, nothing else changed. */
  ghost predicate Copied(pairs: set<Copy>, done: set<Copy>, numBlocks: nat, elems: nat, before: seq<real>, after: seq<real>) {
    && |after| == |before| == numBlocks * elems && done <= pairs
    && forall b: nat | b < numBlocks ::
         b * elems + elems <= |before|
         && (forall p | p in done && p.target == b ::
               p.source * elems + elems <= |before| && BlockOf(after, elems, b) == BlockOf(before, elems, p.source))
         && ((forall p | p in done :: p.target != b) ==> BlockOf(after, elems, b) == BlockOf(before, elems, b))
  }

  /** Overwriting one block with another changes that block only. */
  lemma BlockReplaced(now: seq<real>, elems: nat, block: seq<real>, target: nat, b: nat, numBlocks: nat)
    requires |now| == numBlocks * elems && |block| == elems && target < numBlocks && b < numBlocks
    ensures target * elems + elems <= |now| && b * elems + elems <= |now|
    ensures var next := now[..target * elems] + block + now[target * elems + elems..];
      && |next| == |now| && BlockOf(next, elems, b) == if b == target then block else BlockOf(now, elems, b)
  {
    BlockFits(b, numBlocks, elems);
    BlockFits(target, numBlocks, elems);
    if b < target {
      BlockFits(b, target, elems);
    } else if b > target {
      BlockFits(target, b, elems);
    }
    var start, from := b * elems, target * elems;
    ReplacedAt(now, block, from, start);
  }

  lemma ReplacedAt(now: seq<real>, block: seq<real>, from: nat, start: nat)
    requires from + |block| <= |now| && start + |block| <= |now|
    requires start == from || start + |block| <= from || from + |block| <= start
    ensures (now[..from] + block + now[from + |block|..])[start..start + |block|]
            == if start == from then block else now[start..start + |block|]
  {
  }

  lemma CopiedNext(pairs: set<Copy>, done: set<Copy>, p: Copy, numBlocks: nat, elems: nat, before: seq<real>, now: seq<real>,
                   next: seq<real>)
    requires p.target * elems + elems <= |now| && p.source * elems + elems <= |now|
    requires next == now[..p.target * elems] + BlockOf(now, elems, p.source) + now[p.target * elems + elems..]
    requires CopiesOk(pairs, numBlocks) && Copied(pairs, done, numBlocks, elems, before, now) && p in pairs && p !in done
    ensures Copied(pairs, done + {p}, numBlocks, elems, before, next)
  {
    hide BlockOf;
    assert BlockOf(now, elems, p.source) == BlockOf(before, elems, p.source);
    var block := BlockOf(now, elems, p.source);
    forall b: nat | b < numBlocks
      ensures b * elems + elems <= |before| && |next| == |now|
      ensures BlockOf(next, elems, b) == if b == p.target then block else BlockOf(now, elems, b)
    {
      BlockReplaced(now, elems, block, p.target, b, numBlocks);
    }
  }

  lemma CopiedNothing(pairs: set<Copy>, numBlocks: nat, elems: nat, before: seq<real>)
    requires |before| == numBlocks * elems
    ensures Copied(pairs, {}, numBlocks, elems, before, before)
  {
    forall b: nat | b < numBlocks ensures b * elems + elems <= |before| {
      BlockFits(b, numBlocks, elems);
    }
  }

  lemma CopyInBounds(pairs: set<Copy>, p: Copy, numBlocks: nat, elems: nat)
    requires CopiesOk(pairs, numBlocks) && p in pairs
    ensures p.source * elems + elems <= numBlocks * elems && p.target * elems + elems <= numBlocks * elems
    ensures p.source * elems + elems <= p.target * elems || p.target * elems + elems <= p.source * elems
  {
    BlockFits(p.source, numBlocks, elems);
    BlockFits(p.target, numBlocks, elems);
    if p.source < p.target {
      BlockFits(p.source, p.target, elems);
    } else {
      BlockFits(p.target, p.source, elems);
    }
  }

  /** The cache `was` after `memcpy` of `n` elements. */
  ghost function Overlaid(was: seq<real>, source: nat, target: nat, n: nat): seq<real>
    requires source + n <= |was| && target + n <= |was|
  {
    was[..target] + was[source..source + n] + was[target + n..]
  }

  lemma OverlaidNext(was: seq<real>, source: nat, target: nat, n: nat)
    requires source + n < |was| && target + n < |was| && (source + n < target || target + n < source)
    ensures Overlaid(was, source, target, n)[source + n] == was[source + n]
    ensures Overlaid(was, source, target, n + 1) == Overlaid(was, source, target, n)[target + n := was[source + n]]
  {
    assert was[source..source + n + 1] == was[source..source + n] + [was[source + n]];
    assert was[target + n..] == [was[target + n]] + was[target + n + 1..];
  }

  /** `memcpy` of one block, whose source and target do not overlap. */
  method CopyBlock(cache: array<real>, source: nat, target: nat, n: nat)
    requires source + n <= cache.Length && target + n <= cache.Length && (source + n <= target || target + n <= source)
    modifies cache
    ensures cache[..] == Overlaid(old(cache[..]), source, target, n)
  {
    hide Overlaid;
    ghost var was := cache[..];
    NothingOverlaid(was, source, target);
    for i := 0 to n
      invariant cache[..] == Overlaid(was, source, target, i)
    {
      OverlaidNext(was, source, target, i);
      assert cache[..][source + i] == was[source + i];
      cache[target + i] := cache[source + i];
    }
  }

  lemma NothingOverlaid(was: seq<real>, source: nat, target: nat)
    requires source <= |was| && target <= |was|
    ensures Overlaid(was, source, target, 0) == was
  {
  }

  /** One pair, after those of `done`. */
  method CopyPair(cache: array<real>, p: Copy, elementNumPerBlock: nat, ghost pairs: set<Copy>, ghost done: set<Copy>,
                  ghost numBlocks: nat, ghost before: seq<real>)
    requires CopiesOk(pairs, numBlocks) && cache.Length == numBlocks * elementNumPerBlock && p in pairs && p !in done
    requires Copied(pairs, done, numBlocks, elementNumPerBlock, before, cache[..])
    modifies cache
    ensures Copied(pairs, done + {p}, numBlocks, elementNumPerBlock, before, cache[..])
  {
    hide Copied, CopiesOk;
    CopyInBounds(pairs, p, numBlocks, elementNumPerBlock);
    ghost var now := cache[..];
    CopyBlock(cache, p.source * elementNumPerBlock, p.target * elementNumPerBlock, elementNumPerBlock);
    CopiedNext(pairs, done, p, numBlocks, elementNumPerBlock, before, now, cache[..]);
  }

  // ---- all layers -------------------------------------------------------------------------------------------------

  /** One iteration of the collapsed loops of `copy_blocks_cpu_impl`. */
  datatype LayerCopy = LayerCopy(layer: nat, pair: Copy)

  function AllCopies(layers: nat, pairs: set<Copy>): set<LayerCopy> {
    set layer, p | 0 <= layer < layers && p in pairs :: LayerCopy(layer, p)
  }

  /** The pairs that have been copied in one layer. */
  ghost function DoneIn(done: set<LayerCopy>, layer: nat): set<Copy> {
    set c | c in done && c.layer == layer :: c.pair
  }

  /** The caches of all layers, each a tensor of its own. */
  ghost predicate Layered(keys: seq<array<real>>, values: seq<array<real>>, length: nat) {
    && |keys| == |values|
    && (forall i | 0 <= i < |keys| :: keys[i].Length == length == values[i].Length)
    && (forall i,
        j | 0 <= i < |keys| && 0 <= j < |keys| :: keys[i] != values[j] && (i != j ==> keys[i] != keys[j] && values[i] != values[j]))
  }

  ghost function Contents(caches: seq<array<real>>): (r: seq<seq<real>>)
    reads caches
    ensures |r| == |caches| && forall i | 0 <= i < |r| :: r[i] == caches[i][..]
  {
    seq(|caches|, i requires 0 <= i < |caches| reads caches => caches[i][..])
  }

  /** In every layer just the pairs of `done` have been copied. */
  ghost predicate LayersCopied(pairs: set<Copy>, done: set<LayerCopy>, numBlocks: nat, elems: nat, before: seq<seq<real>>,
                               after: seq<seq<real>>) {
    |after| == |before| && forall i | 0 <= i < |before| :: Copied(pairs, DoneIn(done, i), numBlocks, elems, before[i], after[i])
  }

  lemma LayersNext(pairs: set<Copy>, done: set<LayerCopy>, c: LayerCopy, numBlocks: nat, elems: nat, before: seq<seq<real>>,
                   now: seq<seq<real>>, after: seq<seq<real>>)
    requires LayersCopied(pairs, done, numBlocks, elems, before, now) && c.layer < |before| == |after|
    requires Copied(pairs, DoneIn(done, c.layer) + {c.pair}, numBlocks, elems, before[c.layer], after[c.layer])
    requires forall i | 0 <= i < |before| && i != c.layer :: after[i] == now[i]
    ensures LayersCopied(pairs, done + {c}, numBlocks, elems, before, after)
  {
    hide Copied;
    forall i | 0 <= i < |before| ensures DoneIn(done + {c}, i) == if i == c.layer then DoneIn(done, i) + {c.pair} else DoneIn(done, i) {
    }
  }

  lemma LayersStart(pairs: set<Copy>, numBlocks: nat, elems: nat, before: seq<seq<real>>)
    requires forall i | 0 <= i < |before| :: |before[i]| == numBlocks * elems
    ensures LayersCopied(pairs, {}, numBlocks, elems, before, before)
  {
    forall i | 0 <= i < |before| ensures Copied(pairs, DoneIn({}, i), numBlocks, elems, before[i], before[i]) {
      CopiedNothing(pairs, numBlocks, elems, before[i]);
    }
  }

  lemma LayersEnd(pairs: set<Copy>, layers: nat, i: nat)
    requires i < layers
    ensures DoneIn(AllCopies(layers, pairs), i) == pairs
  {
    forall p | p in pairs ensures p in DoneIn(AllCopies(layers, pairs), i) {
      assert LayerCopy(i, p) in AllCopies(layers, pairs);
    }
  }

  /** One pair in the key and in the value cache of one layer. */
  method CopyInLayer(keys: seq<array<real>>, values: seq<array<real>>, c: LayerCopy, elementNumPerBlock: nat, ghost pairs: set<Copy>,
                     ghost done: set<LayerCopy>, ghost numBlocks: nat, ghost keys0: seq<seq<real>>, ghost values0: seq<seq<real>>)
    requires CopiesOk(pairs, numBlocks) && Layered(keys, values, numBlocks * elementNumPerBlock)
    requires c.layer < |keys| && c.pair in pairs && c !in done && |keys0| == |keys| == |values0|
    requires LayersCopied(pairs, done, numBlocks, elementNumPerBlock, keys0, Contents(keys))
    requires LayersCopied(pairs, done, numBlocks, elementNumPerBlock, values0, Contents(values))
    modifies keys[c.layer], values[c.layer]
    ensures LayersCopied(pairs, done + {c}, numBlocks, elementNumPerBlock, keys0, Contents(keys))
    ensures LayersCopied(pairs, done + {c}, numBlocks, elementNumPerBlock, values0, Contents(values))
  {
    hide Copied, CopiesOk, Contents;
    ghost var keysNow, valuesNow := Contents(keys), Contents(values);
    assert c.pair !in DoneIn(done, c.layer);
    CopyPair(keys[c.layer], c.pair, elementNumPerBlock, pairs, DoneIn(done, c.layer), numBlocks, keys0[c.layer]);
    CopyPair(values[c.layer], c.pair, elementNumPerBlock, pairs, DoneIn(done, c.layer), numBlocks, values0[c.layer]);
    LayersNext(pairs, done, c, numBlocks, elementNumPerBlock, keys0, keysNow, Contents(keys));
    LayersNext(pairs, done, c, numBlocks, elementNumPerBlock, values0, valuesNow, Contents(values));
  }

  /** `copy_blocks_cpu_impl` (8-32): in every layer the pairs copy, in any order, as if all at once. */
  method CopyBlocks(keys: seq<array<real>>, values: seq<array<real>>, pairs: set<Copy>, elementNumPerBlock: nat, ghost numBlocks: nat)
    requires CopiesOk(pairs, numBlocks) && Layered(keys, values, numBlocks * elementNumPerBlock)
    modifies keys, values
    ensures forall i | 0 <= i < |keys| ::
      && Copied(pairs, pairs, numBlocks, elementNumPerBlock, old(keys[i][..]), keys[i][..])
      && Copied(pairs, pairs, numBlocks, elementNumPerBlock, old(values[i][..]), values[i][..])
  {
    hide Copied, CopiesOk, Contents, LayersCopied;
    ghost var keys0, values0 := Contents(keys), Contents(values);
    var pending, done: set<LayerCopy> := AllCopies(|keys|, pairs), {};
    LayersStart(pairs, numBlocks, elementNumPerBlock, keys0);
    LayersStart(pairs, numBlocks, elementNumPerBlock, values0);
    while pending != {}
      invariant done + pending == AllCopies(|keys|, pairs) && done !! pending
      invariant LayersCopied(pairs, done, numBlocks, elementNumPerBlock, keys0, Contents(keys))
      invariant LayersCopied(pairs, done, numBlocks, elementNumPerBlock, values0, Contents(values))
      decreases |pending|
    {
      var c :| c in pending;
      assert c in AllCopies(|keys|, pairs);
      CopyInLayer(keys, values, c, elementNumPerBlock, pairs, done, numBlocks, keys0, values0);
      pending, done := pending - {c}, done + {c};
    }
    assert done == AllCopies(|keys|, pairs);
    forall i | 0 <= i < |keys|
      ensures Copied(pairs, pairs, numBlocks, elementNumPerBlock, keys0[i], keys[i][..])
      ensures Copied(pairs, pairs, numBlocks, elementNumPerBlock, values0[i], values[i][..])
    {
      LayersEnd(pairs, |keys|, i);
      LayerIs(pairs, done, numBlocks, elementNumPerBlock, keys0, Contents(keys), i);
      LayerIs(pairs, done, numBlocks, elementNumPerBlock, values0, Contents(values), i);
    }
  }

  lemma LayerIs(pairs: set<Copy>, done: set<LayerCopy>, numBlocks: nat, elems: nat, before: seq<seq<real>>, after: seq<seq<real>>, i: nat)
    requires LayersCopied(pairs, done, numBlocks, elems, before, after) && i < |before|
    ensures |after| == |before| && Copied(pairs, DoneIn(done, i), numBlocks, elems, before[i], after[i])
  {
    hide Copied;
  }
}
