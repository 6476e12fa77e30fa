/** Paged, shared and swapped KV memory behaves like one private list of KV entries per sequence.

    The scheduler changes block tables at once, but the worker moves memory later: after a scheduling step it
    performs all the swaps, then all the copies, then writes one new entry for each sequence that decodes. */
module KvRefinement {
  import opened Blocks
  import opened Paging
  import opened Swapping
  import opened Sequences
  import opened Arithmetic

  /** `kv[id]` is the private list of entries that sequence `id` has computed. */
  datatype System<B, K> = System(
    gpu: set<B>, cpu: set<B>, blockSize: nat, ledger: Ledger<B>, memory: map<B, seq<K>>, kv: map<int, seq<K>>)

  /** The worker's view: entry `j` of a sequence lies in slot `j % blockSize` of block `j / blockSize` of its table. */
  ghost predicate Shows<B, K>(memory: map<B, seq<K>>, table: seq<B>, blockSize: nat, kv: seq<K>)
    requires blockSize > 0
  {
    forall j | 0 <= j < |kv| ::
      && j / blockSize < |table| && table[j / blockSize] in memory
      && j % blockSize < |memory[table[j / blockSize]]|
      && memory[table[j / blockSize]][j % blockSize] == kv[j]
  }

  ghost predicate Shaped<B, K>(memory: map<B, seq<K>>, blocks: set<B>, blockSize: nat) {
    memory.Keys == blocks && forall b | b in memory :: |memory[b]| == blockSize
  }

  /** Between steps: the counts are safe, tables are as long as needed, and every table shows its private list. */
  ghost predicate Refines<B, K>(s: System<B, K>) {
    && s.blockSize > 0 && s.gpu !! s.cpu
    && Sound(s.ledger, s.gpu, s.cpu) && Shaped(s.memory, s.gpu + s.cpu, s.blockSize)
    && s.kv.Keys == s.ledger.tables.Keys
    && forall id | id in s.kv ::
         && |s.ledger.tables[id]| == NumBlocks(|s.kv[id]|, s.blockSize)
         && Shows(s.memory, s.ledger.tables[id], s.blockSize, s.kv[id])
  }

  /** Every block that is a key of `from` receives the contents that `from[b]` had. */
  ghost function Transferred<B, K>(memory: map<B, seq<K>>, from: map<B, B>): map<B, seq<K>>
  {
    map b | b in memory :: if b in from && from[b] in memory then memory[from[b]] else memory[b]
  }

  // ---- one scheduling step --------------------------------------------------------------------------------

  /** What a step has decided so far.  `swaps` and `copies` map each target block to its source.  `touched` are the
      sequences of the groups that were swapped or whose turn to append has come. */
  datatype Batch<B> = Batch(ledger: Ledger<B>, swaps: map<B, B>, copies: map<B, B>, appended: set<int>, touched: set<int>)

  /** `Append`: `append_slots` for one sequence, `unused` being the block it takes if it needs one.
      `Release`: a preempted sequence loses its table.  `Exchange`: a group moves to the other device. */
  datatype Event<B> =
    | Begin(ids: seq<int>)
    | Append(id: int, unused: B)
    | Release(id: int)
    | Exchange(ids: seq<int>, mapping: map<B, B>, next: Ledger<B>)

  /** After the swaps and the copies, before the writes. */
  ghost function Moved<B, K>(memory: map<B, seq<K>>, q: Batch<B>): (r: map<B, seq<K>>)
    ensures r.Keys == memory.Keys
  {
    Transferred(Transferred(memory, q.swaps), q.copies)
  }

  ghost function Inverse<B>(mapping: map<B, B>): (r: map<B, B>)
    requires forall a, b | a in mapping && b in mapping :: mapping[a] == mapping[b] ==> a == b
    ensures forall b | b in mapping :: mapping[b] in r && r[mapping[b]] == b
    ensures forall c | c in r :: r[c] in mapping && mapping[r[c]] == c
  {
    map b | b in mapping :: mapping[b] := b
  }

  /** Tables and counts during a step: a sequence that has appended holds its last block alone. */
  ghost predicate TablesOk<B, K>(s: System<B, K>, q: Batch<B>)
    requires s.blockSize > 0
  {
    && Sound(q.ledger, s.gpu, s.cpu) && q.ledger.tables.Keys <= s.kv.Keys
    && q.appended <= q.touched * q.ledger.tables.Keys
    && (forall id | id in q.ledger.tables && id !in q.appended ::
          |q.ledger.tables[id]| == NumBlocks(|s.kv[id]|, s.blockSize))
    && (forall id | id in q.appended ::
          && |q.ledger.tables[id]| == NumBlocks(|s.kv[id]| + 1, s.blockSize) && q.ledger.tables[id] != []
          && Holders(q.ledger.tables, Last(q.ledger.tables[id])) == {id})
  }

  /** Targets are in use, no source is used twice, and no copy reads what a copy writes. */
  ghost predicate TransfersOk<B, K>(s: System<B, K>, q: Batch<B>, src: set<B>, dst: set<B>) {
    SwapsOk(q, src, dst) && CopiesOk(s, q)
  }

  ghost predicate SwapsOk<B>(q: Batch<B>, src: set<B>, dst: set<B>) {
    && (forall c | c in q.swaps :: c in dst && q.swaps[c] in src && c in q.ledger.refs && q.ledger.refs[c] > 0)
    && (forall c, d | c in q.swaps && d in q.swaps :: q.swaps[c] == q.swaps[d] ==> c == d)
  }

  ghost predicate CopiesOk<B, K>(s: System<B, K>, q: Batch<B>) {
    && (forall c | c in q.copies ::
          && c in s.gpu && c in q.ledger.refs && q.ledger.refs[c] > 0
          && q.copies[c] in s.gpu && q.copies[c] in q.ledger.refs && q.ledger.refs[q.copies[c]] > 0
          && q.copies[c] !in q.copies)
  }

  ghost predicate Involved<B>(q: Batch<B>, b: B) {
    b in q.swaps || b in q.copies || (exists c :: c in q.swaps && q.swaps[c] == b) || (exists c :: c in q.copies && q.copies[c] == b)
  }

  /** Blocks of untouched sequences take no part in any transfer, and a copy's target belongs to one that appended. */
  ghost predicate Uninvolved<B>(q: Batch<B>) {
    && (forall id, b | id in q.ledger.tables && id !in q.touched && b in q.ledger.tables[id] :: !Involved(q, b))
    && (forall id, b | id in q.ledger.tables && id !in q.appended && b in q.ledger.tables[id] :: b !in q.copies)
    && (forall id, b | id in q.ledger.tables && id in q.touched && b in q.ledger.tables[id] ::
          Holders(q.ledger.tables, b) <= q.touched)
  }

  ghost predicate BatchOk<B, K>(s: System<B, K>, q: Batch<B>, src: set<B>, dst: set<B>) {
    && s.blockSize > 0 && src !! dst && s.gpu + s.cpu == src + dst && Shaped(s.memory, src + dst, s.blockSize)
    && TablesOk(s, q) && TransfersOk(s, q, src, dst) && Uninvolved(q)
    && forall id | id in q.ledger.tables :: Shows(Moved(s.memory, q), q.ledger.tables[id], s.blockSize, s.kv[id])
  }

  /** `append_slots` will need a block for `id`. */
  ghost predicate Takes<B, K>(s: System<B, K>, q: Batch<B>, id: int)
    requires s.blockSize > 0
  {
    && id in q.ledger.tables && id in s.kv
    && var n, t := NumBlocks(|s.kv[id]| + 1, s.blockSize), q.ledger.tables[id];
    && (n <= |t| ==> t != [] && Last(t) in q.ledger.refs) && NeedsBlock(q.ledger, id, n)
  }

  /** What the scheduler guarantees of each event: blocks it takes are unused, and blocks are shared only within a
      group (as the source assumes, vllm/core/block_manager_v1.py:435-436). */
  ghost predicate Legal<B, K>(s: System<B, K>, q: Batch<B>, e: Event<B>, src: set<B>, dst: set<B>)
    requires s.blockSize > 0
  {
    match e
    case Begin(ids) =>
      forall id, b | id in ids && id in q.ledger.tables && b in q.ledger.tables[id] ::
        Holders(q.ledger.tables, b) <= q.touched + Elements(ids)
    case Append(id, unused) =>
      && id in q.touched && id !in q.appended && id in q.ledger.tables && LiesIn(q.ledger.tables[id], s.gpu)
      && (Takes(s, q, id) ==> unused in s.gpu && unused in FreeSet(q.ledger))
    case Release(id) =>
      id in q.ledger.tables && id !in q.touched
    case Exchange(ids, mapping, next) =>
      && (forall id | id in ids :: id !in q.touched) && AllOn(q.ledger.tables, ids, src)
      && Covered(q.ledger) && MovedTables(q.ledger, next, ids, mapping, src, dst)
      && WellFormed(next.tables, s.gpu, s.cpu)
      && forall b | b in mapping :: Holders(q.ledger.tables, b) <= Elements(ids)
  }

  /** `append_slots` for a sequence of `n` logical blocks: a block taken in place of a shared one is copied into. */
  ghost function AfterAppend<B>(q: Batch<B>, id: int, n: nat, unused: B): Batch<B>
    requires Covered(q.ledger) && id in q.ledger.tables
    requires n <= |q.ledger.tables[id]| ==> q.ledger.tables[id] != [] && Last(q.ledger.tables[id]) in q.ledger.refs
  {
    var t := q.ledger.tables[id];
    if !NeedsBlock(q.ledger, id, n) then q.(appended := q.appended + {id})
    else Batch(Recounted(q.ledger, q.ledger.tables[id := AppendedTable(q.ledger, id, n, unused)]), q.swaps,
               if |t| < n then q.copies else q.copies[unused := Last(t)], q.appended + {id}, q.touched)
  }

  lemma AppendDefined<B, K>(s: System<B, K>, q: Batch<B>, id: int, src: set<B>, dst: set<B>)
    requires BatchOk(s, q, src, dst)
    requires id in q.ledger.tables && id !in q.appended && LiesIn(q.ledger.tables[id], s.gpu)
    ensures Covered(q.ledger) && id in s.kv
    ensures var n, t := NumBlocks(|s.kv[id]| + 1, s.blockSize), q.ledger.tables[id];
      && |t| <= n <= |t| + 1 && (n <= |t| ==> t != [] && Last(t) in q.ledger.refs)
      && n == |s.kv[id]| / s.blockSize + 1
  {
    hide Covered, WellFormed, Shows, Uninvolved, TransfersOk, Moved;
    BlockCountGrows(|s.kv[id]|, s.blockSize);
  }

  ghost function Apply<B, K>(s: System<B, K>, q: Batch<B>, e: Event<B>, src: set<B>, dst: set<B>): Batch<B>
    requires BatchOk(s, q, src, dst) && Legal(s, q, e, src, dst)
  {
    match e
    case Begin(ids) => q.(touched := q.touched + Elements(ids))
    case Append(id, unused) =>
      AppendDefined(s, q, id, src, dst);
      AfterAppend(q, id, NumBlocks(|s.kv[id]| + 1, s.blockSize), unused)
    case Release(id) => q.(ledger := Recounted(q.ledger, q.ledger.tables - {id}))
    case Exchange(ids, mapping, next) =>
      q.(ledger := next, swaps := q.swaps + Inverse(mapping), touched := q.touched + Elements(ids))
  }

  // ---- each event keeps the batch in order -------------------------------------------------------------------

  lemma BeginApart<B>(q: Batch<B>, ids: seq<int>)
    requires Uninvolved(q)
    requires forall id, b | id in ids && id in q.ledger.tables && b in q.ledger.tables[id] ::
        Holders(q.ledger.tables, b) <= q.touched + Elements(ids)
    ensures Uninvolved(q.(touched := q.touched + Elements(ids)))
  {
    hide Holders;
    var r := q.(touched := q.touched + Elements(ids));
    forall id, b | id in r.ledger.tables && id !in r.touched && b in r.ledger.tables[id] ensures !Involved(r, b) {
      assert id !in q.touched && !Involved(q, b);
    }
    forall id, b | id in r.ledger.tables && id in r.touched && b in r.ledger.tables[id]
      ensures Holders(r.ledger.tables, b) <= r.touched
    {
      assert id in q.touched || id in ids;
    }
  }

  lemma BeginKeeps<B, K>(s: System<B, K>, q: Batch<B>, ids: seq<int>, src: set<B>, dst: set<B>)
    requires BatchOk(s, q, src, dst) && Legal(s, q, Begin(ids), src, dst)
    ensures BatchOk(s, Apply(s, q, Begin(ids), src, dst), src, dst)
  {
    hide Covered, WellFormed, Shows, Holders, Uninvolved;
    BeginApart(q, ids);
    SameMoves(s.memory, q, Apply(s, q, Begin(ids), src, dst));
  }

  /** What `append_slots` does to the tables when it takes the block `unused`. */
  lemma TakenShape<B>(l: Ledger<B>, gpu: set<B>, cpu: set<B>, id: int, n: nat, unused: B)
    requires Sound(l, gpu, cpu) && id in l.tables && LiesIn(l.tables[id], gpu)
    requires |l.tables[id]| <= n <= |l.tables[id]| + 1 && (n <= |l.tables[id]| ==> l.tables[id] != [])
    requires NeedsBlock(l, id, n) && unused in FreeSet(l) && unused in gpu
    ensures var t' := AppendedTable(l, id, n, unused); var r := Recounted(l, l.tables[id := t']);
      && Sound(r, gpu, cpu) && |t'| == n && Last(t') == unused
      && (forall k | 0 <= k < n - 1 :: t'[k] == l.tables[id][k])
      && (forall b | b in t' && b != unused :: b in l.tables[id])
      && (forall b | b in l.refs && l.refs[b] > 0 :: r.refs[b] > 0) && r.refs[unused] > 0
      && (forall b | b in l.refs && b != unused :: Holders(r.tables, b) <= Holders(l.tables, b))
      && (forall b | b in l.refs && b !in l.tables[id] && b != unused :: Holders(r.tables, b) == Holders(l.tables, b))
      && Holders(r.tables, unused) == {id}
    ensures forall other | other in l.tables :: unused !in l.tables[other]
  {
    hide Covered, Slack, WellFormed, TableOk, Recounted;
    AppendRecounts(l, gpu, cpu, id, n, unused);
    FreeBlockHasNoHolder(l, unused);
    forall b | b in l.refs {
      HoldersAfterAppend(l, gpu, cpu, id, n, unused, b);
    }
  }

  /** The batch after `append_slots` has taken a block for `id`. */
  ghost predicate Took<B, K>(s: System<B, K>, q: Batch<B>, id: int, n: nat, unused: B, src: set<B>, dst: set<B>) {
    && BatchOk(s, q, src, dst) && Legal(s, q, Append(id, unused), src, dst)
    && id in s.kv && n == NumBlocks(|s.kv[id]| + 1, s.blockSize)
    && |q.ledger.tables[id]| <= n <= |q.ledger.tables[id]| + 1
    && (n <= |q.ledger.tables[id]| ==> q.ledger.tables[id] != [] && Last(q.ledger.tables[id]) in q.ledger.refs)
    && NeedsBlock(q.ledger, id, n)
  }

  lemma TookTables<B, K>(s: System<B, K>, q: Batch<B>, id: int, n: nat, unused: B, src: set<B>, dst: set<B>)
    requires Took(s, q, id, n, unused, src, dst)
    ensures TablesOk(s, AfterAppend(q, id, n, unused))
  {
    hide Covered, Slack, WellFormed, TableOk, Recounted, Shows, Moved, TransfersOk, Uninvolved, NeedsBlock, AppendedTable;
    TakenShape(q.ledger, s.gpu, s.cpu, id, n, unused);
    var r := AfterAppend(q, id, n, unused);
    forall other | other in r.appended
      ensures Holders(r.ledger.tables, Last(r.ledger.tables[other])) == {other}
    {
      if other != id {
        var b := Last(q.ledger.tables[other]);
        assert b in q.ledger.tables[other];
        assert b in q.ledger.tables[id] ==> id in Holders(q.ledger.tables, b);
      }
    }
  }

  /** Every block in use stays in use. */
  ghost predicate StillUsed<B>(l: Ledger<B>, next: Ledger<B>) {
    next.refs.Keys == l.refs.Keys && forall b | b in l.refs && l.refs[b] > 0 :: next.refs[b] > 0
  }

  lemma TookTransfers<B, K>(s: System<B, K>, q: Batch<B>, id: int, n: nat, unused: B, src: set<B>, dst: set<B>)
    requires Took(s, q, id, n, unused, src, dst)
    ensures TransfersOk(s, AfterAppend(q, id, n, unused), src, dst)
  {
    hide Covered, Slack, WellFormed, Recounted, Shows, Shaped, Holders, AppendedTable, CopiesOk, Involved, FreeSet, NeedsBlock;
    TakenShape(q.ledger, s.gpu, s.cpu, id, n, unused);
    var t, r := q.ledger.tables[id], AfterAppend(q, id, n, unused);
    if n <= |t| {
      LastCounted(q.ledger, s.gpu, s.cpu, id);
      assert Last(t) in t;
      CopiesGrow(s, q, r, unused, Last(t));
    } else {
      CopiesStay(s, q, r);
    }
  }

  lemma CopiesStay<B, K>(s: System<B, K>, q: Batch<B>, r: Batch<B>)
    requires CopiesOk(s, q) && StillUsed(q.ledger, r.ledger) && r.copies == q.copies
    ensures CopiesOk(s, r)
  {
  }

  lemma CopiesGrow<B, K>(s: System<B, K>, q: Batch<B>, r: Batch<B>, unused: B, last: B)
    requires CopiesOk(s, q) && StillUsed(q.ledger, r.ledger) && r.copies == q.copies[unused := last]
    requires unused in s.gpu && unused in FreeSet(q.ledger) && r.ledger.refs[unused] > 0
    requires last in s.gpu && last in q.ledger.refs && q.ledger.refs[last] > 0 && last !in q.copies
    ensures CopiesOk(s, r)
  {
  }

  lemma TookApart<B, K>(s: System<B, K>, q: Batch<B>, id: int, n: nat, unused: B, src: set<B>, dst: set<B>)
    requires Took(s, q, id, n, unused, src, dst)
    ensures Uninvolved(AfterAppend(q, id, n, unused))
  {
    hide Covered, Slack, WellFormed, TableOk, Recounted, Shows, Moved, AppendedTable, NeedsBlock;
    TakenShape(q.ledger, s.gpu, s.cpu, id, n, unused);
    TookTogether(s, q, id, n, unused, src, dst);
    var r := AfterAppend(q, id, n, unused);
    var t := q.ledger.tables[id];
    forall other, b | other in r.ledger.tables && other !in r.touched && b in r.ledger.tables[other]
      ensures !Involved(r, b)
    {
      assert !Involved(q, b);
      assert other in Holders(q.ledger.tables, b);
      assert n <= |t| ==> Last(t) in t && Holders(q.ledger.tables, Last(t)) <= q.touched;
    }
  }

  /** Sequences that were touched share blocks with none that were not. */
  lemma TookTogether<B, K>(s: System<B, K>, q: Batch<B>, id: int, n: nat, unused: B, src: set<B>, dst: set<B>)
    requires Took(s, q, id, n, unused, src, dst)
    ensures var r := AfterAppend(q, id, n, unused);
      forall other, b | other in r.ledger.tables && other in r.touched && b in r.ledger.tables[other] ::
        Holders(r.ledger.tables, b) <= r.touched
  {
    hide Covered, Slack, WellFormed, TableOk, Recounted, Shows, Moved, AppendedTable, NeedsBlock, Involved;
    TakenShape(q.ledger, s.gpu, s.cpu, id, n, unused);
    var r := AfterAppend(q, id, n, unused);
    forall other, b | other in r.ledger.tables && other in r.touched && b in r.ledger.tables[other]
      ensures Holders(r.ledger.tables, b) <= r.touched
    {
      assert b != unused ==> Holders(r.ledger.tables, b) <= Holders(q.ledger.tables, b);
    }
  }

  /** A table whose blocks, one by one, have the contents of another table's blocks shows the same entries. */
  lemma ShowsVia<B, K>(m: map<B, seq<K>>, m': map<B, seq<K>>, t: seq<B>, t': seq<B>, blockSize: nat, kv: seq<K>)
    requires blockSize > 0 && Shows(m, t, blockSize, kv) && |t| <= |t'|
    requires forall k | 0 <= k < |t| :: t[k] in m && t'[k] in m' && m'[t'[k]] == m[t[k]]
    ensures Shows(m', t', blockSize, kv)
  {
    forall j | 0 <= j < |kv| ensures j / blockSize < |t'| {
      assert j / blockSize < |t|;
    }
  }

  /** One more copy: its target takes on the contents of its source, and nothing else changes. */
  lemma CopyMemory<B, K>(memory: map<B, seq<K>>, q: Batch<B>, r: Batch<B>, unused: B, last: B)
    requires r.swaps == q.swaps && r.copies == q.copies[unused := last]
    requires unused in memory && last in memory && last !in q.copies
    ensures Moved(memory, r)[unused] == Moved(memory, q)[last]
    ensures forall b | b in memory && b != unused :: Moved(memory, r)[b] == Moved(memory, q)[b]
  {
  }

  lemma TookMemory<B, K>(s: System<B, K>, q: Batch<B>, id: int, n: nat, unused: B, src: set<B>, dst: set<B>)
    requires Took(s, q, id, n, unused, src, dst)
    ensures var r := AfterAppend(q, id, n, unused);
      && var m, m' := Moved(s.memory, q), Moved(s.memory, r);
      && (forall b | b in m && b != unused :: m'[b] == m[b])
      && (n <= |q.ledger.tables[id]| ==>
            unused in m' && Last(q.ledger.tables[id]) in m && m'[unused] == m[Last(q.ledger.tables[id])])
  {
    hide Covered, Slack, WellFormed, Recounted, Shows, NeedsBlock, AppendedTable, Holders, Involved, FreeSet, Moved, TransfersOk;
    var t, r := q.ledger.tables[id], AfterAppend(q, id, n, unused);
    if n <= |t| {
      assert Last(t) in t;
      CopyMemory(s.memory, q, r, unused, Last(t));
    } else {
      SameMoves(s.memory, q, r);
    }
  }

  lemma TookViews<B, K>(s: System<B, K>, q: Batch<B>, id: int, n: nat, unused: B, src: set<B>, dst: set<B>, other: int)
    requires Took(s, q, id, n, unused, src, dst) && other in AfterAppend(q, id, n, unused).ledger.tables
    ensures var r := AfterAppend(q, id, n, unused);
      other in s.kv && Shows(Moved(s.memory, r), r.ledger.tables[other], s.blockSize, s.kv[other])
  {
    hide Covered, Slack, WellFormed, Recounted, AppendedTable, Holders, Involved, Moved, Shows, Uninvolved, TransfersOk, FreeSet;
    TakenShape(q.ledger, s.gpu, s.cpu, id, n, unused);
    TookMemory(s, q, id, n, unused, src, dst);
    var r := AfterAppend(q, id, n, unused);
    var t, t' := q.ledger.tables[other], r.ledger.tables[other];
    InMemory(s, q, other, src, dst);
    ShowsVia(Moved(s.memory, q), Moved(s.memory, r), t, t', s.blockSize, s.kv[other]);
  }

  lemma InMemory<B, K>(s: System<B, K>, q: Batch<B>, id: int, src: set<B>, dst: set<B>)
    requires BatchOk(s, q, src, dst) && id in q.ledger.tables
    ensures Moved(s.memory, q).Keys == s.memory.Keys
    ensures forall b | b in q.ledger.tables[id] :: b in Moved(s.memory, q)
  {
    hide Covered, Shows, TransfersOk, Uninvolved;
    assert TableOk(q.ledger.tables[id], s.gpu, s.cpu);
  }

  lemma AppendKeeps<B, K>(s: System<B, K>, q: Batch<B>, id: int, unused: B, src: set<B>, dst: set<B>)
    requires BatchOk(s, q, src, dst) && Legal(s, q, Append(id, unused), src, dst)
    ensures BatchOk(s, Apply(s, q, Append(id, unused), src, dst), src, dst)
  {
    hide Covered, Slack, WellFormed, Recounted, AppendedTable, TablesOk, TransfersOk, Uninvolved, Moved, Shows;
    AppendDefined(s, q, id, src, dst);
    var n := NumBlocks(|s.kv[id]| + 1, s.blockSize);
    if NeedsBlock(q.ledger, id, n) {
      TookTables(s, q, id, n, unused, src, dst);
      TookTransfers(s, q, id, n, unused, src, dst);
      TookApart(s, q, id, n, unused, src, dst);
      var r := AfterAppend(q, id, n, unused);
      forall other | other in r.ledger.tables {
        TookViews(s, q, id, n, unused, src, dst, other);
      }
    } else {
      InPlaceKeeps(s, q, id, n, unused, src, dst);
    }
  }

  /** A last block that is counted once is held by this sequence alone. */
  lemma InPlaceKeeps<B, K>(s: System<B, K>, q: Batch<B>, id: int, n: nat, unused: B, src: set<B>, dst: set<B>)
    requires BatchOk(s, q, src, dst) && Legal(s, q, Append(id, unused), src, dst)
    requires id in s.kv && n == NumBlocks(|s.kv[id]| + 1, s.blockSize)
    requires |q.ledger.tables[id]| == n && q.ledger.tables[id] != [] && Last(q.ledger.tables[id]) in q.ledger.refs
    requires q.ledger.refs[Last(q.ledger.tables[id])] == 1
    ensures BatchOk(s, q.(appended := q.appended + {id}), src, dst)
  {
    hide WellFormed, Shows, Covered, Slack, Holders, Moved;
    ExclusiveLast(q.ledger, id);
    var r := q.(appended := q.appended + {id});
    forall other, c | other in r.ledger.tables && other !in r.touched && c in r.ledger.tables[other] ensures !Involved(r, c) {
      assert !Involved(q, c);
    }
    SameMoves(s.memory, q, r);
  }

  lemma SameMoves<B, K>(memory: map<B, seq<K>>, q: Batch<B>, r: Batch<B>)
    requires r.swaps == q.swaps && r.copies == q.copies
    ensures Moved(memory, r) == Moved(memory, q)
  {
  }

  lemma ExclusiveLast<B>(l: Ledger<B>, id: int)
    requires Covered(l) && id in l.tables && l.tables[id] != [] && Last(l.tables[id]) in l.refs
    requires l.refs[Last(l.tables[id])] == 1
    ensures Holders(l.tables, Last(l.tables[id])) == {id}
  {
    var b := Last(l.tables[id]);
    assert Slack(l, b) >= 0 && b in l.tables[id];
    Alone(Holders(l.tables, b), id);
  }

  lemma Alone(holders: set<int>, id: int)
    requires id in holders && |holders| <= 1
    ensures holders == {id}
  {
    assert |holders - {id}| == |holders| - 1;
  }

  lemma ReleaseShape<B>(l: Ledger<B>, gpu: set<B>, cpu: set<B>, id: int)
    requires Sound(l, gpu, cpu) && id in l.tables
    ensures var r := Recounted(l, l.tables - {id});
      && Sound(r, gpu, cpu)
      && (forall b | b in l.refs :: Holders(r.tables, b) == Holders(l.tables, b) - {id})
      && (forall b | b in l.refs && b !in l.tables[id] :: r.refs[b] == l.refs[b] && Holders(r.tables, b) == Holders(l.tables, b))
  {
    hide Covered, Slack, Recounted;
    FreeRecounts(l, id);
    forall b | b in l.refs ensures Holders(l.tables - {id}, b) == Holders(l.tables, b) - {id} {}
  }

  lemma TablesInRefs<B>(l: Ledger<B>, gpu: set<B>, cpu: set<B>)
    requires Sound(l, gpu, cpu)
    ensures forall id, b | id in l.tables && b in l.tables[id] :: b in l.refs
  {
    assert forall id | id in l.tables :: TableOk(l.tables[id], gpu, cpu);
  }

  lemma ReleaseTransfers<B, K>(s: System<B, K>, q: Batch<B>, id: int, src: set<B>, dst: set<B>)
    requires BatchOk(s, q, src, dst) && Legal(s, q, Release(id), src, dst)
    ensures TransfersOk(s, Apply(s, q, Release(id), src, dst), src, dst)
  {
    hide Covered, Slack, WellFormed, Recounted, Shows, Moved, Holders;
    ReleaseShape(q.ledger, s.gpu, s.cpu, id);
    forall c | c in q.swaps ensures c !in q.ledger.tables[id] {
      assert c in q.ledger.tables[id] ==> !Involved(q, c);
    }
    forall c | c in q.copies ensures c !in q.ledger.tables[id] && q.copies[c] !in q.ledger.tables[id] {
      assert c in q.ledger.tables[id] ==> !Involved(q, c);
      assert q.copies[c] in q.ledger.tables[id] ==> !Involved(q, q.copies[c]);
    }
  }

  lemma ReleaseKeeps<B, K>(s: System<B, K>, q: Batch<B>, id: int, src: set<B>, dst: set<B>)
    requires BatchOk(s, q, src, dst) && Legal(s, q, Release(id), src, dst)
    ensures BatchOk(s, Apply(s, q, Release(id), src, dst), src, dst)
  {
    hide Covered, Slack, WellFormed, Recounted, Shows, Moved, TransfersOk;
    ReleaseShape(q.ledger, s.gpu, s.cpu, id);
    ReleaseTransfers(s, q, id, src, dst);
    var r := Apply(s, q, Release(id), src, dst);
    forall other | other in q.appended ensures Holders(r.ledger.tables, Last(r.ledger.tables[other])) == {other} {
      assert id !in Holders(q.ledger.tables, Last(q.ledger.tables[other]));
    }
    forall other, b | other in r.ledger.tables && other !in r.touched && b in r.ledger.tables[other] ensures !Involved(r, b) {
      assert !Involved(q, b);
    }
    SameMoves(s.memory, q, r);
    assert Uninvolved(r) by {
      TablesInRefs(q.ledger, s.gpu, s.cpu);
      forall other, b | other in r.ledger.tables && other in r.touched && b in r.ledger.tables[other]
        ensures Holders(r.ledger.tables, b) <= r.touched
      {
        assert Holders(r.ledger.tables, b) <= Holders(q.ledger.tables, b);
      }
    }
  }

  /** A block in use that is not moved keeps its holders; one that is moved loses those of the group. */
  lemma ExchangeUsed<B>(l: Ledger<B>, next: Ledger<B>, ids: seq<int>, mapping: map<B, B>, src: set<B>, dst: set<B>, b: B)
    requires Covered(l) && b in l.refs && l.refs[b] > 0
    requires AllOn(l.tables, ids, src) && MovedTables(l, next, ids, mapping, src, dst)
    ensures Holders(next.tables, b) == Holders(l.tables, b) - Elements(ids)
    ensures b !in mapping ==> Holders(next.tables, b) == Holders(l.tables, b) && next.refs[b] == l.refs[b]
  {
    hide Covered, Recounted;
    forall id ensures id in Holders(next.tables, b) <==> id in Holders(l.tables, b) && id !in ids {
      if id in next.tables && id in ids {
        assert Remapped(mapping, l.tables[id], next.tables[id]);
        assert b !in next.tables[id];
      }
    }
    if b !in mapping {
      forall id | id in l.tables && id in ids ensures b !in l.tables[id] {
        assert Remapped(mapping, l.tables[id], next.tables[id]);
      }
      assert Slack(next, b) == Slack(l, b);
    }
  }

  /** The target of a moved block was unused, and afterwards only the group holds it. */
  lemma ExchangeTarget<B>(l: Ledger<B>, next: Ledger<B>, ids: seq<int>, mapping: map<B, B>, src: set<B>, dst: set<B>, b: B)
    requires Covered(l) && b in mapping
    requires AllOn(l.tables, ids, src) && MovedTables(l, next, ids, mapping, src, dst)
    ensures mapping[b] in l.refs && l.refs[mapping[b]] == 0 && next.refs[mapping[b]] > 0
    ensures Holders(next.tables, mapping[b]) <= Elements(ids)
    ensures forall id | id in l.tables :: mapping[b] !in l.tables[id]
  {
    hide Recounted;
    FreeBlockHasNoHolder(l, mapping[b]);
    var id :| id in ids && id in l.tables && b in l.tables[id];
    assert Remapped(mapping, l.tables[id], next.tables[id]);
    var i :| 0 <= i < |l.tables[id]| && l.tables[id][i] == b;
    assert next.tables[id][i] == mapping[b];
    assert Slack(next, mapping[b]) >= 0 && id in Holders(next.tables, mapping[b]);
    forall other | other in Holders(next.tables, mapping[b]) ensures other in Elements(ids) {
      assert other in l.tables;
    }
  }

  /** The batch in which a whole group, none of it touched before, moves to the other device. */
  ghost predicate Exchanging<B, K>(s: System<B, K>, q: Batch<B>, ids: seq<int>, mapping: map<B, B>, next: Ledger<B>,
                                   src: set<B>, dst: set<B>)
  {
    BatchOk(s, q, src, dst) && Legal(s, q, Exchange(ids, mapping, next), src, dst)
  }

  lemma ExchangeTables<B, K>(s: System<B, K>, q: Batch<B>, ids: seq<int>, mapping: map<B, B>, next: Ledger<B>, src: set<B>, dst: set<B>)
    requires Exchanging(s, q, ids, mapping, next, src, dst)
    ensures TablesOk(s, Apply(s, q, Exchange(ids, mapping, next), src, dst))
  {
    hide Slack, WellFormed, Recounted, Shows, Moved, TransfersOk, Uninvolved, TableOk;
    forall id | id in q.ledger.tables
      ensures |next.tables[id]| == |q.ledger.tables[id]| && (id !in ids ==> next.tables[id] == q.ledger.tables[id])
    {
      assert id in ids ==> Remapped(mapping, q.ledger.tables[id], next.tables[id]);
    }
    forall id | id in q.appended ensures Holders(next.tables, Last(next.tables[id])) == {id} {
      var b := Last(q.ledger.tables[id]);
      LastCounted(q.ledger, s.gpu, s.cpu, id);
      ExchangeUsed(q.ledger, next, ids, mapping, src, dst, b);
    }
  }

  lemma LastCounted<B>(l: Ledger<B>, gpu: set<B>, cpu: set<B>, id: int)
    requires Sound(l, gpu, cpu) && id in l.tables && l.tables[id] != []
    ensures Last(l.tables[id]) in l.refs && l.refs[Last(l.tables[id])] > 0
  {
    assert TableOk(l.tables[id], gpu, cpu) && Last(l.tables[id]) in l.tables[id];
    SharedLastBlock(l, id);
  }

  lemma SwapsGrow<B>(q: Batch<B>, r: Batch<B>, mapping: map<B, B>, src: set<B>, dst: set<B>)
    requires SwapsOk(q, src, dst) && Moves(mapping, src, dst) && r.swaps == q.swaps + Inverse(mapping)
    requires forall c | c in q.swaps :: q.swaps[c] !in mapping && c in r.ledger.refs && r.ledger.refs[c] > 0
    requires forall b | b in mapping :: mapping[b] in r.ledger.refs && r.ledger.refs[mapping[b]] > 0
    ensures SwapsOk(r, src, dst)
  {
  }

  lemma ExchangeTransfers<B, K>(s: System<B, K>, q: Batch<B>, ids: seq<int>, mapping: map<B, B>, next: Ledger<B>, src: set<B>, dst: set<B>)
    requires Exchanging(s, q, ids, mapping, next, src, dst)
    ensures TransfersOk(s, Apply(s, q, Exchange(ids, mapping, next), src, dst), src, dst)
  {
    hide Covered, Slack, WellFormed, Recounted, Shows, Shaped, Moved, Holders, AllOn, Uninvolved, Involved;
    var r := Apply(s, q, Exchange(ids, mapping, next), src, dst);
    forall b | b in mapping ensures mapping[b] in r.ledger.refs && next.refs[mapping[b]] > 0 {
      ExchangeTarget(q.ledger, next, ids, mapping, src, dst, b);
    }
    forall b | b in q.ledger.refs && q.ledger.refs[b] > 0 && Involved(q, b) ensures b !in mapping && next.refs[b] == q.ledger.refs[b] {
      NotInvolved(s, q, ids, mapping, next, src, dst);
      ExchangeUsed(q.ledger, next, ids, mapping, src, dst, b);
    }
    InvolvedOnes(q);
    NotInvolved(s, q, ids, mapping, next, src, dst);
    SwapsGrow(q, r, mapping, src, dst);
  }

  lemma InvolvedOnes<B>(q: Batch<B>)
    ensures forall c | c in q.swaps :: Involved(q, c) && Involved(q, q.swaps[c])
    ensures forall c | c in q.copies :: Involved(q, c) && Involved(q, q.copies[c])
  {
  }

  /** No block of an untouched group takes part in an earlier transfer: no source is used twice. */
  lemma NotInvolved<B, K>(s: System<B, K>, q: Batch<B>, ids: seq<int>, mapping: map<B, B>, next: Ledger<B>, src: set<B>, dst: set<B>)
    requires Exchanging(s, q, ids, mapping, next, src, dst)
    ensures forall b | b in mapping :: !Involved(q, b) && b in src && b in q.ledger.refs
  {
    hide Covered, Slack, WellFormed, Recounted, Shows, Moved, TransfersOk, Involved;
    forall b | b in mapping ensures !Involved(q, b) {
      var id :| id in ids && id in q.ledger.tables && b in q.ledger.tables[id];
    }
  }

  lemma InTableIsUsed<B>(l: Ledger<B>, gpu: set<B>, cpu: set<B>, id: int, b: B)
    requires Sound(l, gpu, cpu) && id in l.tables && b in l.tables[id]
    ensures b in l.refs && l.refs[b] > 0
  {
    assert TableOk(l.tables[id], gpu, cpu);
    assert Slack(l, b) >= 0 && id in Holders(l.tables, b);
  }

  /** A table after the exchange: unchanged outside the group, all targets inside it. */
  lemma ExchangedTable<B, K>(s: System<B, K>, q: Batch<B>, ids: seq<int>, mapping: map<B, B>, next: Ledger<B>, src: set<B>, dst: set<B>,
                             id: int, b: B)
    requires Exchanging(s, q, ids, mapping, next, src, dst)
    requires id in next.tables && b in next.tables[id]
    ensures id in q.ledger.tables
    ensures id !in ids ==>
      && next.tables[id] == q.ledger.tables[id] && b in q.ledger.refs && q.ledger.refs[b] > 0
      && b !in Inverse(mapping) && Holders(next.tables, b) <= Holders(q.ledger.tables, b)
    ensures id in ids ==> b in q.ledger.refs && q.ledger.refs[b] == 0 && Holders(next.tables, b) <= Elements(ids)
  {
    hide Covered, Slack, WellFormed, Recounted, Shows, Shaped, Moved, AllOn, Uninvolved, TransfersOk;
    if id in ids {
      assert Remapped(mapping, q.ledger.tables[id], next.tables[id]);
      var i :| 0 <= i < |next.tables[id]| && next.tables[id][i] == b;
      ExchangeTarget(q.ledger, next, ids, mapping, src, dst, q.ledger.tables[id][i]);
    } else {
      InTableIsUsed(q.ledger, s.gpu, s.cpu, id, b);
      ExchangeUsed(q.ledger, next, ids, mapping, src, dst, b);
    }
  }

  lemma ExchangeApart<B, K>(s: System<B, K>, q: Batch<B>, ids: seq<int>, mapping: map<B, B>, next: Ledger<B>, src: set<B>, dst: set<B>)
    requires Exchanging(s, q, ids, mapping, next, src, dst)
    ensures Uninvolved(Apply(s, q, Exchange(ids, mapping, next), src, dst))
  {
    hide Covered, Slack, WellFormed, Recounted, Shows, Shaped, Moved, AllOn, MovedTables;
    var r := Apply(s, q, Exchange(ids, mapping, next), src, dst);
    forall id, b | id in r.ledger.tables && id !in r.touched && b in r.ledger.tables[id] ensures !Involved(r, b) {
      ExchangedTable(s, q, ids, mapping, next, src, dst, id, b);
      assert !Involved(q, b) && id in Holders(q.ledger.tables, b);
    }
    forall id, b | id in r.ledger.tables && id !in r.appended && b in r.ledger.tables[id] ensures b !in r.copies {
      ExchangedTable(s, q, ids, mapping, next, src, dst, id, b);
    }
    forall id, b | id in r.ledger.tables && id in r.touched && b in r.ledger.tables[id]
      ensures Holders(r.ledger.tables, b) <= r.touched
    {
      ExchangedTable(s, q, ids, mapping, next, src, dst, id, b);
    }
  }

  lemma MovedUnchanged<B, K>(memory: map<B, seq<K>>, q: Batch<B>, r: Batch<B>, extra: map<B, B>, b: B)
    requires r.swaps == q.swaps + extra && r.copies == q.copies && b in memory && b !in extra
    requires forall c | c in q.copies :: q.copies[c] !in extra
    ensures Moved(memory, r)[b] == Moved(memory, q)[b]
  {
  }

  lemma MovedTarget<B, K>(memory: map<B, seq<K>>, q: Batch<B>, r: Batch<B>, extra: map<B, B>, c: B)
    requires r.swaps == q.swaps + extra && r.copies == q.copies && c in memory && c in extra && extra[c] in memory
    requires c !in q.copies && !Involved(q, extra[c])
    ensures Moved(memory, r)[c] == Moved(memory, q)[extra[c]]
  {
  }

  lemma ExchangeMemory<B, K>(s: System<B, K>, q: Batch<B>, ids: seq<int>, mapping: map<B, B>, next: Ledger<B>, src: set<B>, dst: set<B>)
    requires Exchanging(s, q, ids, mapping, next, src, dst)
    ensures var r := Apply(s, q, Exchange(ids, mapping, next), src, dst);
      && (forall b | b in s.memory && b !in Inverse(mapping) :: Moved(s.memory, r)[b] == Moved(s.memory, q)[b])
      && (forall b | b in mapping :: b in s.memory && mapping[b] in s.memory && Moved(s.memory, r)[mapping[b]] == Moved(s.memory, q)[b])
  {
    hide Covered, Slack, WellFormed, Recounted, Shows, Holders, AllOn, Uninvolved, Involved, MovedTables, Moved;
    var r := Apply(s, q, Exchange(ids, mapping, next), src, dst);
    NotInvolved(s, q, ids, mapping, next, src, dst);
    forall b | b in mapping ensures mapping[b] in s.memory && mapping[b] in q.ledger.refs && q.ledger.refs[mapping[b]] == 0 {
      ExchangeTarget(q.ledger, next, ids, mapping, src, dst, b);
    }
    forall b | b in s.memory && b !in Inverse(mapping) ensures Moved(s.memory, r)[b] == Moved(s.memory, q)[b] {
      MovedUnchanged(s.memory, q, r, Inverse(mapping), b);
    }
    forall b | b in mapping ensures Moved(s.memory, r)[mapping[b]] == Moved(s.memory, q)[b] {
      MovedTarget(s.memory, q, r, Inverse(mapping), mapping[b]);
    }
  }

  lemma ExchangeViews<B, K>(s: System<B, K>, q: Batch<B>, ids: seq<int>, mapping: map<B, B>, next: Ledger<B>, src: set<B>, dst: set<B>,
                            id: int)
    requires Exchanging(s, q, ids, mapping, next, src, dst) && id in next.tables
    ensures id in s.kv
    ensures Shows(Moved(s.memory, Apply(s, q, Exchange(ids, mapping, next), src, dst)), next.tables[id], s.blockSize, s.kv[id])
  {
    hide Covered, Slack, WellFormed, Recounted, Shows, Holders, AllOn, Uninvolved, Involved, TransfersOk, Moved;
    ExchangeMemory(s, q, ids, mapping, next, src, dst);
    InMemory(s, q, id, src, dst);
    var m, m' := Moved(s.memory, q), Moved(s.memory, Apply(s, q, Exchange(ids, mapping, next), src, dst));
    var t, t' := q.ledger.tables[id], next.tables[id];
    assert id in ids ==> Remapped(mapping, t, t');
    forall k | 0 <= k < |t| ensures m'[t'[k]] == m[t[k]] {
      if id !in ids {
        ExchangedTable(s, q, ids, mapping, next, src, dst, id, t[k]);
      }
    }
    ShowsVia(m, m', t, t', s.blockSize, s.kv[id]);
  }

  lemma ExchangeKeeps<B, K>(s: System<B, K>, q: Batch<B>, ids: seq<int>, mapping: map<B, B>, next: Ledger<B>, src: set<B>, dst: set<B>)
    requires Exchanging(s, q, ids, mapping, next, src, dst)
    ensures BatchOk(s, Apply(s, q, Exchange(ids, mapping, next), src, dst), src, dst)
  {
    hide Covered, Slack, WellFormed, Recounted, Shows, Moved, TablesOk, TransfersOk, Uninvolved;
    ExchangeTables(s, q, ids, mapping, next, src, dst);
    ExchangeTransfers(s, q, ids, mapping, next, src, dst);
    ExchangeApart(s, q, ids, mapping, next, src, dst);
    forall id | id in next.tables {
      ExchangeViews(s, q, ids, mapping, next, src, dst, id);
    }
  }

  lemma EventKeeps<B, K>(s: System<B, K>, q: Batch<B>, e: Event<B>, src: set<B>, dst: set<B>)
    requires BatchOk(s, q, src, dst) && Legal(s, q, e, src, dst)
    ensures BatchOk(s, Apply(s, q, e, src, dst), src, dst)
  {
    match e
    case Begin(ids) => BeginKeeps(s, q, ids, src, dst);
    case Append(id, unused) => AppendKeeps(s, q, id, unused, src, dst);
    case Release(id) => ReleaseKeeps(s, q, id, src, dst);
    case Exchange(ids, mapping, next) => ExchangeKeeps(s, q, ids, mapping, next, src, dst);
  }

  /** `last` is reached from `q` by the events, each legal when its turn comes. */
  ghost predicate Reached<B, K>(s: System<B, K>, q: Batch<B>, events: seq<Event<B>>, last: Batch<B>, src: set<B>, dst: set<B>)
    requires BatchOk(s, q, src, dst)
    decreases |events|
  {
    if events == [] then last == q
    else
      && Legal(s, q, events[0], src, dst)
      && (EventKeeps(s, q, events[0], src, dst); Reached(s, Apply(s, q, events[0], src, dst), events[1..], last, src, dst))
  }

  lemma {:induction false} EventsKeep<B, K>(s: System<B, K>, q: Batch<B>, events: seq<Event<B>>, last: Batch<B>, src: set<B>, dst: set<B>)
    requires BatchOk(s, q, src, dst) && Reached(s, q, events, last, src, dst)
    ensures BatchOk(s, last, src, dst)
    decreases |events|
  {
    hide BatchOk, Legal, Apply;
    if events != [] {
      EventKeeps(s, q, events[0], src, dst);
      EventsKeep(s, Apply(s, q, events[0], src, dst), events[1..], last, src, dst);
    }
  }

  ghost function StartOfStep<B, K>(s: System<B, K>): Batch<B> {
    Batch(s.ledger, map[], map[], {}, {})
  }

  lemma StartOk<B, K>(s: System<B, K>, src: set<B>, dst: set<B>)
    requires Refines(s) && s.gpu + s.cpu == src + dst && src !! dst
    ensures BatchOk(s, StartOfStep(s), src, dst)
  {
    hide Covered, WellFormed, Shows;
    assert Moved(s.memory, StartOfStep(s)) == s.memory;
  }

  // ---- the writes -------------------------------------------------------------------------------------------

  /** Each sequence of `ids` writes its new entry in the slot that `append_slots` made room for. */
  ghost function Written<B, K>(memory: map<B, seq<K>>, tables: map<int, seq<B>>, blockSize: nat,
                               kv: map<int, seq<K>>, entries: map<int, K>, ids: seq<int>): map<B, seq<K>>
  {
    if ids == [] then memory
    else
      var m := Written(memory, tables, blockSize, kv, entries, ids[..|ids| - 1]);
      var id := Last(ids);
      if blockSize > 0 && id in tables && id in kv && id in entries && tables[id] != [] && Last(tables[id]) in m
         && |kv[id]| % blockSize < |m[Last(tables[id])]|
      then m[Last(tables[id]) := m[Last(tables[id])][|kv[id]| % blockSize := entries[id]]]
      else m
  }

  ghost function Extended<K>(kv: seq<K>, id: int, entries: map<int, K>, ids: seq<int>): seq<K> {
    if id in ids && id in entries then kv + [entries[id]] else kv
  }

  /** What lets the writes of a step go ahead in any table without showing in another. */
  ghost predicate Writable<B, K>(memory: map<B, seq<K>>, tables: map<int, seq<B>>, blocks: set<B>, blockSize: nat,
                                 kv: map<int, seq<K>>, entries: map<int, K>, ids: seq<int>)
  {
    && blockSize > 0 && Distinct(ids) && Shaped(memory, blocks, blockSize)
    && (forall id | id in tables :: id in kv && Distinct(tables[id]) && (forall b | b in tables[id] :: b in memory)
                                    && Shows(memory, tables[id], blockSize, kv[id]))
    && (forall id | id in ids ::
          && id in tables && id in entries && |tables[id]| == |kv[id]| / blockSize + 1
          && Holders(tables, Last(tables[id])) == {id})
  }

  /** One write shows as the next entry of its own sequence and nowhere else. */
  lemma WriteShows<B, K>(m: map<B, seq<K>>, m': map<B, seq<K>>, t: seq<B>, blockSize: nat, kv: seq<K>, entry: K)
    requires blockSize > 0 && |t| == |kv| / blockSize + 1 && Distinct(t) && Last(t) in m && |m[Last(t)]| == blockSize
    requires Shows(m, t, blockSize, kv) && m' == m[Last(t) := m[Last(t)][|kv| % blockSize := entry]]
    ensures Shows(m', t, blockSize, kv + [entry])
  {
    hide Distinct;
    DivModOf(|kv|, blockSize);
    forall j | 0 <= j < |kv + [entry]|
      ensures j / blockSize < |t| && t[j / blockSize] in m' && j % blockSize < |m'[t[j / blockSize]]|
      ensures m'[t[j / blockSize]][j % blockSize] == (kv + [entry])[j]
    {
      DivModOf(j, blockSize);
      WriteShowsAt(m, m', t, blockSize, kv, entry, j, j / blockSize, j % blockSize, |kv| % blockSize);
    }
  }

  lemma WriteShowsAt<B, K>(m: map<B, seq<K>>, m': map<B, seq<K>>, t: seq<B>, blockSize: nat, kv: seq<K>, entry: K,
                           j: nat, row: int, col: int, last: int)
    requires blockSize > 0 && 0 <= row && 0 <= col && 0 <= last < blockSize && |t| == |kv| / blockSize + 1
    requires Distinct(t) && Last(t) in m && |m[Last(t)]| == blockSize
    requires j <= |kv| && row == j / blockSize && col == j % blockSize && last == |kv| % blockSize
    requires j < |kv| ==> row < |t| && t[row] in m && col < |m[t[row]]| && m[t[row]][col] == kv[j]
    requires m' == m[Last(t) := m[Last(t)][last := entry]]
    ensures row < |t| && t[row] in m' && col < |m'[t[row]]| && m'[t[row]][col] == (kv + [entry])[j]
  {
    hide Distinct;
    if j < |kv| {
      Cells(j, |kv|, blockSize);
      WrittenElsewhere(m, m', t, blockSize, last, entry, row, col);
    }
  }

  /** Earlier entries lie in earlier blocks, or before in the same block. */
  lemma Cells(j: nat, n: nat, blockSize: nat)
    requires j < n && blockSize > 0
    ensures 0 <= j / blockSize <= n / blockSize && 0 <= j % blockSize < blockSize && n % blockSize < blockSize
    ensures j / blockSize == n / blockSize ==> j % blockSize < n % blockSize
  {
    DivModOf(j, blockSize);
    DivModOf(n, blockSize);
    CellOrder(j / blockSize, j % blockSize, n / blockSize, n % blockSize, blockSize);
  }

  lemma CellOrder(row: int, col: int, row': int, col': int, blockSize: int)
    requires 0 <= row && 0 <= col && 0 <= row' && col < blockSize && 0 <= col' < blockSize
    requires row * blockSize + col < row' * blockSize + col'
    ensures row <= row' && (row == row' ==> col < col')
  {
    if row' < row {
      MulAtLeast(row' + 1, row, blockSize);
    }
  }

  lemma WrittenElsewhere<B, K>(m: map<B, seq<K>>, m': map<B, seq<K>>, t: seq<B>, blockSize: nat, last: nat, entry: K, row: nat, col: nat)
    requires Distinct(t) && row < |t| && t[row] in m && col < |m[t[row]]| && (row == |t| - 1 ==> col != last)
    requires Last(t) in m && |m[Last(t)]| == blockSize && last < blockSize && m' == m[Last(t) := m[Last(t)][last := entry]]
    ensures t[row] in m' && col < |m'[t[row]]| && m'[t[row]][col] == m[t[row]][col]
  {
    if t[row] == Last(t) {
      OnlyLast(t, row);
    }
  }

  lemma OnlyLast<B>(t: seq<B>, i: nat)
    requires i < |t| && Distinct(t) && t[i] == Last(t)
    ensures i == |t| - 1
  {
  }

  lemma {:induction false} WritesShow<B, K>(memory: map<B, seq<K>>, tables: map<int, seq<B>>, blocks: set<B>, blockSize: nat,
                                            kv: map<int, seq<K>>, entries: map<int, K>, ids: seq<int>)
    requires Writable(memory, tables, blocks, blockSize, kv, entries, ids)
    ensures Shaped(Written(memory, tables, blockSize, kv, entries, ids), blocks, blockSize)
    ensures forall id | id in tables ::
      Shows(Written(memory, tables, blockSize, kv, entries, ids), tables[id], blockSize, Extended(kv[id], id, entries, ids))
  {
    if ids != [] {
      hide Shows, Shaped;
      var rest, id := ids[..|ids| - 1], Last(ids);
      LastOfIds(ids);
      WritableRest(memory, tables, blocks, blockSize, kv, entries, ids);
      WritesShow(memory, tables, blocks, blockSize, kv, entries, rest);
      var m := Written(memory, tables, blockSize, kv, entries, rest);
      WriteNext(m, memory, tables, blocks, blockSize, kv, entries, ids);
    }
  }

  lemma LastOfIds(ids: seq<int>)
    requires ids != [] && Distinct(ids)
    ensures Last(ids) in ids && Last(ids) !in ids[..|ids| - 1] && forall x :: x in ids <==> x in ids[..|ids| - 1] || x == Last(ids)
  {
  }

  lemma WritableRest<B, K>(memory: map<B, seq<K>>, tables: map<int, seq<B>>, blocks: set<B>, blockSize: nat, kv: map<int, seq<K>>,
                           entries: map<int, K>, ids: seq<int>)
    requires Writable(memory, tables, blocks, blockSize, kv, entries, ids) && ids != []
    ensures Writable(memory, tables, blocks, blockSize, kv, entries, ids[..|ids| - 1])
  {
    hide Shows, Shaped;
  }

  /** The write of the last sequence, when the others have written. */
  lemma WriteNext<B, K>(m: map<B, seq<K>>, memory: map<B, seq<K>>, tables: map<int, seq<B>>, blocks: set<B>, blockSize: nat,
                        kv: map<int, seq<K>>, entries: map<int, K>, ids: seq<int>)
    requires Writable(memory, tables, blocks, blockSize, kv, entries, ids) && ids != []
    requires m == Written(memory, tables, blockSize, kv, entries, ids[..|ids| - 1]) && Shaped(m, blocks, blockSize)
    requires forall id | id in tables :: Shows(m, tables[id], blockSize, Extended(kv[id], id, entries, ids[..|ids| - 1]))
    ensures Shaped(Written(memory, tables, blockSize, kv, entries, ids), blocks, blockSize)
    ensures forall id | id in tables ::
      Shows(Written(memory, tables, blockSize, kv, entries, ids), tables[id], blockSize, Extended(kv[id], id, entries, ids))
  {
    hide Shows, Holders;
    var rest, id := ids[..|ids| - 1], Last(ids);
    LastOfIds(ids);
    var b, m' := Last(tables[id]), Written(memory, tables, blockSize, kv, entries, ids);
    assert b in tables[id];
    assert b in m && m' == m[b := m[b][|kv[id]| % blockSize := entries[id]]];
    WriteShows(m, m', tables[id], blockSize, kv[id], entries[id]);
    forall other | other in tables && other != id
      ensures Shows(m', tables[other], blockSize, Extended(kv[other], other, entries, ids))
    {
      HoldsNot(tables, id, other, b);
      ShowsVia(m, m', tables[other], tables[other], blockSize, Extended(kv[other], other, entries, rest));
    }
  }

  lemma HoldsNot<B>(tables: map<int, seq<B>>, id: int, other: int, b: B)
    requires Holders(tables, b) == {id} && other in tables && other != id
    ensures b !in tables[other]
  {
    assert b in tables[other] <==> other in Holders(tables, b);
  }

  // ---- whole runs -------------------------------------------------------------------------------------------

  /** `Admit`: a group is admitted, its waiting members share `table`, and the prompt's entries are computed.
      `Child`: a sequence is forked.  `Finish`: a sequence is freed.
      `Schedule`: a decoding step; its swaps go from the GPU to the CPU or back, never both
      (vllm/core/scheduler.py:123-125), and the members of `ids` compute one entry each. */
  datatype Op<B, K> =
    | Admit(members: seq<int>, table: seq<B>, count: nat, prompt: seq<K>)
    | Child(parent: int, child: int)
    | Finish(id: int)
    | Schedule(events: seq<Event<B>>, last: Batch<B>, ids: seq<int>, entries: map<int, K>, swapOut: bool)

  ghost predicate Next<B, K>(s: System<B, K>, op: Op<B, K>, s': System<B, K>)
    requires Refines(s)
  {
    && s'.gpu == s.gpu && s'.cpu == s.cpu && s'.blockSize == s.blockSize
    && match op
       case Admit(members, table, count, prompt) =>
         && Distinct(table) && LiesIn(table, s.gpu) && (forall b | b in table :: b in FreeSet(s.ledger))
         && |table| == NumBlocks(|prompt|, s.blockSize) && |members| <= count
         && (forall id | id in members :: id !in s.kv)
         && s'.ledger == Granted(s.ledger, members, table, count)
         && s'.kv == s.kv + (map id | id in members :: prompt)
         && Shaped(s'.memory, s.gpu + s.cpu, s.blockSize) && Shows(s'.memory, table, s.blockSize, prompt)
         && forall b | b in s.memory && b !in table :: s'.memory[b] == s.memory[b]
       case Child(parent, child) =>
         && parent in s.kv && child !in s.kv && s'.memory == s.memory
         && s'.ledger == Recounted(s.ledger, s.ledger.tables[child := s.ledger.tables[parent]])
         && s'.kv == s.kv[child := s.kv[parent]]
       case Finish(id) =>
         && id in s.kv && s'.memory == s.memory
         && s'.ledger == Recounted(s.ledger, s.ledger.tables - {id}) && s'.kv == s.kv - {id}
       case Schedule(events, last, ids, entries, swapOut) =>
         var src, dst := if swapOut then s.gpu else s.cpu, if swapOut then s.cpu else s.gpu;
         StartOk(s, src, dst);
         && Reached(s, StartOfStep(s), events, last, src, dst)
         && Distinct(ids) && Elements(ids) == last.appended && (forall id | id in ids :: id in entries)
         && s'.ledger == last.ledger
         && s'.kv == (map id | id in last.ledger.tables && id in s.kv :: Extended(s.kv[id], id, entries, ids))
         && s'.memory == Written(Moved(s.memory, last), last.ledger.tables, s.blockSize, s.kv, entries, ids)
  }

  lemma PrefillKeeps<B, K>(s: System<B, K>, members: seq<int>, table: seq<B>, count: nat, prompt: seq<K>, s': System<B, K>)
    requires Refines(s) && Next(s, Admit(members, table, count, prompt), s')
    ensures Refines(s')
  {
    hide Covered, Slack, WellFormed, Granted, Shows;
    GrantKeepsSound(s.ledger, s.gpu, s.cpu, members, table, count);
    GrantedTables(s.ledger, members, table, count);
    TablesInRefs(s.ledger, s.gpu, s.cpu);
    forall id | id in s'.kv ensures Shows(s'.memory, s'.ledger.tables[id], s.blockSize, s'.kv[id]) {
      if id !in members {
        var t := s.ledger.tables[id];
        forall k | 0 <= k < |t| ensures t[k] !in table {
          assert t[k] in table ==> t[k] in FreeSet(s.ledger);
          InTableIsUsed(s.ledger, s.gpu, s.cpu, id, t[k]);
        }
        ShowsVia(s.memory, s'.memory, t, t, s.blockSize, s.kv[id]);
      }
    }
  }

  lemma GrantedTables<B>(l: Ledger<B>, ids: seq<int>, table: seq<B>, count: nat)
    ensures var r := Granted(l, ids, table, count);
      && r.tables.Keys == l.tables.Keys + Elements(ids)
      && (forall id | id in ids :: r.tables[id] == table)
      && (forall id | id in l.tables && id !in ids :: r.tables[id] == l.tables[id])
  {
  }

  lemma ScheduleKeeps<B, K>(s: System<B, K>, events: seq<Event<B>>, last: Batch<B>, ids: seq<int>, entries: map<int, K>,
                            swapOut: bool, s': System<B, K>)
    requires Refines(s) && Next(s, Schedule(events, last, ids, entries, swapOut), s')
    ensures Refines(s')
  {
    hide Covered, WellFormed, Shows, Moved, TransfersOk, Uninvolved, Written, Reached, Holders;
    var src, dst := if swapOut then s.gpu else s.cpu, if swapOut then s.cpu else s.gpu;
    StartOk(s, src, dst);
    EventsKeep(s, StartOfStep(s), events, last, src, dst);
    BatchWrites(s, last, ids, entries, src, dst);
    forall id | id in s'.kv ensures |s'.ledger.tables[id]| == NumBlocks(|s'.kv[id]|, s.blockSize) {
      assert id in ids <==> id in last.appended;
    }
  }

  lemma BatchWrites<B, K>(s: System<B, K>, last: Batch<B>, ids: seq<int>, entries: map<int, K>, src: set<B>, dst: set<B>)
    requires BatchOk(s, last, src, dst)
    requires Distinct(ids) && Elements(ids) == last.appended && (forall id | id in ids :: id in entries)
    ensures var m := Written(Moved(s.memory, last), last.ledger.tables, s.blockSize, s.kv, entries, ids);
      && Shaped(m, s.gpu + s.cpu, s.blockSize)
      && forall id | id in last.ledger.tables :: Shows(m, last.ledger.tables[id], s.blockSize, Extended(s.kv[id], id, entries, ids))
  {
    hide Covered, Shows, TransfersOk, Uninvolved;
    var m := Moved(s.memory, last);
    forall id | id in ids
      ensures id in last.ledger.tables && id in s.kv && |last.ledger.tables[id]| == |s.kv[id]| / s.blockSize + 1
    {
      assert id in last.appended;
      BlockCountGrows(|s.kv[id]|, s.blockSize);
    }
    forall id | id in last.ledger.tables ensures Distinct(last.ledger.tables[id]) && forall b | b in last.ledger.tables[id] :: b in m {
      assert TableOk(last.ledger.tables[id], s.gpu, s.cpu);
      InMemory(s, last, id, src, dst);
    }
    MovedShape(s.memory, last, s.gpu + s.cpu, s.blockSize);
    WritesShow(m, last.ledger.tables, s.gpu + s.cpu, s.blockSize, s.kv, entries, ids);
  }

  /** From every state with a running sequence, and a free block for it, a decoding step leads on. */
  lemma DecodeExists<B, K>(s: System<B, K>, group: seq<int>, id: int, unused: B, entry: K)
    requires Refines(s) && id in group && id in s.kv && LiesIn(s.ledger.tables[id], s.gpu)
    requires unused in s.gpu && unused in FreeSet(s.ledger)
    requires forall other, b | other in group && other in s.ledger.tables && b in s.ledger.tables[other] ::
      Holders(s.ledger.tables, b) <= Elements(group)
    ensures exists last, s' :: Next(s, Schedule([Begin(group), Append(id, unused)], last, [id], map[id := entry], true), s')
                               && id in s'.kv && s'.kv[id] == s.kv[id] + [entry]
  {
    hide Covered, WellFormed, Shows, TransfersOk, Uninvolved, Holders, Moved, Written, NeedsBlock, AppendedTable, Recounted;
    var q, events: seq<Event<B>> := StartOfStep(s), [Begin(group), Append(id, unused)];
    StartOk(s, s.gpu, s.cpu);
    assert Legal(s, q, events[0], s.gpu, s.cpu);
    EventKeeps(s, q, events[0], s.gpu, s.cpu);
    var q1 := Apply(s, q, events[0], s.gpu, s.cpu);
    assert q1.ledger == s.ledger && q1.touched == Elements(group) && q1.appended == {};
    assert events[1..] == [events[1]] && events[1..][1..] == [];
    assert Legal(s, q1, events[1], s.gpu, s.cpu);
    EventKeeps(s, q1, events[1], s.gpu, s.cpu);
    var last := Apply(s, q1, events[1], s.gpu, s.cpu);
    OneAppended(s, q1, id, unused, s.gpu, s.cpu);
    assert Reached(s, q1, events[1..], last, s.gpu, s.cpu);
    assert Reached(s, q, events, last, s.gpu, s.cpu);
    var entries := map[id := entry];
    var s' := s.(ledger := last.ledger,
                 kv := map o | o in last.ledger.tables && o in s.kv :: Extended(s.kv[o], o, entries, [id]),
                 memory := Written(Moved(s.memory, last), last.ledger.tables, s.blockSize, s.kv, entries, [id]));
    assert Next(s, Schedule(events, last, [id], entries, true), s');
  }

  lemma OneAppended<B, K>(s: System<B, K>, q: Batch<B>, id: int, unused: B, src: set<B>, dst: set<B>)
    requires BatchOk(s, q, src, dst) && Legal(s, q, Append(id, unused), src, dst) && q.appended == {}
    ensures var last := Apply(s, q, Append(id, unused), src, dst);
      last.appended == {id} && id in last.ledger.tables && last.ledger.tables.Keys == q.ledger.tables.Keys
  {
    hide Covered, WellFormed, Shows, TransfersOk, Uninvolved, Holders, Moved;
    AppendDefined(s, q, id, src, dst);
  }

  lemma MovedShape<B, K>(memory: map<B, seq<K>>, q: Batch<B>, blocks: set<B>, blockSize: nat)
    requires Shaped(memory, blocks, blockSize)
    ensures Shaped(Moved(memory, q), blocks, blockSize)
  {
  }

  lemma NextKeeps<B, K>(s: System<B, K>, op: Op<B, K>, s': System<B, K>)
    requires Refines(s) && Next(s, op, s')
    ensures Refines(s')
  {
    match op
    case Admit(members, table, count, prompt) =>
      PrefillKeeps(s, members, table, count, prompt, s');
    case Child(parent, child) =>
      ForkRecounts(s.ledger, s.gpu, s.cpu, parent, child);
    case Finish(id) =>
      ReleaseShape(s.ledger, s.gpu, s.cpu, id);
    case Schedule(events, last, ids, entries, swapOut) =>
      ScheduleKeeps(s, events, last, ids, entries, swapOut, s');
  }

  ghost predicate Run<B, K>(s: System<B, K>, ops: seq<Op<B, K>>, states: seq<System<B, K>>)
    requires |states| == |ops|
    requires Refines(s)
    decreases |ops|
  {
    ops == [] || (Next(s, ops[0], states[0]) && (NextKeeps(s, ops[0], states[0]); Run(states[0], ops[1..], states[1..])))
  }

  /** Over every run, the worker's view of each sequence through its block table is the sequence's private list. */
  lemma {:induction false} RunsRefine<B, K>(s: System<B, K>, ops: seq<Op<B, K>>, states: seq<System<B, K>>)
    requires |states| == |ops| && Refines(s) && Run(s, ops, states)
    ensures forall i | 0 <= i < |states| :: Refines(states[i])
    decreases |ops|
  {
    hide Refines, Next;
    if ops != [] {
      NextKeeps(s, ops[0], states[0]);
      RunsRefine(states[0], ops[1..], states[1..]);
      forall i | 0 <= i < |states| ensures Refines(states[i]) {
        assert i > 0 ==> states[i] == states[1..][i - 1];
      }
    }
  }

  lemma BlockCountGrows(length: nat, blockSize: nat)
    requires blockSize > 0
    ensures NumBlocks(length + 1, blockSize) == length / blockSize + 1
    ensures NumBlocks(length, blockSize) == length / blockSize + if length % blockSize == 0 then 0 else 1
  {
    var q, r := length / blockSize, length % blockSize;
    DivModOf(length, blockSize);
    MulStep(q, blockSize);
    DivMod(q + 1, r, blockSize);
    if r == 0 {
      DivMod(q, blockSize - 1, blockSize);
    } else {
      DivMod(q + 1, r - 1, blockSize);
    }
  }

  lemma MulStep(q: nat, d: nat)
    ensures (q + 1) * d == q * d + d
  {
  }
}
