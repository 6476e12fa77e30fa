/** Block tables under a sliding window (vllm/core/block_manager_v1.py:268-295, 374-418, 519-540), for groups of one sequence.
    A table may be longer than the window, but then it repeats its first `window` blocks over and over. */
module SlidingWindow {
  import opened Wrappers
  import opened Blocks
  import opened UncachedAllocator
  import Arithmetic

  function Min(a: nat, b: nat): nat { if a <= b then a else b }

  /** The table repeats its first `window` entries, which are distinct. */
  ghost predicate Windowed<B>(table: seq<B>, window: nat)
    requires window > 0
  {
    && Distinct(table[..Min(|table|, window)])
    && forall i | 0 <= i < |table| :: i % window < |table| && table[i] == table[i % window]
  }

  /** `block_table[-window:]`. */
  function Tail<B>(table: seq<B>, window: nat): seq<B> {
    table[|table| - Min(|table|, window)..]
  }

  lemma SmallMod(i: nat, window: nat)
    requires i < window
    ensures i % window == i
  {
  }

  lemma NearMod(i: nat, j: nat, window: nat)
    requires window > 0 && i < j < i + window
    ensures i % window != j % window
  {
    Arithmetic.DivModOf(i, window);
    Arithmetic.DivModOf(j, window);
    var p, q := i / window, j / window;
    if p < q {
      Arithmetic.MulGap(window, q, p);
    } else if p > q {
      Arithmetic.MulGap(window, p, q);
    }
  }

  /** Each residue occurs among the last `window` numbers below `n`. */
  lemma LastWith(k: nat, n: nat, window: nat) returns (i: nat)
    requires k < window <= n
    ensures n - window <= i < n && i % window == k
  {
    var q := (n - 1 - k) / window;
    Arithmetic.DivModOf(n - 1 - k, window);
    i := q * window + k;
    Arithmetic.DivMod(q, k, window);
  }

  /** The last `window` entries are distinct and are all the blocks of the table. */
  lemma TailIsAll<B>(table: seq<B>, window: nat)
    requires window > 0 && Windowed(table, window)
    ensures Distinct(Tail(table, window)) && Elements(Tail(table, window)) == Elements(table)
    ensures |Elements(table)| == Min(|table|, window)
  {
    var n, m := |table|, Min(|table|, window);
    var tail, head := Tail(table, window), table[..Min(|table|, window)];
    forall i, j | 0 <= i < j < m ensures tail[i] != tail[j] {
      var a, b := n - m + i, n - m + j;
      NearMod(a, b, window);
      assert head[a % window] == table[a] && head[b % window] == table[b];
    }
    forall x | x in Elements(table) ensures x in Elements(tail) {
      var i :| 0 <= i < n && table[i] == x;
      if n <= window {
        assert tail[i] == x;
      } else {
        var k := LastWith(i % window, n, window);
        assert table[k] == table[k % window] == x;
        assert tail[k - (n - m)] == x;
      }
    }
    assert forall x | x in tail :: x in table;
    DistinctSize(tail);
  }

  lemma WindowGrows<B>(table: seq<B>, window: nat, b: B)
    requires window > 0 && Windowed(table, window)
    requires if |table| < window then b !in table else b == table[|table| % window]
    ensures Windowed(table + [b], window)
    ensures Elements(table + [b]) == Elements(table) + {b}
  {
    var t := table + [b];
    if |table| < window {
      SmallMod(|table|, window);
      assert t[..Min(|t|, window)] == table[..Min(|table|, window)] + [b];
    } else {
      assert t[..Min(|t|, window)] == table[..Min(|table|, window)];
    }
  }

  class SlidingBlockManager {
    const window: nat  // in blocks
    const gpu: UncachedBlockAllocator
    var blockTables: map<int, BlockTable>

    /** Each table repeats its window, no two share a block, and a block is counted once if it is in a table and not
        otherwise. */
    ghost predicate Valid()
      reads this, gpu, gpu.blocks
    {
      ValidWith(blockTables)
    }

    ghost predicate ValidWith(tables: map<int, BlockTable>)
      reads gpu, gpu.blocks
    {
      && window > 0 && gpu.device == GPU && gpu.Valid()
      && (forall id | id in tables :: TableOk(tables[id]))
      && (forall p, q | p in tables && q in tables && p != q :: Apart(tables[p], tables[q]))
      && forall b | b in gpu.blocks && b.refCount != 0 :: Held(tables, b)
    }

    /** The table of `id` may become `t`. */
    lemma PutTable(tables: map<int, BlockTable>, id: int, t: BlockTable)
      requires window > 0 && gpu.device == GPU && gpu.Valid() && TableOk(t)
      requires forall p | p in tables && p != id :: TableOk(tables[p]) && Apart(tables[p], t)
      requires forall p, q | p in tables && q in tables && p != q :: Apart(tables[p], tables[q])
      requires forall b | b in gpu.blocks && b.refCount != 0 :: b in t || Held(tables - {id}, b)
      ensures ValidWith(tables[id := t])
    {
      var after := tables[id := t];
      forall p, q | p in after && q in after && p != q ensures Apart(after[p], after[q]) {
        assert p != id ==> Apart(tables[p], t);
        assert q != id ==> Apart(tables[q], t);
      }
      forall b | b in gpu.blocks && b.refCount != 0 ensures Held(after, b) {
        if b in t {
          assert after[id] == t;
        } else {
          var p :| p in tables - {id} && b in tables[p];
          assert after[p] == tables[p];
        }
      }
    }

    ghost predicate TableOk(table: BlockTable)
      requires window > 0
      reads gpu.blocks
    {
      Windowed(table, window) && forall b | b in table :: b in gpu.blocks && b.refCount == 1
    }

    constructor (window: nat, numBlocks: nat)
      requires window > 0
      ensures Valid() && gpu.Numbered() && fresh(gpu) && fresh(gpu.blocks)
      ensures this.window == window && blockTables == map[] && |gpu.freeBlocks| == numBlocks
    {
      this.window, blockTables := window, map[];
      gpu := new UncachedBlockAllocator(GPU, numBlocks);
    }

    /** Half-way through the loop of `allocate`: `table` has been taken off the free list, each block once. */
    ghost predicate Taken(table: BlockTable, before: BlockTable)
      requires window > 0
      reads gpu, gpu.blocks
    {
      && gpu.Valid() && TableOk(table) && |gpu.freeBlocks| + Min(|table|, window) == |before|
      && (forall b | b in table :: b in before)
      && forall b | b in gpu.freeBlocks :: b in before && b !in table
    }

    /** One turn of the loop (277-291), with `num_seqs()` 1. */
    method TakeNext(table: BlockTable, ghost before: BlockTable) returns (r: Result<PhysicalTokenBlock>)
      requires window > 0 && Taken(table, before)
      modifies gpu, gpu.blocks
      ensures r.Ok? <==> |table| >= window || old(gpu.freeBlocks) != []
      ensures r.Err? ==> r.error == OutOfMemory
      ensures r.Ok? ==> Taken(table + [r.value], before)
      ensures forall b | b in gpu.blocks && b !in before :: b.refCount == old(b.refCount)
      ensures forall b | b in gpu.blocks && r.Ok? && b != r.value :: b.refCount == old(b.refCount)
    {
      if |table| >= window {
        var block := table[|table| % window];
        block.refCount := 1;
        WindowGrows(table, window, block);
        return Ok(block);
      }
      var block :- gpu.Allocate();
      block.refCount := 1;
      WindowGrows(table, window, block);
      return Ok(block);
    }

    lemma NothingTaken()
      requires window > 0 && gpu.Valid()
      ensures Taken([], gpu.freeBlocks)
    {
    }

    lemma FreeUnused()
      requires Valid()
      ensures forall p, b | p in blockTables && b in blockTables[p] :: b !in gpu.freeBlocks
    {
      forall p, b | p in blockTables && b in blockTables[p] ensures b !in gpu.freeBlocks {
        assert TableOk(blockTables[p]);
      }
    }

    /** The loop of `allocate` (277-291). */
    method TakeTable(n: nat) returns (r: Result<BlockTable>)
      requires window > 0 && Taken([], gpu.freeBlocks)
      modifies gpu, gpu.blocks
      ensures r.Ok? <==> Min(n, window) <= |old(gpu.freeBlocks)|
      ensures r.Err? ==> r.error == OutOfMemory
      ensures r.Ok? ==>
        && |r.value| == n && Taken(r.value, old(gpu.freeBlocks))
        && forall b | b in gpu.blocks && b !in r.value :: b.refCount == old(b.refCount)
    {
      hide Windowed, Distinct, UncachedBlockAllocator.Valid;
      var table: BlockTable := [];
      for i := 0 to n
        invariant |table| == i && Taken(table, old(gpu.freeBlocks)) && Min(i, window) <= |old(gpu.freeBlocks)|
        invariant forall b | b in gpu.blocks && b !in table :: b.refCount == old(b.refCount)
      {
        var block := TakeNext(table, old(gpu.freeBlocks));
        if block.Err? {
          return Err(block.error);
        }
        table := table + [block.value];
      }
      return Ok(table);
    }

    /** `allocate` (268-295) for a sequence with `n` logical blocks: it takes at most `window` blocks. */
    method Allocate(id: int, n: nat) returns (r: Result<()>)
      requires Valid() && id !in blockTables
      modifies this`blockTables, gpu, gpu.blocks
      ensures r.Ok? <==> Min(n, window) <= |old(gpu.freeBlocks)|
      ensures r.Err? ==> r.error == OutOfMemory
      ensures r.Ok? ==>
        && Valid() && id in blockTables && |blockTables[id]| == n
        && blockTables == old(blockTables)[id := blockTables[id]]
        && |gpu.freeBlocks| == |old(gpu.freeBlocks)| - Min(n, window)
    {
      hide Windowed, Distinct, UncachedBlockAllocator.Valid;
      NothingTaken();
      ghost var before := gpu.freeBlocks;
      FreeUnused();
      var table :- TakeTable(n);
      forall p | p in blockTables ensures TableOk(blockTables[p]) && Apart(blockTables[p], table) {
        assert old(TableOk(blockTables[p]));
        forall b | b in blockTables[p] ensures b !in table && b in gpu.blocks && b.refCount == 1 {
          assert b !in before;
        }
      }
      forall b | b in gpu.blocks && b.refCount != 0 && b !in table ensures Held(blockTables - {id}, b) {
        HeldElsewhere(blockTables, id, b);
      }
      PutTable(blockTables, id, table);
      blockTables := blockTables[id := table];
      return Ok(());
    }

    /** `append_slots` (374-418): the next block of the window is used again; nothing is ever copied. */
    method AppendSlots(id: int, n: nat) returns (r: Result<map<int, seq<int>>>)
      requires Valid()
      modifies this`blockTables, gpu, gpu.blocks
      ensures Valid() && (r.Ok? ==> r.value == map[])
      ensures r.Err? ==> unchanged(this) && unchanged(gpu) && unchanged(gpu.blocks)
      ensures r.Ok? <==>
        && id in old(blockTables) && n <= |old(blockTables)[id]| + 1 && n + |old(blockTables)[id]| > 0
        && (|old(blockTables)[id]| < n && |old(blockTables)[id]| < window ==> old(gpu.freeBlocks) != [])
      ensures r.Ok? ==>
        && var t := old(blockTables)[id];
        && id in blockTables && blockTables == old(blockTables)[id := blockTables[id]] && t <= blockTables[id]
        && |blockTables[id]| == (if n <= |t| then |t| else n)
        && |gpu.freeBlocks| == |old(gpu.freeBlocks)| - (if |t| < n && |t| < window then 1 else 0)
    {
      if id !in blockTables {
        return Err(KeyError);
      }
      var table := blockTables[id];
      if |table| < n {
        if |table| != n - 1 {
          return Err(AssertionError);
        }
        if |table| >= window {
          PutAgain(id);
          blockTables := blockTables[id := table + [table[|table| % window]]];
        } else {
          var newBlock :- gpu.Allocate();
          WindowGrows(table, window, newBlock);
          forall p | p in blockTables && p != id ensures TableOk(blockTables[p]) && Apart(blockTables[p], table + [newBlock]) {
            assert old(TableOk(blockTables[p])) && Apart(blockTables[p], table);
          }
          forall b | b in gpu.blocks && b.refCount != 0 && b !in table + [newBlock] ensures Held(blockTables - {id}, b) {
            HeldElsewhere(blockTables, id, b);
          }
          PutTable(blockTables, id, table + [newBlock]);
          blockTables := blockTables[id := table + [newBlock]];
          return Ok(map[]);
        }
      } else if table == [] {
        return Err(IndexError);
      }
      var lastBlock := blockTables[id][|blockTables[id]| - 1];
      assert lastBlock.refCount == 1;  // so it is not copied
      return Ok(map[]);
    }

    lemma PutAgain(id: int)
      requires Valid() && id in blockTables && |blockTables[id]| >= window
      ensures ValidWith(blockTables[id := blockTables[id] + [blockTables[id][|blockTables[id]| % window]]])
    {
      var table := blockTables[id];
      var t := table + [table[|table| % window]];
      assert TableOk(table);
      WindowGrows(table, window, table[|table| % window]);
      assert forall b :: b in t <==> b in Elements(t);
      forall b | b in gpu.blocks && b.refCount != 0 && b !in t ensures Held(blockTables - {id}, b) {
        HeldElsewhere(blockTables, id, b);
      }
      PutTable(blockTables, id, t);
    }

    /** The loop of `_free_block_table` (528-532): no block is freed twice. */
    method FreeBlocks(table: BlockTable)
      requires gpu.Valid() && window > 0 && TableOk(table)
      modifies gpu, gpu.blocks
      ensures gpu.Valid() && |gpu.freeBlocks| == |old(gpu.freeBlocks)| + Min(|table|, window)
      ensures forall b | b in gpu.blocks :: b.refCount == if b in table then 0 else old(b.refCount)
    {
      TailIsAll(table, window);
      hide Windowed, Distinct, UncachedBlockAllocator.Valid;
      var rest := set b | b in Tail(table, window);
      assert rest == Elements(table);
      while rest != {}
        invariant rest <= Elements(table) && gpu.Valid()
        invariant forall b | b in gpu.blocks :: b.refCount == if b in table && b !in rest then 0 else old(b.refCount)
        invariant |gpu.freeBlocks| + |rest| == |old(gpu.freeBlocks)| + |Elements(table)|
      {
        var block :| block in rest;
        var freed := gpu.Free(block);
        assert freed.Ok?;
        rest := rest - {block};
      }
    }

    /** `free` and `_free_block_table` (519-540): every block of the table goes back, once. */
    method Free(id: int)
      requires Valid()
      modifies this`blockTables, gpu, gpu.blocks
      ensures Valid() && blockTables == old(blockTables) - {id}
      ensures |gpu.freeBlocks| == |old(gpu.freeBlocks)| + if id in old(blockTables) then Min(|old(blockTables)[id]|, window) else 0
    {
      if id !in blockTables {
        return;
      }
      var table := blockTables[id];
      assert TableOk(table);
      TailIsAll(table, window);
      FreeBlocks(table);
      forall p | p in blockTables && p != id ensures TableOk(blockTables[p]) {
        assert old(TableOk(blockTables[p])) && Apart(blockTables[p], table);
      }
      forall b | b in gpu.blocks && b.refCount != 0 ensures Held(blockTables - {id}, b) {
        HeldElsewhere(blockTables, id, b);
      }
      blockTables := blockTables - {id};
    }

    /** With all tables freed every block is free again. */
    lemma AllBack()
      requires Valid() && gpu.Numbered() && blockTables == map[]
      ensures |gpu.freeBlocks| == gpu.numBlocks
    {
      forall b | b in gpu.blocks ensures b.refCount == 0 {
        assert b.refCount != 0 ==> Held(blockTables, b);
      }
      gpu.FullFreeListIff();
    }

    /** No sequence ever holds more blocks than the window has, and freeing a table returns each of them once. */
    lemma HeldAtMost(id: int)
      requires Valid() && id in blockTables
      ensures |Elements(blockTables[id])| == Min(|blockTables[id]|, window) <= window
      ensures Distinct(Tail(blockTables[id], window)) && Elements(Tail(blockTables[id], window)) == Elements(blockTables[id])
    {
      TailIsAll(blockTables[id], window);
    }
  }

  lemma HeldElsewhere(tables: map<int, BlockTable>, id: int, b: PhysicalTokenBlock)
    requires Held(tables, b) && (id in tables ==> b !in tables[id])
    ensures Held(tables - {id}, b)
  {
    var p :| p in tables && b in tables[p];
    assert p in tables - {id};
  }

  ghost predicate Held(tables: map<int, BlockTable>, b: PhysicalTokenBlock) {
    exists id | id in tables :: b in tables[id]
  }
}
