/** The meaning of block tables and reference counts, on values.  `B` is the type of physical blocks. */
module Paging {
  import opened Blocks

  /** The sequences whose table contains block `b`: what a reference count is meant to count. */
  ghost function Holders<B>(tables: map<int, seq<B>>, b: B): set<int> {
    set id | id in tables && b in tables[id]
  }

  /** All blocks in the tables of `ids`. */
  ghost function BlocksOf<B>(tables: map<int, seq<B>>, ids: seq<int>): set<B> {
    set id, b | id in ids && id in tables && b in tables[id] :: b
  }

  lemma InBlocksOf<B>(tables: map<int, seq<B>>, ids: seq<int>, id: int, b: B)
    requires id in ids && id in tables && b in tables[id]
    ensures b in BlocksOf(tables, ids)
  {
  }

  lemma BlocksOfNone<B>(tables: map<int, seq<B>>)
    ensures BlocksOf(tables, []) == {}
  {
  }

  lemma BlocksOfPrefix<B>(tables: map<int, seq<B>>, ids: seq<int>, i: nat)
    requires i < |ids| && ids[i] in tables
    ensures BlocksOf(tables, ids[..i + 1]) == BlocksOf(tables, ids[..i]) + Elements(tables[ids[i]])
  {
    assert forall id :: id in ids[..i + 1] <==> id in ids[..i] || id == ids[i];
  }

  /** The block tables of all sequences and the reference count of every block of both devices. */
  datatype Ledger<B> = Ledger(tables: map<int, seq<B>>, refs: map<B, int>)

  /** References of `b` that no table accounts for. */
  ghost function Slack<B>(l: Ledger<B>, b: B): int
    requires b in l.refs
  {
    l.refs[b] - |Holders(l.tables, b)|
  }

  ghost function FreeSet<B>(l: Ledger<B>): set<B> {
    set b | b in l.refs && l.refs[b] == 0
  }

  /** No table repeats a block and each lies on one of the two devices. */
  ghost predicate WellFormed<B>(tables: map<int, seq<B>>, gpu: set<B>, cpu: set<B>) {
    forall id | id in tables :: TableOk(tables[id], gpu, cpu)
  }

  ghost predicate TableOk<B>(table: seq<B>, gpu: set<B>, cpu: set<B>) {
    Distinct(table) && (LiesIn(table, gpu) || LiesIn(table, cpu))
  }

  ghost predicate LiesIn<B>(table: seq<B>, device: set<B>) {
    forall b | b in table :: b in device
  }

  /** No block is held by more sequences than its count says, so a block on a free list is in no table. */
  ghost predicate Sound<B>(l: Ledger<B>, gpu: set<B>, cpu: set<B>) {
    && WellFormed(l.tables, gpu, cpu)
    && l.refs.Keys == gpu + cpu
    && Covered(l)
  }

  ghost predicate Covered<B>(l: Ledger<B>) {
    forall b | b in l.refs :: Slack(l, b) >= 0
  }

  /** Every count is exactly the number of holders. */
  ghost predicate Exact<B>(l: Ledger<B>) {
    forall b | b in l.refs :: Slack(l, b) == 0
  }

  /** The tables replaced by `tables`, every count moved by as much as the number of holders moved. */
  ghost function Recounted<B>(l: Ledger<B>, tables: map<int, seq<B>>): (r: Ledger<B>)
    requires Covered(l)
    ensures Covered(r)
    ensures r.tables == tables && r.refs.Keys == l.refs.Keys
    ensures forall b | b in l.refs :: Slack(r, b) == Slack(l, b)
  {
    Ledger(tables, map b | b in l.refs :: Slack(l, b) + |Holders(tables, b)|)
  }

  /** `table` becomes the table of every sequence in `ids`. */
  function Share<B>(tables: map<int, seq<B>>, ids: seq<int>, table: seq<B>): (r: map<int, seq<B>>)
    ensures forall id | id in ids :: id in r && r[id] == table
  {
    tables + map id | id in ids :: table
  }

  /** Unused blocks `table` given to the sequences `ids`, with every count set to `count`. */
  ghost function Granted<B>(l: Ledger<B>, ids: seq<int>, table: seq<B>, count: nat): Ledger<B> {
    Ledger(Share(l.tables, ids, table), map b | b in l.refs :: if b in table then count else l.refs[b])
  }

  lemma HoldersOfShare<B>(tables: map<int, seq<B>>, ids: seq<int>, table: seq<B>, b: B)
    ensures Holders(Share(tables, ids, table), b) ==
            (Holders(tables, b) - Elements(ids)) + if b in table then Elements(ids) else {}
  {
  }

  lemma FreeBlockHasNoHolder<B>(l: Ledger<B>, b: B)
    requires Covered(l) && b in FreeSet(l)
    ensures Holders(l.tables, b) == {}
    ensures forall id | id in l.tables :: b !in l.tables[id]
  {
    assert Slack(l, b) >= 0;
    forall id | id in l.tables ensures b !in l.tables[id] {
      assert id in Holders(l.tables, b) <==> b in l.tables[id];
    }
  }

  lemma GrantSlack<B>(l: Ledger<B>, gpu: set<B>, cpu: set<B>, ids: seq<int>, table: seq<B>, count: nat, b: B)
    requires Sound(l, gpu, cpu) && b in l.refs
    requires forall c | c in table :: c in FreeSet(l)
    ensures Slack(Granted(l, ids, table, count), b) ==
            if b in table then count - |Elements(ids)| else Slack(l, b) + |Holders(l.tables, b) * Elements(ids)|
  {
    HoldersOfShare(l.tables, ids, table, b);
    if b in table {
      FreeBlockHasNoHolder(l, b);
    }
  }

  lemma GrantKeepsSound<B>(l: Ledger<B>, gpu: set<B>, cpu: set<B>, ids: seq<int>, table: seq<B>, count: nat)
    requires Sound(l, gpu, cpu) && Distinct(table) && LiesIn(table, gpu) && |ids| <= count
    requires forall b | b in table :: b in FreeSet(l)
    ensures Sound(Granted(l, ids, table, count), gpu, cpu)
  {
    var r := Granted(l, ids, table, count);
    ElementsBound(ids);
    forall id | id in r.tables ensures TableOk(r.tables[id], gpu, cpu) {
      assert r.tables[id] == if id in ids then table else l.tables[id];
    }
    forall b | b in r.refs ensures Slack(r, b) >= 0 {
      GrantSlack(l, gpu, cpu, ids, table, count, b);
      assert Slack(l, b) >= 0;
    }
  }

  /** `allocate` gives each block of a prompt the size of the whole group as its count.  Counts stay exact
      precisely when that is the number of sequences that receive the table. */
  lemma GrantExactIff<B>(l: Ledger<B>, gpu: set<B>, cpu: set<B>, ids: seq<int>, table: seq<B>, count: nat)
    requires Sound(l, gpu, cpu) && Exact(l)
    requires forall b | b in table :: b in FreeSet(l)
    requires Distinct(ids) && forall id | id in ids :: id !in l.tables
    ensures Exact(Granted(l, ids, table, count)) <==> table == [] || count == |ids|
  {
    var r := Granted(l, ids, table, count);
    DistinctSize(ids);
    forall b | b in r.refs ensures Slack(r, b) == if b in table then count - |ids| else 0 {
      GrantSlack(l, gpu, cpu, ids, table, count, b);
      assert Holders(l.tables, b) * Elements(ids) == {};
    }
    if table != [] {
      assert table[0] in FreeSet(l);
      assert table[0] in r.refs && Slack(r, table[0]) == count - |ids|;
    }
  }

  /** For instance, with one finished member beside the waiting one, a block of its prompt is still counted after the waiting
      member has given up its table: it never becomes free again. */
  lemma FinishedMemberLeaks<B>(l: Ledger<B>, b: B, id: int)
    requires l.tables == map[] && l.refs == map[b := 0]
    ensures var g := Granted(l, [id], [b], 2);
      Covered(g) && !Exact(g) && Recounted(g, g.tables - {id}).refs[b] == 1
  {
    var g := Granted(l, [id], [b], 2);
    assert g.tables == map[id := [b]] && Holders(g.tables, b) == {id};
    assert g.tables - {id} == map[];
    RecountEmpty(g, b);
    assert Slack(g, b) == 1;
  }

  /** `append_slots` must take a block when the table is one short or when its last block is shared. */
  ghost predicate NeedsBlock<B>(l: Ledger<B>, id: int, n: nat)
    requires id in l.tables && (n <= |l.tables[id]| ==> l.tables[id] != [] && Last(l.tables[id]) in l.refs)
  {
    |l.tables[id]| < n || l.refs[Last(l.tables[id])] != 1
  }

  /** The table of `id` after `append_slots` for a sequence of `n` logical blocks, `nb` being the block it may take. */
  ghost function AppendedTable<B>(l: Ledger<B>, id: int, n: nat, nb: B): seq<B>
    requires id in l.tables && (n <= |l.tables[id]| ==> l.tables[id] != [] && Last(l.tables[id]) in l.refs)
  {
    var t := l.tables[id];
    if |t| < n then t + [nb]
    else if l.refs[Last(t)] == 1 then t
    else t[..|t| - 1] + [nb]
  }

  function Last<B>(s: seq<B>): B
    requires s != []
  {
    s[|s| - 1]
  }

  /** Holders after the table of `id` has gained the free block `nb`, in addition to or in place of its last block. */
  lemma HoldersAfterAppend<B>(l: Ledger<B>, gpu: set<B>, cpu: set<B>, id: int, n: nat, nb: B, b: B)
    requires Sound(l, gpu, cpu) && id in l.tables && b in l.refs
    requires n <= |l.tables[id]| ==> l.tables[id] != []
    requires NeedsBlock(l, id, n) && nb in FreeSet(l)
    ensures Holders(l.tables[id := AppendedTable(l, id, n, nb)], b) ==
            if b == nb then {id}
            else if n <= |l.tables[id]| && b == Last(l.tables[id]) then Holders(l.tables, b) - {id}
            else Holders(l.tables, b)
  {
    var t := l.tables[id];
    var t' := AppendedTable(l, id, n, nb);
    FreeBlockHasNoHolder(l, nb);
    assert TableOk(t, gpu, cpu);
    assert b in t' <==> b == nb || (b in t && !(n <= |t| && b == Last(t)));
  }

  /** A shared last block that is not counted once is counted at least twice. */
  lemma SharedLastBlock<B>(l: Ledger<B>, id: int)
    requires Covered(l) && id in l.tables && l.tables[id] != [] && Last(l.tables[id]) in l.refs
    ensures l.refs[Last(l.tables[id])] >= 1
  {
    assert Slack(l, Last(l.tables[id])) >= 0;
    assert id in Holders(l.tables, Last(l.tables[id]));
  }

  lemma AppendRecounts<B>(l: Ledger<B>, gpu: set<B>, cpu: set<B>, id: int, n: nat, nb: B)
    requires Sound(l, gpu, cpu) && id in l.tables && LiesIn(l.tables[id], gpu)
    requires n <= |l.tables[id]| ==> l.tables[id] != []
    requires NeedsBlock(l, id, n) && nb in FreeSet(l) && nb in gpu
    ensures var r := Recounted(l, l.tables[id := AppendedTable(l, id, n, nb)]);
      && Sound(r, gpu, cpu)
      && (n <= |l.tables[id]| ==> l.refs[Last(l.tables[id])] > 1)
      && forall b | b in l.refs ::
           r.refs[b] == if b == nb then 1
                        else if n <= |l.tables[id]| && b == Last(l.tables[id]) then l.refs[b] - 1
                        else l.refs[b]
  {
    FreeBlockHasNoHolder(l, nb);
    var t := l.tables[id];
    var t' := AppendedTable(l, id, n, nb);
    assert TableOk(t', gpu, cpu) by {
      assert TableOk(t, gpu, cpu);
    }
    RecountKeepsSound(l, gpu, cpu, id, t');
    if n <= |t| {
      SharedLastBlock(l, id);
    }
    forall b | b in l.refs
      ensures |Holders(l.tables[id := t'], b)| ==
              if b == nb then 1
              else if n <= |t| && b == Last(t) then |Holders(l.tables, b)| - 1
              else |Holders(l.tables, b)|
    {
      HoldersAfterAppend(l, gpu, cpu, id, n, nb, b);
      assert n <= |t| && b == Last(t) ==> id in Holders(l.tables, b);
    }
  }

  lemma RecountKeepsSound<B>(l: Ledger<B>, gpu: set<B>, cpu: set<B>, id: int, table: seq<B>)
    requires Sound(l, gpu, cpu) && TableOk(table, gpu, cpu)
    ensures WellFormed(l.tables[id := table], gpu, cpu) && WellFormed(l.tables - {id}, gpu, cpu)
  {
  }

  /** A child starts with its parent's table, each block of which is counted once more. */
  ghost function ForkedLedger<B>(l: Ledger<B>, parent: int, child: int): Ledger<B>
    requires parent in l.tables
  {
    Ledger(l.tables[child := l.tables[parent]], map b | b in l.refs :: l.refs[b] + if b in l.tables[parent] then 1 else 0)
  }

  /** What a table that the child had before holds is left counted. */
  lemma ForkSlack<B>(l: Ledger<B>, parent: int, child: int, b: B)
    requires parent in l.tables && b in l.refs
    ensures Slack(ForkedLedger(l, parent, child), b) == Slack(l, b) + if child in l.tables && b in l.tables[child] then 1 else 0
  {
    var now := Holders(l.tables[child := l.tables[parent]], b);
    var others := Holders(l.tables, b) - {child};
    assert now == others + if b in l.tables[parent] then {child} else {};
    assert Holders(l.tables, b) == others + if child in l.tables && b in l.tables[child] then {child} else {};
  }

  lemma ForkKeepsSound<B>(l: Ledger<B>, gpu: set<B>, cpu: set<B>, parent: int, child: int)
    requires Sound(l, gpu, cpu) && parent in l.tables
    ensures Sound(ForkedLedger(l, parent, child), gpu, cpu)
    ensures forall b | b in l.tables[parent] :: b in l.refs && l.refs[b] > 0
  {
    assert TableOk(l.tables[parent], gpu, cpu);
    forall b | b in l.refs ensures Slack(ForkedLedger(l, parent, child), b) >= 0 {
      ForkSlack(l, parent, child, b);
      assert Slack(l, b) >= 0;
    }
    forall b | b in l.tables[parent] ensures b in l.refs && l.refs[b] > 0 {
      assert Slack(l, b) >= 0 && parent in Holders(l.tables, b);
    }
  }

  /** So counts stay exact unless the child already held blocks. */
  lemma ForkExactIff<B>(l: Ledger<B>, gpu: set<B>, cpu: set<B>, parent: int, child: int)
    requires Sound(l, gpu, cpu) && Exact(l) && parent in l.tables
    ensures Exact(ForkedLedger(l, parent, child)) <==> child !in l.tables || l.tables[child] == []
  {
    forall b | b in l.refs
      ensures Slack(ForkedLedger(l, parent, child), b) == if child in l.tables && b in l.tables[child] then 1 else 0
    {
      ForkSlack(l, parent, child, b);
    }
    if child in l.tables && l.tables[child] != [] {
      var b := l.tables[child][0];
      assert TableOk(l.tables[child], gpu, cpu) && b in l.tables[child];
      assert b in ForkedLedger(l, parent, child).refs;
    }
  }

  /** For a new child the counts move with the holders. */
  lemma ForkRecounts<B>(l: Ledger<B>, gpu: set<B>, cpu: set<B>, parent: int, child: int)
    requires Sound(l, gpu, cpu) && parent in l.tables && child !in l.tables
    ensures var r := Recounted(l, l.tables[child := l.tables[parent]]);
      Sound(r, gpu, cpu) && ForkedLedger(l, parent, child) == r
  {
    var r := Recounted(l, l.tables[child := l.tables[parent]]);
    ForkKeepsSound(l, gpu, cpu, parent, child);
    forall b | b in l.refs ensures ForkedLedger(l, parent, child).refs[b] == r.refs[b] {
      ForkSlack(l, parent, child, b);
      assert Slack(r, b) == Slack(l, b);
    }
    assert ForkedLedger(l, parent, child).refs == r.refs;
  }

  /** Dropping a table takes one holder from each block of it, and no such block was unreferenced. */
  lemma FreeRecounts<B>(l: Ledger<B>, id: int)
    requires Covered(l) && id in l.tables
    ensures var r := Recounted(l, l.tables - {id});
      forall b | b in l.refs ::
        && r.refs[b] == l.refs[b] - (if b in l.tables[id] then 1 else 0)
        && (b in l.tables[id] ==> l.refs[b] > 0)
  {
    forall b | b in l.refs
      ensures b in l.tables[id] ==> l.refs[b] > 0
      ensures |Holders(l.tables - {id}, b)| == |Holders(l.tables, b)| - if b in l.tables[id] then 1 else 0
    {
      assert Slack(l, b) >= 0;
      assert Holders(l.tables - {id}, b) == Holders(l.tables, b) - {id};
      assert b in l.tables[id] <==> id in Holders(l.tables, b);
    }
  }

  /** Replacing entry `k` of one table by a block that is not in it moves one reference. */
  lemma MoveRecounts<B>(l: Ledger<B>, id: int, k: nat, c: B)
    requires Covered(l) && id in l.tables && k < |l.tables[id]| && Distinct(l.tables[id])
    requires l.tables[id][k] in l.refs && c in l.refs && c !in l.tables[id]
    ensures var r := Recounted(l, l.tables[id := l.tables[id][k := c]]);
      && l.refs[l.tables[id][k]] > 0
      && forall b | b in l.refs ::
           r.refs[b] == if b == c then l.refs[b] + 1 else if b == l.tables[id][k] then l.refs[b] - 1 else l.refs[b]
  {
    var t := l.tables[id];
    var t' := t[k := c];
    assert Slack(l, t[k]) >= 0 && id in Holders(l.tables, t[k]);
    forall b | b in l.refs
      ensures Holders(l.tables[id := t'], b) ==
              if b == c then Holders(l.tables, b) + {id} else if b == t[k] then Holders(l.tables, b) - {id} else Holders(l.tables, b)
    {
      assert t'[k] == c;
      assert b != c && b in t ==> b in t' || b == t[k] by {
        if b in t {
          var i :| 0 <= i < |t| && t[i] == b;
          assert i != k ==> t'[i] == b;
        }
      }
    }
  }

  lemma RecountTwice<B>(l: Ledger<B>, first: map<int, seq<B>>, second: map<int, seq<B>>)
    requires Covered(l)
    ensures Recounted(Recounted(l, first), second) == Recounted(l, second)
  {
    var r := Recounted(l, first);
    assert forall b | b in l.refs :: Slack(r, b) == Slack(l, b);
    assert Recounted(r, second).refs == Recounted(l, second).refs;
  }

  lemma RecountNothing<B>(l: Ledger<B>)
    requires Covered(l)
    ensures Recounted(l, l.tables) == l
  {
    assert Recounted(l, l.tables).refs == l.refs;
  }

  /** With no table left, the blocks still referenced are those whose count was not exact. */
  lemma RecountEmpty<B>(l: Ledger<B>, b: B)
    requires Covered(l) && b in l.refs
    ensures Recounted(l, map[]).refs[b] == Slack(l, b)
  {
    assert Holders(map[], b) == {};
  }

  /** `taken` is what popping `|taken|` times off the end of `free` yields, in that order. */
  ghost predicate PoppedFrom<B>(taken: seq<B>, free: seq<B>) {
    |taken| <= |free| && forall i | 0 <= i < |taken| :: taken[i] == free[|free| - 1 - i]
  }
}
