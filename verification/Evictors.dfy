/** The LRU evictor of the prefix cache (vllm/core/evictor.py). */
module Evictors {
  import opened Wrappers
  import opened Blocks

  // ---- the choice, on values ------------------------------------------------------------------------------------------

  datatype Candidate = Candidate(lastAccessed: int, numHashedTokens: int)

  /** The loop of `evict` (74-78) from candidate `k` on, `chosen` being the best so far. */
  function Scan(cs: seq<Candidate>, k: nat, chosen: nat): (r: nat)
    requires chosen < |cs|
    ensures r < |cs|
    decreases |cs| - k
  {
    if k >= |cs| || cs[chosen].lastAccessed < cs[k].lastAccessed then chosen
    else Scan(cs, k + 1, if cs[chosen].numHashedTokens < cs[k].numHashedTokens then k else chosen)
  }

  function Choice(cs: seq<Candidate>): (r: nat)
    requires cs != []
    ensures r < |cs|
  {
    Scan(cs, 0, 0)
  }

  /** What the class promises: least recently used, and among those the most hashed tokens. */
  ghost predicate Right(cs: seq<Candidate>, r: nat)
    requires r < |cs|
  {
    forall i | 0 <= i < |cs| ::
      && cs[r].lastAccessed <= cs[i].lastAccessed
      && (cs[i].lastAccessed == cs[r].lastAccessed ==> cs[i].numHashedTokens <= cs[r].numHashedTokens)
  }

  function Least(times: seq<int>): (m: int)
    requires times != []
    ensures m in times && forall i | 0 <= i < |times| :: m <= times[i]
  {
    if |times| == 1 then times[0]
    else
      var m := Least(times[1..]);
      if times[0] < m then times[0] else m
  }

  /** "The blocks with the lowest timestamps should be placed consecutively at the start" (71-73). */
  ghost predicate LeastFirst(times: seq<int>) {
    times == [] || forall i, j | 0 <= i < j < |times| && times[j] == Least(times) :: times[i] == Least(times)
  }

  function Candidates(times: seq<int>, nums: seq<int>): (cs: seq<Candidate>)
    requires |nums| == |times|
    ensures |cs| == |times| && forall i | 0 <= i < |cs| :: cs[i] == Candidate(times[i], nums[i])
  {
    if times == [] then [] else [Candidate(times[0], nums[0])] + Candidates(times[1..], nums[1..])
  }

  lemma {:induction false} ScanRight(cs: seq<Candidate>, times: seq<int>, least: int, k: nat, chosen: nat)
    requires |times| == |cs| && forall i | 0 <= i < |cs| :: cs[i].lastAccessed == times[i]
    requires forall i | 0 <= i < |cs| :: least <= times[i]
    requires forall i, j | 0 <= i < j < |times| && times[j] == least :: times[i] == least
    requires chosen < |cs| && chosen <= k <= |cs| && times[chosen] == least
    requires forall i | 0 <= i < k && times[i] == least :: cs[i].numHashedTokens <= cs[chosen].numHashedTokens
    ensures Right(cs, Scan(cs, k, chosen))
    decreases |cs| - k
  {
    if k < |cs| {
      if least < times[k] {
        assert forall i | k < i < |cs| :: times[i] != least;
      } else {
        ScanRight(cs, times, least, k + 1, if cs[chosen].numHashedTokens < cs[k].numHashedTokens then k else chosen);
      }
    }
  }

  /** With the least recently used blocks in front, the right one is evicted. */
  lemma LeastFirstChooses(times: seq<int>, nums: seq<int>)
    requires LeastFirst(times) && |nums| == |times| > 0
    ensures Right(Candidates(times, nums), Choice(Candidates(times, nums)))
  {
    var least := Least(times);
    var j :| 0 <= j < |times| && times[j] == least;
    assert times[0] == least;
    ScanRight(Candidates(times, nums), times, least, 0, 0);
  }

  /** The scan stops before it reaches a block behind a more recently used one. */
  lemma {:induction false} ScanStops(cs: seq<Candidate>, k: nat, chosen: nat, stop: nat)
    requires chosen < stop && k <= stop < |cs|
    requires forall i | 0 <= i < stop :: cs[i].numHashedTokens <= cs[chosen].numHashedTokens
    requires cs[chosen].lastAccessed < cs[stop].lastAccessed
    ensures Scan(cs, k, chosen) == chosen
    decreases |cs| - k
  {
    if k < stop {
      ScanStops(cs, k + 1, chosen, stop);
    }
  }

  /** Nothing with fewer hashed tokens displaces the first candidate. */
  lemma {:induction false} ScanKeeps(cs: seq<Candidate>, k: nat, chosen: nat)
    requires chosen < |cs| && forall i | 0 <= i < |cs| :: cs[i].numHashedTokens <= cs[chosen].numHashedTokens
    ensures Scan(cs, k, chosen) == chosen
    decreases |cs| - k
  {
    if k < |cs| {
      ScanKeeps(cs, k + 1, chosen);
    }
  }

  function Marked(n: nat, at: nat): (r: seq<int>)
    ensures |r| == n && forall i | 0 <= i < n :: r[i] == if i == at then 1 else 0
  {
    if n == 0 then [] else Marked(n - 1, at) + [if n - 1 == at then 1 else 0]
  }

  /** Otherwise some numbers of hashed tokens make it choose wrongly. */
  lemma OutOfOrderMisses(times: seq<int>)
    requires times != [] && !LeastFirst(times)
    ensures exists nums: seq<int> | |nums| == |times| :: !Right(Candidates(times, nums), Choice(Candidates(times, nums)))
  {
    hide Right, Choice, LeastFirst, Candidates;
    if Least(times) < times[0] {
      var j :| 0 <= j < |times| && times[j] == Least(times);
      MissesLater(times, j);
    } else {
      var i, l := OutOfOrder(times);
      MissesHidden(times, i, l);
    }
  }

  lemma OutOfOrder(times: seq<int>) returns (i: nat, l: nat)
    requires times != [] && !LeastFirst(times)
    ensures i < l < |times| && times[l] == Least(times) < times[i]
  {
    i, l :| 0 <= i < l < |times| && times[l] == Least(times) && times[i] != Least(times);
  }

  /** A later block was used less recently than the first. */
  lemma MissesLater(times: seq<int>, j: nat)
    requires j < |times| && times[j] < times[0]
    ensures !Right(Candidates(times, Marked(|times|, 0)), Choice(Candidates(times, Marked(|times|, 0))))
  {
    var cs := Candidates(times, Marked(|times|, 0));
    ScanKeeps(cs, 0, 0);
    assert cs[j].lastAccessed < cs[Choice(cs)].lastAccessed;
  }

  /** A more recently used block hides one that the choice should have preferred. */
  lemma MissesHidden(times: seq<int>, i: nat, l: nat)
    requires i < l < |times| && times[l] == times[0] < times[i]
    ensures !Right(Candidates(times, Marked(|times|, l)), Choice(Candidates(times, Marked(|times|, l))))
  {
    var cs := Candidates(times, Marked(|times|, l));
    ScanStops(cs, 0, 0, i);
    assert cs[l].lastAccessed == cs[Choice(cs)].lastAccessed && cs[l].numHashedTokens > cs[Choice(cs)].numHashedTokens;
  }

  /** Exactly when the early exit is harmless, whatever the blocks hold. */
  lemma EvictsRightIff(times: seq<int>)
    requires times != []
    ensures LeastFirst(times) <==>
            forall nums: seq<int> | |nums| == |times| :: Right(Candidates(times, nums), Choice(Candidates(times, nums)))
  {
    if LeastFirst(times) {
      forall nums: seq<int> | |nums| == |times| ensures Right(Candidates(times, nums), Choice(Candidates(times, nums))) {
        LeastFirstChooses(times, nums);
      }
    } else {
      OutOfOrderMisses(times);
    }
  }

  /** For instance, of two blocks with the more recently used one in front that one is evicted. */
  lemma EvictsRecentlyUsed()
    ensures var cs := [Candidate(2, 1), Candidate(1, 1)]; Choice(cs) == 0 && !Right(cs, Choice(cs))
  {
    var cs := [Candidate(2, 1), Candidate(1, 1)];
    assert Scan(cs, 2, 0) == 0;
    assert cs[1].lastAccessed < cs[0].lastAccessed;
  }

  /** Of the first `k` blocks, the first with the most hashed tokens. */
  function FirstMost(cs: seq<Candidate>, k: nat): (m: nat)
    requires 0 < k <= |cs|
    ensures m < k && (forall i | 0 <= i < k :: cs[i].numHashedTokens <= cs[m].numHashedTokens)
    ensures forall i | 0 <= i < m :: cs[i].numHashedTokens < cs[m].numHashedTokens
  {
    if k == 1 then 0
    else
      var m := FirstMost(cs, k - 1);
      if cs[m].numHashedTokens < cs[k - 1].numHashedTokens then k - 1 else m
  }

  /** No block up to `m` was used more recently than the first with the most hashed tokens before it. */
  ghost predicate Reaches(cs: seq<Candidate>, m: nat)
    requires m < |cs|
  {
    forall k | 0 < k <= m :: cs[k].lastAccessed <= cs[FirstMost(cs, k)].lastAccessed
  }

  /** A right choice that the loop gets to, and that no block before it holds up. */
  ghost predicate Chosen(cs: seq<Candidate>, m: nat)
    requires m < |cs|
  {
    Right(cs, m) && Reaches(cs, m) && forall i | 0 <= i < m :: cs[i].numHashedTokens < cs[m].numHashedTokens
  }

  lemma {:induction false} ScanChooses(cs: seq<Candidate>, k: nat)
    requires 0 < k <= |cs| && forall j | 0 < j < k :: cs[j].lastAccessed <= cs[FirstMost(cs, j)].lastAccessed
    ensures var r := Scan(cs, k, FirstMost(cs, k));
      Reaches(cs, r) && forall i | 0 <= i < r :: cs[i].numHashedTokens < cs[r].numHashedTokens
    decreases |cs| - k
  {
    if k < |cs| && cs[k].lastAccessed <= cs[FirstMost(cs, k)].lastAccessed {
      ScanChooses(cs, k + 1);
    }
  }

  lemma {:induction false} ScanArrives(cs: seq<Candidate>, k: nat, m: nat)
    requires 0 < k <= m < |cs| && Chosen(cs, m)
    ensures Scan(cs, k, FirstMost(cs, k)) == m
    decreases m - k
  {
    assert cs[k].lastAccessed <= cs[FirstMost(cs, k)].lastAccessed;
    if k < m {
      ScanArrives(cs, k + 1, m);
    } else {
      ScanStays(cs, m + 1, m);
    }
  }

  lemma {:induction false} ScanStays(cs: seq<Candidate>, k: nat, m: nat)
    requires m < |cs| && Right(cs, m)
    ensures Scan(cs, k, m) == m
    decreases |cs| - k
  {
    if k < |cs| {
      ScanStays(cs, k + 1, m);
    }
  }

  /** For one table: the choice is right if and only if some right block comes before every block that was used more recently
      than the candidate of the moment, and after none with as many hashed tokens. */
  lemma ChoiceRightIff(cs: seq<Candidate>)
    requires cs != []
    ensures Right(cs, Choice(cs)) <==> exists m | 0 <= m < |cs| :: Chosen(cs, m)
  {
    hide Right, Reaches;
    ScanFirst(cs);
    ScanChooses(cs, 1);
    if Right(cs, Choice(cs)) {
      assert Chosen(cs, Choice(cs));
    }
    forall m | 0 <= m < |cs| && Chosen(cs, m) ensures Right(cs, Choice(cs)) {
      ChosenIs(cs, m);
    }
  }

  lemma ScanFirst(cs: seq<Candidate>)
    requires cs != []
    ensures Choice(cs) == Scan(cs, 1, FirstMost(cs, 1))
  {
  }

  lemma ChosenIs(cs: seq<Candidate>, m: nat)
    requires m < |cs| && Chosen(cs, m)
    ensures Choice(cs) == m && Right(cs, m)
  {
    if m == 0 {
      ScanStays(cs, 0, 0);
    } else {
      ScanFirst(cs);
      ScanArrives(cs, 1, m);
    }
  }

  /** Blocks accessed and freed in order keep the table in order. */
  ghost predicate Ordered(times: seq<int>) {
    forall i, j | 0 <= i < j < |times| :: times[i] <= times[j]
  }

  lemma OrderedLeastFirst(times: seq<int>)
    requires Ordered(times)
    ensures LeastFirst(times)
  {
  }

  // ---- the class ------------------------------------------------------------------------------------------------------

  function IndexOf(keys: seq<Hash>, key: Hash): (i: nat)
    requires key in keys
    ensures i < |keys| && keys[i] == key && key !in keys[..i]
  {
    if keys[0] == key then 0 else
      assert keys == [keys[0]] + keys[1..];
      1 + IndexOf(keys[1..], key)
  }

  function Without<T>(s: seq<T>, i: nat): (r: seq<T>)
    requires i < |s|
    ensures |r| == |s| - 1
  {
    s[..i] + s[i + 1..]
  }

  lemma WithoutDistinct<T>(s: seq<T>, i: nat)
    requires Distinct(s) && i < |s|
    ensures Distinct(Without(s, i)) && forall x :: x in Without(s, i) <==> x in s && x != s[i]
  {
    var rest := Without(s, i);
    forall x ensures x in rest <==> x in s && x != s[i] {
      if x in rest {
        var k :| 0 <= k < |rest| && rest[k] == x;
        assert s[if k < i then k else k + 1] == x;
      }
      if x in s && x != s[i] {
        var k :| 0 <= k < |s| && s[k] == x;
        assert rest[if k < i then k else k - 1] == x;
      }
    }
  }

  class LruEvictor {
    // The ordered dictionary: its keys, oldest first, and the block of each.
    var keys: seq<Hash>
    var table: BlockTable

    /** Every block is filed under its own hash. */
    ghost predicate Valid()
      reads this, table
    {
      && |table| == |keys| && Distinct(keys)
      && forall i | 0 <= i < |keys| :: table[i].blockHash == keys[i]
    }

    constructor ()
      ensures Valid() && keys == [] && table == []
    {
      keys, table := [], [];
    }

    /** What the choice depends on. */
    ghost function Contenders(): (cs: seq<Candidate>)
      reads this, table
      ensures |cs| == |table|
      ensures forall i | 0 <= i < |cs| :: cs[i] == Candidate(table[i].lastAccessed, table[i].numHashedTokens)
    {
      ContendersOf(table)
    }

    /** `evict` (66-83).  The error is the ValueError for an empty table. */
    method Evict() returns (r: Result<PhysicalTokenBlock>)
      requires Valid()
      modifies this`keys, this`table, table`computed
      ensures r.Ok? <==> old(keys) != []
      ensures r.Err? ==> r.error == OutOfMemory && unchanged(this)
      ensures r.Ok? ==>
        && var i := Choice(old(Contenders()));
        && r.value == old(table)[i] && !r.value.computed && keys == Without(old(keys), i) && table == Without(old(table), i)
      ensures forall b | b in old(table) :: b.computed == old(b.computed) || (r.Ok? && b == r.value)
    {
      if |keys| == 0 {
        return Err(OutOfMemory);
      }
      var chosen := ChooseVictim();
      var evicted := table[chosen];
      keys, table := Without(keys, chosen), Without(table, chosen);
      evicted.computed := false;
      return Ok(evicted);
    }

    /** The loop of `evict` (70-78). */
    method ChooseVictim() returns (chosen: nat)
      requires table != []
      ensures chosen < |table| && chosen == Choice(Contenders())
    {
      ghost var cs := Contenders();
      chosen := 0;
      for k := 0 to |table|
        invariant chosen < |table| && Scan(cs, 0, 0) == Scan(cs, k, chosen)
      {
        if table[chosen].lastAccessed < table[k].lastAccessed {
          break;
        }
        if table[chosen].numHashedTokens < table[k].numHashedTokens {
          chosen := k;
        }
      }
    }

    /** `add` (85-86), for a block whose hash is not in the table. */
    method Add(block: PhysicalTokenBlock)
      requires block.blockHash !in keys
      modifies this
      ensures keys == old(keys) + [block.blockHash] && table == old(table) + [block]
    {
      keys, table := keys + [block.blockHash], table + [block];
    }

    /** `remove` (88-94). */
    method Remove(hash: Hash) returns (r: Result<PhysicalTokenBlock>)
      requires Valid()
      modifies this
      ensures r.Ok? <==> hash in old(keys)
      ensures r.Err? ==> r.error == KeyError && unchanged(this)
      ensures r.Ok? ==>
        && var i := IndexOf(old(keys), hash);
        && r.value == old(table)[i] && keys == Without(old(keys), i) && table == Without(old(table), i)
    {
      if hash !in keys {
        return Err(KeyError);
      }
      var i := IndexOf(keys, hash);
      var block := table[i];
      keys, table := Without(keys, i), Without(table, i);
      return Ok(block);
    }
  }

  /** Freeing the block that was used last before one that was used earlier leaves them in this order, and with as many
      hashed tokens the one used last is evicted. */
  method EvictAfterLateFree(evictor: LruEvictor, recent: PhysicalTokenBlock,
                            earlier: PhysicalTokenBlock) returns (r: Result<PhysicalTokenBlock>)
    requires evictor.Valid() && evictor.keys == [] && recent.blockHash != earlier.blockHash
    requires earlier.lastAccessed < recent.lastAccessed && earlier.numHashedTokens == recent.numHashedTokens
    modifies evictor, recent`computed, earlier`computed
    ensures r == Ok(recent)
  {
    evictor.Add(recent);
    evictor.Add(earlier);
    ghost var cs := evictor.Contenders();
    assert cs[0].numHashedTokens == cs[1].numHashedTokens;
    ScanKeeps(cs, 0, 0);
    r := evictor.Evict();
  }

  ghost function ContendersOf(table: BlockTable): (cs: seq<Candidate>)
    reads table
    ensures |cs| == |table|
    ensures forall i | 0 <= i < |cs| :: cs[i] == Candidate(table[i].lastAccessed, table[i].numHashedTokens)
  {
    if table == [] then []
    else ContendersOf(table[..|table| - 1]) + [Candidate(table[|table| - 1].lastAccessed, table[|table| - 1].numHashedTokens)]
  }
}
