/** First come, first served (vllm/core/policy.py). */
module Policy {
  import opened Sequences

  /** `FCFS.get_priority` (36). */
  function Priority(now: real, g: SequenceGroup): real {
    now - g.arrivalTime
  }

  /** `sort_by_priority` (16-26): a stable sort, highest priority first. */
  function SortByPriority(now: real, groups: seq<SequenceGroup>): seq<SequenceGroup> {
    if groups == [] then [] else Insert(now, groups[0], SortByPriority(now, groups[1..]))
  }

  function Insert(now: real, g: SequenceGroup, sorted: seq<SequenceGroup>): seq<SequenceGroup> {
    if sorted == [] || Priority(now, sorted[0]) <= Priority(now, g) then [g] + sorted
    else [sorted[0]] + Insert(now, g, sorted[1..])
  }

  /** Earliest arrival first. */
  ghost predicate ByArrival(groups: seq<SequenceGroup>) {
    forall i, j :: 0 <= i < j < |groups| ==> groups[i].arrivalTime <= groups[j].arrivalTime
  }

  ghost function ArrivedAt(groups: seq<SequenceGroup>, time: real): seq<SequenceGroup> {
    if groups == [] then []
    else (if groups[0].arrivalTime == time then [groups[0]] else []) + ArrivedAt(groups[1..], time)
  }

  lemma {:induction false} InsertPermutes(now: real, g: SequenceGroup, sorted: seq<SequenceGroup>)
    ensures multiset(Insert(now, g, sorted)) == multiset{g} + multiset(sorted)
  {
    if sorted != [] && Priority(now, sorted[0]) > Priority(now, g) {
      InsertPermutes(now, g, sorted[1..]);
      assert sorted == [sorted[0]] + sorted[1..];
    }
  }

  lemma {:induction false} InsertOrders(now: real, g: SequenceGroup, sorted: seq<SequenceGroup>, least: real)
    requires ByArrival(sorted) && least <= g.arrivalTime && forall h | h in sorted :: least <= h.arrivalTime
    ensures ByArrival(Insert(now, g, sorted)) && forall h | h in Insert(now, g, sorted) :: least <= h.arrivalTime
  {
    if sorted != [] && Priority(now, sorted[0]) > Priority(now, g) {
      assert forall h | h in sorted[1..] :: sorted[0].arrivalTime <= h.arrivalTime;
      InsertOrders(now, g, sorted[1..], sorted[0].arrivalTime);
      assert Insert(now, g, sorted)[1..] == Insert(now, g, sorted[1..]);
    } else {
      assert Insert(now, g, sorted)[1..] == sorted;
    }
  }

  lemma {:induction false} InsertStable(now: real, g: SequenceGroup, sorted: seq<SequenceGroup>, time: real)
    ensures ArrivedAt(Insert(now, g, sorted), time) == (if g.arrivalTime == time then [g] else []) + ArrivedAt(sorted, time)
  {
    if sorted != [] && Priority(now, sorted[0]) > Priority(now, g) {
      InsertStable(now, g, sorted[1..], time);
      var inserted := Insert(now, g, sorted);
      assert inserted[0] == sorted[0] && inserted[1..] == Insert(now, g, sorted[1..]);
      var first := if sorted[0].arrivalTime == time then [sorted[0]] else [];
      assert ArrivedAt(sorted, time) == first + ArrivedAt(sorted[1..], time);
      assert ArrivedAt(inserted, time) == first + ArrivedAt(inserted[1..], time);
    } else {
      assert Insert(now, g, sorted)[1..] == sorted;
    }
  }

  /** The result is a permutation, earliest arrival first, and groups that arrived together keep their order. */
  lemma {:induction false} SortIsStable(now: real, groups: seq<SequenceGroup>, time: real)
    ensures ByArrival(SortByPriority(now, groups))
    ensures multiset(SortByPriority(now, groups)) == multiset(groups)
    ensures ArrivedAt(SortByPriority(now, groups), time) == ArrivedAt(groups, time)
  {
    if groups != [] {
      var rest := SortByPriority(now, groups[1..]);
      SortIsStable(now, groups[1..], time);
      InsertPermutes(now, groups[0], rest);
      var least := if rest == [] || groups[0].arrivalTime <= rest[0].arrivalTime then groups[0].arrivalTime else rest[0].arrivalTime;
      InsertOrders(now, groups[0], rest, least);
      InsertStable(now, groups[0], rest, time);
      assert groups == [groups[0]] + groups[1..];
    }
  }

  /** A queue that is already in order is left as it is. */
  lemma {:induction false} SortKeepsOrder(now: real, groups: seq<SequenceGroup>)
    requires ByArrival(groups)
    ensures SortByPriority(now, groups) == groups
  {
    if groups != [] {
      SortKeepsOrder(now, groups[1..]);
    }
  }
}
