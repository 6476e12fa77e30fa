/** What the cache holds between two steps of the engine: for every sequence with a table, just the entries computed for it. */
module Serving {
  import opened Blocks
  import opened Paging
  import opened Sequences
  import opened GroupStates
  import opened Rosters
  import opened Queues
  import opened Policy
  import opened Transfers
  import opened Preemptions
  import opened Footprints
  import opened Contents
  import opened Outputs
  import KvRefinement
  import Arithmetic

  // ---- where the groups of a decoding step are --------------------------------------------------------------------

  /** The groups that go on, those that are preempted, and those that come back, before and after. */
  ghost predicate Went(before: multiset<Entry>, after: multiset<Entry>, kept: seq<SequenceGroup>, victims: seq<SequenceGroup>,
                       returned: seq<SequenceGroup>) {
    && (forall g | g in kept :: Entry(g, InRunning) in before && Entry(g, InStep(1)) in after)
    && (forall v | v in victims :: Entry(v, InRunning) in before && Evicted(v) in after)
    && (forall g | g in returned :: Entry(g, InSwapped) in before && Entry(Restated(g, Status.Swapped, Running), InStep(1)) in after)
  }

  /** What a place says of the tables of a group. */
  lemma PlaceSays(entries: multiset<Entry>, e: Entry, tables: map<int, BlockTable>, gpu: set<PhysicalTokenBlock>,
                  cpu: set<PhysicalTokenBlock>, blockSize: nat, owner: map<int, int>)
    requires EntriesOk(entries, tables, gpu, cpu, blockSize, owner) && e in entries
    ensures Owned(e.group, owner)
    ensures e.place.InRunning? || e.place.InStep? ==> Grounding(e.group, tables, gpu)
    ensures e.place.InSwapped? ==> Grounding(e.group, tables, cpu)
    ensures e.place.InWaiting? ==> forall s | s in e.group.seqs :: s.id !in tables
    ensures GroupOk(e.group) && DistinctIds(e.group.seqs)
  {
    assert EntryOk(e, tables, gpu, cpu, blockSize, owner);
    if e.place.InStep? {
      forall s | s in e.group.seqs && !s.IsFinished() ensures s.id in tables && LiesIn(tables[s.id], gpu) {
        assert ScheduledMember(s, e.place.chunk, tables, gpu, blockSize);
      }
    }
  }

  /** Whoever has a table is a live member of the group of its request. */
  lemma TableOfMember(entries: multiset<Entry>, e: Entry, tables: map<int, BlockTable>, gpu: set<PhysicalTokenBlock>,
                      cpu: set<PhysicalTokenBlock>, blockSize: nat, owner: map<int, int>, id: int) returns (s: Sequence)
    requires EntriesOk(entries, tables, gpu, cpu, blockSize, owner) && e in entries
    requires id in tables && id in owner && owner[id] == e.group.requestId
    ensures s in e.group.seqs && s.id == id && !s.IsFinished() && !e.place.InWaiting?
  {
    hide EntryOk;
    var f :| f in entries && HasMember(f.group, id);
    PlaceSays(entries, f, tables, gpu, cpu, blockSize, owner);
    PlaceSays(entries, e, tables, gpu, cpu, blockSize, owner);
    s :| s in f.group.seqs && s.id == id;
    assert f == e;
    FinishedUntabled(e, tables, gpu, cpu, blockSize, owner);
  }

  /** A change of status leaves the live members, their tokens and their counters. */
  lemma RestatedMember(g: SequenceGroup, from: Status, to: Status, s: Sequence) returns (s': Sequence)
    requires s in g.seqs && !s.IsFinished() && !from.IsFinished() && !to.IsFinished()
    ensures s' in Restated(g, from, to).seqs && s'.id == s.id && !s'.IsFinished()
    ensures s'.tokens == s.tokens && s'.numComputed == s.numComputed
  {
    var i :| 0 <= i < |g.seqs| && g.seqs[i] == s;
    s' := Restated(g, from, to).seqs[i];
  }

  lemma RestatedFrom(g: SequenceGroup, from: Status, to: Status, s': Sequence) returns (s: Sequence)
    requires s' in Restated(g, from, to).seqs && !s'.IsFinished() && !from.IsFinished() && !to.IsFinished()
    ensures s in g.seqs && s.id == s'.id && !s.IsFinished()
    ensures s.tokens == s'.tokens && s.numComputed == s'.numComputed
  {
    var i :| 0 <= i < |g.seqs| && Restated(g, from, to).seqs[i] == s';
    s := g.seqs[i];
  }

  lemma {:induction false} SwappedOnes(groups: seq<SequenceGroup>, s: Sequence)
    ensures s in SwappedMembers(groups) <==> exists g | g in groups :: g.MaxNumRunningSeqs() != 1 && s in Unfinished(g.seqs)
  {
    if groups != [] {
      SwappedOnes(groups[1..], s);
      assert forall g :: g in groups <==> g == groups[0] || g in groups[1..];
    }
  }

  /** The step as seen from both ends. */
  ghost predicate Ends(before: multiset<Entry>, after: multiset<Entry>, start: map<int, BlockTable>, now: map<int, BlockTable>,
                       gpu: set<PhysicalTokenBlock>, cpu: set<PhysicalTokenBlock>, blockSize: nat, owner: map<int, int>)
  {
    && EntriesOk(before, start, gpu, cpu, blockSize, owner) && EntriesOk(after, now, gpu, cpu, blockSize, owner)
    && gpu !! cpu && NumberedOn(gpu) && NumberedOn(cpu) && Unshared(now, owner)
    && WellFormed(start, gpu, cpu) && WellFormed(now, gpu, cpu)
  }

  lemma KeptPlaces(before: multiset<Entry>, after: multiset<Entry>, kept: seq<SequenceGroup>, start: map<int, BlockTable>,
                   now: map<int, BlockTable>, gpu: set<PhysicalTokenBlock>, cpu: set<PhysicalTokenBlock>, blockSize: nat,
                   owner: map<int, int>)
    requires Ends(before, after, start, now, gpu, cpu, blockSize, owner)
    requires forall g | g in kept :: Entry(g, InRunning) in before && Entry(g, InStep(1)) in after
    ensures Located(LiveOf(kept), start, gpu) && Located(LiveOf(kept), now, gpu)
    ensures OwnedBy(LiveOf(kept), RequestIds(kept), owner) && AllOf(LiveOf(kept), RequestIds(kept), now, owner)
  {
    hide EntriesOk, WellFormed, NumberedOn, Unshared, LiesIn, LiveOf;
    forall s | s in LiveOf(kept)
      ensures s.id in start ==> LiesIn(start[s.id], gpu)
      ensures s.id in now ==> LiesIn(now[s.id], gpu)
      ensures s.id in owner && owner[s.id] in RequestIds(kept)
    {
      LiveOfMembers(kept, s);
      var g :| g in kept && s in g.seqs && !s.IsFinished();
      PlaceSays(before, Entry(g, InRunning), start, gpu, cpu, blockSize, owner);
      PlaceSays(after, Entry(g, InStep(1)), now, gpu, cpu, blockSize, owner);
    }
    forall id | id in now && id in owner && owner[id] in RequestIds(kept) ensures exists s | s in LiveOf(kept) :: s.id == id {
      var g :| g in kept && g.requestId == owner[id];
      var s := TableOfMember(after, Entry(g, InStep(1)), now, gpu, cpu, blockSize, owner, id);
      LiveMembers(kept, s);
      UnfinishedIsSubsequence(g.seqs);
    }
  }

  lemma VictimPlaces(before: multiset<Entry>, after: multiset<Entry>, victims: seq<SequenceGroup>, start: map<int, BlockTable>,
                     now: map<int, BlockTable>, gpu: set<PhysicalTokenBlock>, cpu: set<PhysicalTokenBlock>, blockSize: nat,
                     owner: map<int, int>)
    requires Ends(before, after, start, now, gpu, cpu, blockSize, owner)
    requires forall v | v in victims :: Entry(v, InRunning) in before && Evicted(v) in after
    ensures Located(SwappedMembers(victims), start, gpu) && Located(SwappedMembers(victims), now, cpu)
    ensures OwnedBy(SwappedMembers(victims), RequestIds(victims), owner)
    ensures AllOf(SwappedMembers(victims), RequestIds(victims), now, owner)
  {
    hide EntriesOk, WellFormed, NumberedOn, Unshared, LiesIn, SwappedMembers, Preempted, Restated, SequenceGroup.MaxNumRunningSeqs;
    forall s | s in SwappedMembers(victims)
      ensures s.id in start ==> LiesIn(start[s.id], gpu)
      ensures s.id in now ==> LiesIn(now[s.id], cpu)
      ensures s.id in owner && owner[s.id] in RequestIds(victims)
    {
      SwappedOnes(victims, s);
      var v :| v in victims && v.MaxNumRunningSeqs() != 1 && s in Unfinished(v.seqs);
      UnfinishedIsSubsequence(v.seqs);
      PlaceSays(before, Entry(v, InRunning), start, gpu, cpu, blockSize, owner);
      PlaceSays(after, Evicted(v), now, gpu, cpu, blockSize, owner);
      var s' := RestatedMember(v, Running, Status.Swapped, s);
    }
    forall id | id in now && id in owner && owner[id] in RequestIds(victims) ensures exists s | s in SwappedMembers(victims) :: s.id == id {
      var v :| v in victims && v.requestId == owner[id];
      SameRequestEvicted(v);
      var s' := TableOfMember(after, Evicted(v), now, gpu, cpu, blockSize, owner, id);
      var s := RestatedFrom(v, Running, Status.Swapped, s');
      UnfinishedIsSubsequence(v.seqs);
      SwappedOnes(victims, s);
    }
  }

  lemma SameRequestEvicted(v: SequenceGroup)
    ensures Evicted(v).group.requestId == v.requestId
  {
  }

  lemma ReturnedPlaces(before: multiset<Entry>, after: multiset<Entry>, returned: seq<SequenceGroup>, start: map<int, BlockTable>,
                       now: map<int, BlockTable>, gpu: set<PhysicalTokenBlock>, cpu: set<PhysicalTokenBlock>, blockSize: nat,
                       owner: map<int, int>)
    requires Ends(before, after, start, now, gpu, cpu, blockSize, owner)
    requires forall g | g in returned :: Entry(g, InSwapped) in before && Entry(Restated(g, Status.Swapped, Running), InStep(1)) in after
    ensures Located(LiveOf(returned), start, cpu) && Located(LiveOf(returned), now, gpu)
    ensures OwnedBy(LiveOf(returned), RequestIds(returned), owner) && AllOf(LiveOf(returned), RequestIds(returned), now, owner)
  {
    hide EntriesOk, WellFormed, NumberedOn, Unshared, LiesIn, LiveOf;
    forall s | s in LiveOf(returned)
      ensures s.id in start ==> LiesIn(start[s.id], cpu)
      ensures s.id in now ==> LiesIn(now[s.id], gpu)
      ensures s.id in owner && owner[s.id] in RequestIds(returned)
    {
      LiveOfMembers(returned, s);
      var g :| g in returned && s in g.seqs && !s.IsFinished();
      PlaceSays(before, Entry(g, InSwapped), start, gpu, cpu, blockSize, owner);
      PlaceSays(after, Entry(Restated(g, Status.Swapped, Running), InStep(1)), now, gpu, cpu, blockSize, owner);
      var s' := RestatedMember(g, Status.Swapped, Running, s);
    }
    forall id | id in now && id in owner && owner[id] in RequestIds(returned) ensures exists s | s in LiveOf(returned) :: s.id == id {
      var g :| g in returned && g.requestId == owner[id];
      var s' := TableOfMember(after, Entry(Restated(g, Status.Swapped, Running), InStep(1)), now, gpu, cpu, blockSize, owner, id);
      var s := RestatedFrom(g, Status.Swapped, Running, s');
      LiveMembers(returned, s);
      UnfinishedIsSubsequence(g.seqs);
    }
  }

  /** Different places, different requests. */
  lemma PlacesApart(entries: multiset<Entry>, a: Entry, b: Entry)
    requires Unique(entries) && a in entries && b in entries && a.place != b.place
    ensures a.group.requestId != b.group.requestId
  {
  }

  lemma WentApart(before: multiset<Entry>, after: multiset<Entry>, kept: seq<SequenceGroup>, victims: seq<SequenceGroup>,
                  returned: seq<SequenceGroup>)
    requires Unique(before) && Unique(after) && Went(before, after, kept, victims, returned)
    ensures RequestIds(kept) !! RequestIds(victims) && RequestIds(kept) !! RequestIds(returned)
    ensures RequestIds(victims) !! RequestIds(returned)
  {
    hide Unique, Preempted, Restated, SequenceGroup.MaxNumRunningSeqs, Evicted;
    forall g, h | g in kept && h in victims ensures g.requestId != h.requestId {
      SameRequestEvicted(h);
      EvictedPlace(h);
      PlacesApart(after, Entry(g, InStep(1)), Evicted(h));
    }
    forall g, h | g in kept + victims && h in returned ensures g.requestId != h.requestId {
      PlacesApart(before, Entry(g, InRunning), Entry(h, InSwapped));
    }
    assert forall g | g in kept :: g in kept + victims;
    assert forall g | g in victims :: g in kept + victims;
  }

  lemma EvictedPlace(v: SequenceGroup)
    ensures Evicted(v).place.InWaiting? || Evicted(v).place.InSwapped?
  {
  }

  lemma WentPlaced(before: multiset<Entry>, after: multiset<Entry>, kept: seq<SequenceGroup>, victims: seq<SequenceGroup>,
                   returned: seq<SequenceGroup>, start: map<int, BlockTable>, now: map<int, BlockTable>,
                   gpu: set<PhysicalTokenBlock>, cpu: set<PhysicalTokenBlock>, blockSize: nat, owner: map<int, int>)
    requires Ends(before, after, start, now, gpu, cpu, blockSize, owner) && Went(before, after, kept, victims, returned)
    ensures Situated(start, now, kept, victims, returned, owner, gpu, cpu)
  {
    hide EntryOk, Tabled, Unique, Located, OwnedBy, AllOf, WellFormed, NumberedOn, Unshared, Evicted, RequestIds, LiveOf, SwappedMembers;
    KeptPlaces(before, after, kept, start, now, gpu, cpu, blockSize, owner);
    VictimPlaces(before, after, victims, start, now, gpu, cpu, blockSize, owner);
    ReturnedPlaces(before, after, returned, start, now, gpu, cpu, blockSize, owner);
    WentApart(before, after, kept, victims, returned);
    forall id | id in now ensures id in owner {
      TabledOwned(after, id, now, gpu, cpu, blockSize, owner);
    }
  }

  // ---- a decoding step --------------------------------------------------------------------------------------------

  type System<K> = KvRefinement.System<PhysicalTokenBlock, K>

  ghost function ChunkOf(place: Place): nat {
    if place.InStep? then place.chunk else 0
  }

  /** As many entries as tokens computed, those of this step included. */
  ghost predicate Computed<K>(entries: multiset<Entry>, kv: map<int, seq<K>>) {
    forall e, s | e in entries && s in e.group.seqs && !s.IsFinished() && s.id in kv :: |kv[s.id]| == s.numComputed + ChunkOf(e.place)
  }

  /** Every table shows just the entries computed for its sequence. */
  ghost predicate Backed<K>(s: System<K>, entries: multiset<Entry>) {
    KvRefinement.Refines(s) && Computed(entries, s.kv)
  }

  /** Where each group comes from that is known after a decoding step. */
  ghost predicate From(before: multiset<Entry>, e: Entry, kept: seq<SequenceGroup>, victims: seq<SequenceGroup>,
                       returned: seq<SequenceGroup>) {
    || (e in before && !e.place.InStep?)
    || (e.place == InStep(1) && e.group in kept)
    || (exists v | v in victims :: e == Evicted(v))
    || (exists g | g in returned :: e == Entry(Restated(g, Status.Swapped, Running), InStep(1)))
  }

  /** A sequence that runs has a slot for its newest token, and only for that one. */
  lemma RunsNext<K>(before: multiset<Entry>, e: Entry, after: multiset<Entry>, e': Entry, start: map<int, BlockTable>,
                    now: map<int, BlockTable>, gpu: set<PhysicalTokenBlock>, cpu: set<PhysicalTokenBlock>, blockSize: nat,
                    owner: map<int, int>, kv: map<int, seq<K>>, s: Sequence, s': Sequence)
    requires Ends(before, after, start, now, gpu, cpu, blockSize, owner) && kv.Keys == start.Keys && Computed(before, kv)
    requires e in before && (e.place.InRunning? || e.place.InSwapped?) && s in e.group.seqs && !s.IsFinished()
    requires e' in after && e'.place == InStep(1) && s' in e'.group.seqs && !s'.IsFinished()
    requires s'.id == s.id && s'.numComputed == s.numComputed
    ensures blockSize > 0 && s.id in now && s.id in kv && |kv[s.id]| == s.numComputed && |now[s.id]| == |kv[s.id]| / blockSize + 1
  {
    hide Tabled, Unique, WellFormed, NumberedOn, Unshared, LiesIn;
    PlaceSays(before, e, start, gpu, cpu, blockSize, owner);
    assert EntryOk(e', now, gpu, cpu, blockSize, owner) && ScheduledMember(s', 1, now, gpu, blockSize);
    KvRefinement.BlockCountGrows(s.numComputed, blockSize);
  }

  lemma RunningFits<K>(before: multiset<Entry>, after: multiset<Entry>, kept: seq<SequenceGroup>, victims: seq<SequenceGroup>,
                       returned: seq<SequenceGroup>, start: map<int, BlockTable>, now: map<int, BlockTable>,
                       gpu: set<PhysicalTokenBlock>, cpu: set<PhysicalTokenBlock>, blockSize: nat, owner: map<int, int>,
                       kv: map<int, seq<K>>, id: int)
    requires Ends(before, after, start, now, gpu, cpu, blockSize, owner) && kv.Keys == start.Keys && Computed(before, kv)
    requires Went(before, after, kept, victims, returned) && id in RunIds(kept, returned)
    ensures blockSize > 0 && id in now && id in kv && |now[id]| == |kv[id]| / blockSize + 1
  {
    hide Ends, Computed, Evicted;
    IdsConcat(LiveOf(kept), LiveOf(returned));
    if id in Ids(LiveOf(kept)) {
      var s := WithId(LiveOf(kept), id);
      LiveOfMembers(kept, s);
      var g :| g in kept && s in g.seqs && !s.IsFinished();
      RunsNext(before, Entry(g, InRunning), after, Entry(g, InStep(1)), start, now, gpu, cpu, blockSize, owner, kv, s, s);
    } else {
      var s := WithId(LiveOf(returned), id);
      LiveOfMembers(returned, s);
      var g :| g in returned && s in g.seqs && !s.IsFinished();
      var s' := RestatedMember(g, Status.Swapped, Running, s);
      RunsNext(before, Entry(g, InSwapped), after, Entry(Restated(g, Status.Swapped, Running), InStep(1)), start, now, gpu, cpu,
               blockSize, owner, kv, s, s');
    }
  }

  lemma RunningDistinct(before: multiset<Entry>, after: multiset<Entry>, kept: seq<SequenceGroup>, victims: seq<SequenceGroup>,
                        returned: seq<SequenceGroup>, start: map<int, BlockTable>, now: map<int, BlockTable>,
                        gpu: set<PhysicalTokenBlock>, cpu: set<PhysicalTokenBlock>, blockSize: nat, owner: map<int, int>)
    requires Ends(before, after, start, now, gpu, cpu, blockSize, owner) && Went(before, after, kept, victims, returned)
    requires RequestsApart(kept) && RequestsApart(returned)
    ensures Distinct(RunIds(kept, returned))
  {
    hide EntryOk, Tabled, Unique, WellFormed, NumberedOn, Unshared, RequestsApart, RequestIds, Evicted, LiveOf;
    forall g | g in kept ensures Owned(g, owner) && DistinctIds(g.seqs) {
      PlaceSays(before, Entry(g, InRunning), start, gpu, cpu, blockSize, owner);
    }
    forall g | g in returned ensures Owned(g, owner) && DistinctIds(g.seqs) {
      PlaceSays(before, Entry(g, InSwapped), start, gpu, cpu, blockSize, owner);
    }
    LiveIdsDistinct(kept, owner);
    LiveIdsDistinct(returned, owner);
    WentApart(before, after, kept, victims, returned);
    IdsConcat(LiveOf(kept), LiveOf(returned));
    DistinctConcat(Ids(LiveOf(kept)), Ids(LiveOf(returned)));
  }

  /** The entries written are those that the model computes: `entry(id, j)` for the token at `j` of the sequence `id`. */
  ghost function NextEntries<K>(kv: map<int, seq<K>>, ids: seq<int>, entry: (int, nat) -> K): map<int, K> {
    map id | id in ids && id in kv :: entry(id, |kv[id]|)
  }

  /** The lists grow by what the model computes, and by nothing else. */
  ghost predicate Gained<K>(kv: map<int, seq<K>>, kv': map<int, seq<K>>, entry: (int, nat) -> K) {
    forall id | id in kv' ::
      && (id in kv ==> kv[id] <= kv'[id])
      && forall j: nat | (if id in kv then |kv[id]| else 0) <= j < |kv'[id]| :: kv'[id][j] == entry(id, j)
  }

  /** All entries are what the model computes for their sequence and place. */
  ghost predicate AllBy<K>(kv: map<int, seq<K>>, entry: (int, nat) -> K) {
    forall id, j: nat | id in kv && j < |kv[id]| :: kv[id][j] == entry(id, j)
  }

  lemma GainedBy<K>(kv: map<int, seq<K>>, kv': map<int, seq<K>>, entry: (int, nat) -> K)
    ensures Gained(kv, kv', entry) && AllBy(kv, entry) ==> AllBy(kv', entry)
  {
    if Gained(kv, kv', entry) && AllBy(kv, entry) {
      forall id, j: nat | id in kv' && j < |kv'[id]| ensures kv'[id][j] == entry(id, j) {
        if id in kv && j < |kv[id]| {
          assert kv'[id][j] == kv[id][j];
        }
      }
    }
  }

  lemma GainedStill<K>(kv: map<int, seq<K>>, more: map<int, seq<K>>, kv': map<int, seq<K>>, entry: (int, nat) -> K)
    requires Gained(kv, more, entry) && forall id | id in kv' :: id in more && kv'[id] == more[id]
    ensures Gained(kv, kv', entry)
  {
  }

  lemma NotRunning(before: multiset<Entry>, after: multiset<Entry>, e: Entry, kept: seq<SequenceGroup>, victims: seq<SequenceGroup>,
                      returned: seq<SequenceGroup>)
    requires Unique(before) && Unique(after) && Went(before, after, kept, victims, returned) && e in after && !e.place.InStep?
    ensures e.group.requestId !in RequestIds(kept) + RequestIds(returned)
  {
    hide Unique, Restated, Evicted;
    forall g | g in kept ensures g.requestId != e.group.requestId {
      PlacesApart(after, Entry(g, InStep(1)), e);
    }
    forall g | g in returned ensures g.requestId != e.group.requestId {
      PlacesApart(after, Entry(Restated(g, Status.Swapped, Running), InStep(1)), e);
      SameRequestBack(g);
    }
  }

  lemma SameRequestBack(g: SequenceGroup)
    ensures Restated(g, Status.Swapped, Running).requestId == g.requestId
  {
  }

  /** How many entries a sequence had before the step. */
  lemma HadComputed<K>(before: multiset<Entry>, after: multiset<Entry>, e: Entry, kept: seq<SequenceGroup>, victims: seq<SequenceGroup>,
                       returned: seq<SequenceGroup>, start: map<int, BlockTable>, now: map<int, BlockTable>,
                       gpu: set<PhysicalTokenBlock>, cpu: set<PhysicalTokenBlock>, blockSize: nat, owner: map<int, int>,
                       kv: map<int, seq<K>>, s: Sequence)
    requires Ends(before, after, start, now, gpu, cpu, blockSize, owner) && Computed(before, kv)
    requires Went(before, after, kept, victims, returned) && e in after && From(before, e, kept, victims, returned)
    requires s in e.group.seqs && !s.IsFinished() && s.id in kv && s.id in now
    ensures |kv[s.id]| == s.numComputed && s.id in owner && owner[s.id] == e.group.requestId
    ensures e.place.InStep? ==> e.place == InStep(1) && e.group.requestId in RequestIds(kept) + RequestIds(returned)
  {
    hide Tabled, Unique, WellFormed, NumberedOn, Unshared, LiesIn, EntryOk, Restated, Preempted, SequenceGroup.MaxNumRunningSeqs;
    PlaceSays(after, e, now, gpu, cpu, blockSize, owner);
    if e in before && !e.place.InStep? {
    } else if e.place == InStep(1) && e.group in kept {
      assert Entry(e.group, InRunning) in before;
    } else if v :| v in victims && e == Evicted(v) {
      assert e.place.InSwapped?;
      var s0 := RestatedFrom(v, Running, Status.Swapped, s);
      assert Entry(v, InRunning) in before;
    } else {
      var g :| g in returned && e == Entry(Restated(g, Status.Swapped, Running), InStep(1));
      var s0 := RestatedFrom(g, Status.Swapped, Running, s);
      SameRequestBack(g);
      assert Entry(g, InSwapped) in before;
    }
  }

  /** A decoding step keeps the cache backed. */
  lemma DecodeBacked<K>(s: System<K>, before: multiset<Entry>, after: multiset<Entry>, kept: seq<SequenceGroup>,
                        victims: seq<SequenceGroup>, returned: seq<SequenceGroup>, now: Ledger<PhysicalTokenBlock>,
                        swapIn: map<int, int>, swapOut: map<int, int>, copies: map<int, seq<int>>, owner: map<int, int>,
                        entry: (int, nat) -> K)
    requires Backed(s, before) && Sound(now, s.gpu, s.cpu)
    requires Ends(before, after, s.ledger.tables, now.tables, s.gpu, s.cpu, s.blockSize, owner)
    requires Went(before, after, kept, victims, returned) && RequestsApart(kept) && RequestsApart(returned)
    requires forall e | e in after :: From(before, e, kept, victims, returned)
    requires StepDone(s.ledger, now, kept, victims, returned, swapIn, swapOut, copies, owner) && (swapIn == map[] || swapOut == map[])
    ensures var ids := RunIds(kept, returned);
      var s' := AfterDecode(s, now, ids, swapIn, swapOut, copies, NextEntries(s.kv, ids, entry));
      Backed(s', after) && Gained(s.kv, s'.kv, entry)
  {
    hide EntryOk, Tabled, WellFormed, NumberedOn, Unshared, RequestsApart, RequestIds, RunIds, StepDone, Situated, Covered, Evicted, From;
    hide KvRefinement.Shows, KvRefinement.Written, Served;
    var ids := RunIds(kept, returned);
    var entries := NextEntries(s.kv, ids, entry);
    WentPlaced(before, after, kept, victims, returned, s.ledger.tables, now.tables, s.gpu, s.cpu, s.blockSize, owner);
    RunningDistinct(before, after, kept, victims, returned, s.ledger.tables, now.tables, s.gpu, s.cpu, s.blockSize, owner);
    forall id | id in ids ensures id in entries && id in now.tables && id in s.kv && |now.tables[id]| == |s.kv[id]| / s.blockSize + 1 {
      RunningFits(before, after, kept, victims, returned, s.ledger.tables, now.tables, s.gpu, s.cpu, s.blockSize, owner, s.kv, id);
    }
    DecodeServes(s, now, kept, victims, returned, swapIn, swapOut, copies, owner, entries);
    var s' := AfterDecode(s, now, ids, swapIn, swapOut, copies, entries);
    forall e, m | e in after && m in e.group.seqs && !m.IsFinished() && m.id in s'.kv
      ensures |s'.kv[m.id]| == m.numComputed + ChunkOf(e.place)
    {
      HadComputed(before, after, e, kept, victims, returned, s.ledger.tables, now.tables, s.gpu, s.cpu, s.blockSize, owner, s.kv, m);
      RunningIs(s.ledger, now, kept, victims, returned, swapIn, swapOut, copies, owner, s.gpu, s.cpu, m.id);
      if !e.place.InStep? {
        NotRunning(before, after, e, kept, victims, returned);
      }
    }
  }

  // ---- a step that starts prompts ---------------------------------------------------------------------------------

  /** The block at `i` of a table with the entries of a prompt in it. */
  ghost function PromptBlock<K>(was: seq<K>, i: nat, prompt: seq<K>, blockSize: nat): (r: seq<K>)
    ensures |r| == |was|
    ensures forall j | 0 <= j < |r| && i * blockSize + j < |prompt| :: r[j] == prompt[i * blockSize + j]
  {
    seq(|was|, j requires 0 <= j < |was| => var k := i * blockSize + j; if k < |prompt| then prompt[k] else was[j])
  }

  ghost predicate HoldsAt(tables: map<int, BlockTable>, id: int, i: nat, b: PhysicalTokenBlock) {
    id in tables && i < |tables[id]| && tables[id][i] == b
  }

  /** The model writes the entries of whole prompts through their tables. */
  ghost function PromptsWritten<K>(m: Memory<K>, tables: map<int, BlockTable>, blockSize: nat, prompts: map<int, seq<K>>): (r: Memory<K>)
    ensures r.Keys == m.Keys
  {
    map b | b in m ::
      if exists id, i: nat :: id in prompts && HoldsAt(tables, id, i, b) then
        var id, i: nat :| id in prompts && HoldsAt(tables, id, i, b); PromptBlock(m[b], i, prompts[id], blockSize)
      else m[b]
  }

  lemma PromptsShape<K>(m: Memory<K>, tables: map<int, BlockTable>, blockSize: nat, prompts: map<int, seq<K>>,
                        blocks: set<PhysicalTokenBlock>)
    requires KvRefinement.Shaped(m, blocks, blockSize)
    ensures KvRefinement.Shaped(PromptsWritten(m, tables, blockSize, prompts), blocks, blockSize)
  {
    hide HoldsAt;
  }

  lemma NotWritten<K>(m: Memory<K>, tables: map<int, BlockTable>, blockSize: nat, prompts: map<int, seq<K>>, b: PhysicalTokenBlock)
    requires b in m && forall id | id in prompts && id in tables :: b !in tables[id]
    ensures PromptsWritten(m, tables, blockSize, prompts)[b] == m[b]
  {
  }

  lemma BlockWritten<K>(m: Memory<K>, tables: map<int, BlockTable>, blockSize: nat, prompts: map<int, seq<K>>, id: int, i: nat)
    requires id in prompts && id in tables && Distinct(tables[id]) && i < |tables[id]| && tables[id][i] in m
    requires forall p | p in prompts && p in tables && p != id :: tables[id][i] !in tables[p]
    ensures PromptsWritten(m, tables, blockSize, prompts)[tables[id][i]] == PromptBlock(m[tables[id][i]], i, prompts[id], blockSize)
  {
    var b := tables[id][i];
    assert HoldsAt(tables, id, i, b);
    forall p, k: nat | p in prompts && HoldsAt(tables, p, k, b) ensures p == id && k == i {
      assert b in tables[p];
    }
  }

  lemma {:induction false} BlocksMonotone(a: nat, b: nat, blockSize: nat)
    requires blockSize > 0 && a <= b
    ensures NumBlocks(a, blockSize) <= NumBlocks(b, blockSize)
    decreases b - a
  {
    if a < b {
      BlocksMonotone(a, b - 1, blockSize);
      OneMoreBlock(b - 1, blockSize);
    }
  }

  /** A prompt shows through its table. */
  lemma PromptShows<K>(m: Memory<K>, tables: map<int, BlockTable>, blockSize: nat, prompts: map<int, seq<K>>, id: int)
    requires blockSize > 0 && id in prompts && id in tables && Distinct(tables[id]) && |tables[id]| == NumBlocks(|prompts[id]|, blockSize)
    requires KvRefinement.Shaped(m, m.Keys, blockSize) && forall b | b in tables[id] :: b in m
    requires forall p, b | p in prompts && p in tables && p != id && b in tables[id] :: b !in tables[p]
    ensures KvRefinement.Shows(PromptsWritten(m, tables, blockSize, prompts), tables[id], blockSize, prompts[id])
  {
    hide PromptsWritten, PromptBlock, NumBlocks, Distinct;
    var m', t, kv := PromptsWritten(m, tables, blockSize, prompts), tables[id], prompts[id];
    forall j | 0 <= j < |kv|
      ensures j / blockSize < |t| && t[j / blockSize] in m' && j % blockSize < |m'[t[j / blockSize]]|
      ensures m'[t[j / blockSize]][j % blockSize] == kv[j]
    {
      KvRefinement.BlockCountGrows(j, blockSize);
      BlocksMonotone(j + 1, |kv|, blockSize);
      Arithmetic.DivModOf(j, blockSize);
      assert t[j / blockSize] in t;
      BlockWritten(m, tables, blockSize, prompts, id, j / blockSize);
    }
  }

  /** A waiting group has started with its whole prompt. */
  ghost predicate Begun(before: multiset<Entry>, e: Entry, g: SequenceGroup) {
    Entry(g, InWaiting) in before && e == Entry(Restated(g, Waiting, Running), InStep(PromptLength(g)))
  }

  ghost predicate LiveIn(entries: multiset<Entry>, e: Entry, s: Sequence, id: int) {
    e in entries && s in e.group.seqs && !s.IsFinished() && s.id == id
  }

  /** How many tokens a live sequence has. */
  ghost function TokensOf(entries: multiset<Entry>, id: int): nat {
    if exists e, s :: LiveIn(entries, e, s, id) then var e, s :| LiveIn(entries, e, s, id); |s.tokens| else 0
  }

  lemma TokensAre(entries: multiset<Entry>, e: Entry, s: Sequence, tables: map<int, BlockTable>, gpu: set<PhysicalTokenBlock>,
                  cpu: set<PhysicalTokenBlock>, blockSize: nat, owner: map<int, int>)
    requires EntriesOk(entries, tables, gpu, cpu, blockSize, owner) && LiveIn(entries, e, s, s.id)
    ensures TokensOf(entries, s.id) == |s.tokens|
  {
    hide EntryOk, Tabled;
    PlaceSays(entries, e, tables, gpu, cpu, blockSize, owner);
    forall f, p | LiveIn(entries, f, p, s.id) ensures p == s {
      PlaceSays(entries, f, tables, gpu, cpu, blockSize, owner);
      assert f == e;
      SameIdSame(e.group.seqs, p, s);
    }
  }

  /** Every group after the step was there before, or has started. */
  ghost predicate OldOrBegun(before: multiset<Entry>, e: Entry) {
    (e in before && !e.place.InStep?) || exists g :: Begun(before, e, g)
  }

  lemma OnlyMember(g: SequenceGroup, tables: map<int, BlockTable>, s: Sequence)
    requires WaitingOk(g, tables) && s in g.seqs && !s.IsFinished()
    ensures g.WithStatus(Waiting) == [s] && PromptLength(g) == |s.tokens| && s.numComputed == 0 && s.id !in tables
  {
    OnePrompt(g, tables);
    UnfinishedIsSubsequence(g.seqs);
    assert s in g.WithStatus(Waiting);
  }

  /** A new table belongs to a prompt that has started. */
  lemma NewMember(before: multiset<Entry>, after: multiset<Entry>, start: map<int, BlockTable>, now: map<int, BlockTable>,
                  gpu: set<PhysicalTokenBlock>, cpu: set<PhysicalTokenBlock>, blockSize: nat, owner: map<int, int>, id: int)
    returns (e: Entry, s: Sequence)
    requires Ends(before, after, start, now, gpu, cpu, blockSize, owner) && forall f | f in after :: OldOrBegun(before, f)
    requires id in now && id !in start
    ensures LiveIn(after, e, s, id) && id in owner && owner[id] == e.group.requestId && (exists g :: Begun(before, e, g))
    ensures s.numComputed == 0 && ChunkOf(e.place) == |s.tokens| && blockSize > 0 && |now[id]| == NumBlocks(|s.tokens|, blockSize)
    ensures TokensOf(after, id) == |s.tokens|
  {
    hide Unique, WellFormed, NumberedOn, Unshared, LiesIn, Restated, PromptLength;
    TabledOwned(after, id, now, gpu, cpu, blockSize, owner);
    e :| e in after && HasMember(e.group, id);
    PlaceSays(after, e, now, gpu, cpu, blockSize, owner);
    s := TableOfMember(after, e, now, gpu, cpu, blockSize, owner, id);
    if e in before && !e.place.InStep? {
      PlaceSays(before, e, start, gpu, cpu, blockSize, owner);
      assert false;
    }
    var g :| Begun(before, e, g);
    var s0 := RestatedFrom(g, Waiting, Running, s);
    assert EntryOk(Entry(g, InWaiting), start, gpu, cpu, blockSize, owner);
    OnlyMember(g, start, s0);
    assert EntryOk(e, now, gpu, cpu, blockSize, owner) && ScheduledMember(s, e.place.chunk, now, gpu, blockSize);
    TokensAre(after, e, s, now, gpu, cpu, blockSize, owner);
  }

  /** A new table shares no block with any other. */
  lemma NewAlone(before: multiset<Entry>, after: multiset<Entry>, start: map<int, BlockTable>, now: map<int, BlockTable>,
                 gpu: set<PhysicalTokenBlock>, cpu: set<PhysicalTokenBlock>, blockSize: nat, owner: map<int, int>, id: int,
                 other: int, b: PhysicalTokenBlock)
    requires Ends(before, after, start, now, gpu, cpu, blockSize, owner) && forall f | f in after :: OldOrBegun(before, f)
    requires id in now && id !in start && other in now && b in now[id] && b in now[other]
    ensures other == id
  {
    hide Unique, WellFormed, NumberedOn, LiesIn, Restated, PromptLength, OldOrBegun;
    var e, s := NewMember(before, after, start, now, gpu, cpu, blockSize, owner, id);
    TabledOwned(after, other, now, gpu, cpu, blockSize, owner);
    assert owner[other] == owner[id];
    var p := TableOfMember(after, e, now, gpu, cpu, blockSize, owner, other);
    var g :| Begun(before, e, g);
    var s0 := RestatedFrom(g, Waiting, Running, s);
    var p0 := RestatedFrom(g, Waiting, Running, p);
    assert EntryOk(Entry(g, InWaiting), start, gpu, cpu, blockSize, owner);
    OnlyMember(g, start, s0);
    OnlyMember(g, start, p0);
  }

  /** The entries of the prompts that have started. */
  ghost function NewPrompts<K>(after: multiset<Entry>, start: map<int, BlockTable>, now: map<int, BlockTable>,
                               entry: (int, nat) -> K): map<int, seq<K>>
  {
    map id | id in now && id !in start :: seq(TokensOf(after, id), (j: nat) => entry(id, j))
  }

  /** After a step that starts prompts. */
  ghost function AfterPrompts<K>(s: System<K>, now: Ledger<PhysicalTokenBlock>, prompts: map<int, seq<K>>): System<K> {
    KvRefinement.System(s.gpu, s.cpu, s.blockSize, now, PromptsWritten(s.memory, now.tables, s.blockSize, prompts), s.kv + prompts)
  }

  lemma PromptsRefine<K>(s: System<K>, before: multiset<Entry>, after: multiset<Entry>, now: Ledger<PhysicalTokenBlock>,
                         owner: map<int, int>, entry: (int, nat) -> K)
    requires KvRefinement.Refines(s) && Sound(now, s.gpu, s.cpu) && TablesKept(s.ledger.tables, now.tables)
    requires Ends(before, after, s.ledger.tables, now.tables, s.gpu, s.cpu, s.blockSize, owner)
    requires forall e | e in after :: OldOrBegun(before, e)
    ensures KvRefinement.Refines(AfterPrompts(s, now, NewPrompts(after, s.ledger.tables, now.tables, entry)))
  {
    hide Ends, Covered, WellFormed, OldOrBegun, PromptsWritten, KvRefinement.Shows, TokensOf, NumBlocks, Distinct;
    var prompts, t := NewPrompts(after, s.ledger.tables, now.tables, entry), now.tables;
    var s' := AfterPrompts(s, now, prompts);
    assert s'.kv.Keys == t.Keys;
    PromptsShape(s.memory, t, s.blockSize, prompts, s.gpu + s.cpu);
    TablesFit(now, s.gpu, s.cpu);
    forall id | id in s'.kv
      ensures |t[id]| == NumBlocks(|s'.kv[id]|, s.blockSize) && KvRefinement.Shows(s'.memory, t[id], s.blockSize, s'.kv[id])
    {
      if id in prompts {
        var e, m := NewMember(before, after, s.ledger.tables, t, s.gpu, s.cpu, s.blockSize, owner, id);
        forall p, b | p in prompts && p in t && p != id && b in t[id] ensures b !in t[p] {
          if b in t[p] {
            NewAlone(before, after, s.ledger.tables, t, s.gpu, s.cpu, s.blockSize, owner, id, p, b);
          }
        }
        PromptShows(s.memory, t, s.blockSize, prompts, id);
      } else {
        forall b | b in t[id] ensures s'.memory[b] == s.memory[b] {
          forall p | p in prompts && p in t ensures b !in t[p] {
            if b in t[p] {
              NewAlone(before, after, s.ledger.tables, t, s.gpu, s.cpu, s.blockSize, owner, p, id, b);
            }
          }
          NotWritten(s.memory, t, s.blockSize, prompts, b);
        }
        KvRefinement.ShowsVia(s.memory, s'.memory, t[id], t[id], s.blockSize, s.kv[id]);
      }
    }
  }

  /** A step that starts prompts keeps the cache backed. */
  lemma AdmitBacked<K>(s: System<K>, before: multiset<Entry>, after: multiset<Entry>, now: Ledger<PhysicalTokenBlock>,
                       owner: map<int, int>, entry: (int, nat) -> K)
    requires Backed(s, before) && Sound(now, s.gpu, s.cpu) && TablesKept(s.ledger.tables, now.tables)
    requires Ends(before, after, s.ledger.tables, now.tables, s.gpu, s.cpu, s.blockSize, owner)
    requires forall e | e in after :: OldOrBegun(before, e)
    ensures var s' := AfterPrompts(s, now, NewPrompts(after, s.ledger.tables, now.tables, entry));
      Backed(s', after) && Gained(s.kv, s'.kv, entry)
  {
    hide KvRefinement.Shows, Covered, WellFormed, NumberedOn, Unshared, EntryOk, Tabled, PromptsWritten, TokensOf, Restated;
    PromptsRefine(s, before, after, now, owner, entry);
    var s' := AfterPrompts(s, now, NewPrompts(after, s.ledger.tables, now.tables, entry));
    forall e, m | e in after && m in e.group.seqs && !m.IsFinished() && m.id in s'.kv
      ensures |s'.kv[m.id]| == m.numComputed + ChunkOf(e.place)
    {
      PlaceSays(after, e, now.tables, s.gpu, s.cpu, s.blockSize, owner);
      if m.id in s.kv {
        OldComputed(before, after, e, s.ledger.tables, now.tables, s.gpu, s.cpu, s.blockSize, owner, m);
      } else {
        var f, p := NewMember(before, after, s.ledger.tables, now.tables, s.gpu, s.cpu, s.blockSize, owner, m.id);
        assert f == e;
        SameIdSame(e.group.seqs, p, m);
      }
    }
  }

  /** Whoever had a table is where it was. */
  lemma OldComputed(before: multiset<Entry>, after: multiset<Entry>, e: Entry, start: map<int, BlockTable>, now: map<int, BlockTable>,
                    gpu: set<PhysicalTokenBlock>, cpu: set<PhysicalTokenBlock>, blockSize: nat, owner: map<int, int>, m: Sequence)
    requires Ends(before, after, start, now, gpu, cpu, blockSize, owner) && OldOrBegun(before, e)
    requires m in e.group.seqs && !m.IsFinished() && m.id in start
    ensures e in before && !e.place.InStep?
  {
    hide Unique, WellFormed, NumberedOn, Unshared, LiesIn, Restated, PromptLength, Tabled;
    if g :| Begun(before, e, g) {
      var m0 := RestatedFrom(g, Waiting, Running, m);
      PlaceSays(before, Entry(g, InWaiting), start, gpu, cpu, blockSize, owner);
      assert false;
    }
  }

  // ---- between two steps ------------------------------------------------------------------------------------------

  /** After some tables have been freed: their sequences are forgotten. */
  ghost function AfterFrees<K>(s: System<K>, now: Ledger<PhysicalTokenBlock>): System<K> {
    KvRefinement.System(s.gpu, s.cpu, s.blockSize, now, s.memory, map id | id in now.tables && id in s.kv :: s.kv[id])
  }

  /** A sequence known now was known before, with as many tokens computed. */
  ghost predicate CarriesOn(before: multiset<Entry>, e: Entry, m: Sequence) {
    exists f, p :: LiveIn(before, f, p, m.id) && p.numComputed + ChunkOf(f.place) == m.numComputed + ChunkOf(e.place)
  }

  lemma FreedBacked<K>(s: System<K>, before: multiset<Entry>, after: multiset<Entry>, now: Ledger<PhysicalTokenBlock>)
    requires Backed(s, before) && Sound(now, s.gpu, s.cpu) && TablesKept(now.tables, s.ledger.tables)
    requires forall e, m | e in after && m in e.group.seqs && !m.IsFinished() && m.id in now.tables :: CarriesOn(before, e, m)
    ensures Backed(AfterFrees(s, now), after)
  {
    hide Covered, WellFormed, KvRefinement.Shows;
    var s' := AfterFrees(s, now);
    forall id | id in now.tables ensures id in s.kv {
      assert id in s.ledger.tables && s.ledger.tables.Keys == s.kv.Keys;
    }
    forall e, m | e in after && m in e.group.seqs && !m.IsFinished() && m.id in s'.kv
      ensures |s'.kv[m.id]| == m.numComputed + ChunkOf(e.place)
    {
      var f, p :| LiveIn(before, f, p, m.id) && p.numComputed + ChunkOf(f.place) == m.numComputed + ChunkOf(e.place);
    }
  }

  /** A request that joins has nothing in the cache. */
  lemma JoinBacked<K>(s: System<K>, entries: multiset<Entry>, g: SequenceGroup)
    requires Backed(s, entries) && forall m | m in g.seqs :: m.id !in s.kv
    ensures Backed(s, entries + multiset{Entry(g, InWaiting)})
  {
    hide KvRefinement.Refines;
    var after := entries + multiset{Entry(g, InWaiting)};
    forall e, m | e in after && m in e.group.seqs && !m.IsFinished() && m.id in s.kv
      ensures |s.kv[m.id]| == m.numComputed + ChunkOf(e.place)
    {
      assert e in entries || e == Entry(g, InWaiting);
    }
  }

  /** After a fork the child has its parent's entries. */
  ghost function AfterFork<K>(s: System<K>, parent: int, child: int): System<K>
    requires parent in s.ledger.tables && parent in s.kv
  {
    s.(ledger := ForkedLedger(s.ledger, parent, child), kv := s.kv[child := s.kv[parent]])
  }

  lemma ForkBacked<K>(s: System<K>, entries: multiset<Entry>, g: SequenceGroup, parent: Sequence, id: int, token: int)
    requires Backed(s, entries) && Entry(g, InRunning) in entries && parent in g.seqs && !parent.IsFinished() && parent.tokens != []
    requires parent.id in s.kv && id !in s.kv && forall e, m | e in entries && m in e.group.seqs :: m.id != id
    ensures Backed(AfterFork(s, parent.id, id),
                   entries - multiset{Entry(g, InRunning)} + multiset{Entry(Forked(g, Child(parent, id, token)), InRunning)})
  {
    hide Covered, WellFormed, KvRefinement.Shows;
    var s', f := AfterFork(s, parent.id, id), Entry(Forked(g, Child(parent, id, token)), InRunning);
    var after := entries - multiset{Entry(g, InRunning)} + multiset{f};
    ForkKeepsSound(s.ledger, s.gpu, s.cpu, parent.id, id);
    forall e, m | e in after && m in e.group.seqs && !m.IsFinished() && m.id in s'.kv
      ensures |s'.kv[m.id]| == m.numComputed + ChunkOf(e.place)
    {
      if e == f {
        assert m in g.seqs || m == Child(parent, id, token);
      } else {
        assert e in entries;
      }
    }
  }

  // ---- what the scheduler says of its queues ----------------------------------------------------------------------

  lemma SortedApart(rest: multiset<Entry>, now: real, queue: seq<SequenceGroup>, place: Place)
    requires Unique(rest + Tagged(queue, place))
    ensures RequestsApart(SortByPriority(now, queue))
  {
    hide Unique, SortByPriority, Tagged, DistinctRequests;
    var sorted := SortByPriority(now, queue);
    SortKeepsTagged(now, queue, place);
    UniqueDistinct(rest, sorted, place);
    forall i, j | 0 <= i < j < |sorted| ensures sorted[i].requestId != sorted[j].requestId {
      DistinctAt(sorted, i, j);
    }
  }

  lemma {:induction false} RecomputedFrom(victims: seq<SequenceGroup>, h: SequenceGroup)
    ensures h in Recomputed(victims) <==> exists v | v in victims :: v.MaxNumRunningSeqs() == 1 && h == Preempted(v)
  {
    if victims != [] {
      RecomputedFrom(victims[1..], h);
      assert forall v :: v in victims <==> v == victims[0] || v in victims[1..];
    }
  }

  lemma {:induction false} SwappedFrom(victims: seq<SequenceGroup>, h: SequenceGroup)
    ensures h in SwappedAway(victims) <==> exists v | v in victims :: v.MaxNumRunningSeqs() != 1 && h == Restated(v, Running,
                                                                                                                  Status.Swapped)
  {
    if victims != [] {
      SwappedFrom(victims[1..], h);
      assert forall v :: v in victims <==> v == victims[0] || v in victims[1..];
    }
  }

  lemma {:induction false} ReturnedFrom(groups: seq<SequenceGroup>, h: SequenceGroup)
    ensures h in Returned(groups) <==> exists g | g in groups :: h == Restated(g, Status.Swapped, Running)
  {
    if groups != [] {
      ReturnedFrom(groups[1..], h);
      assert forall g :: g in groups <==> g == groups[0] || g in groups[1..];
    }
  }

  lemma {:induction false} ReversedHas<T>(s: seq<T>, x: T)
    ensures x in Reversed(s) <==> x in s
  {
    if s != [] {
      ReversedHas(s[..|s| - 1], x);
      assert s == s[..|s| - 1] + [s[|s| - 1]];
    }
  }

  lemma {:induction false} ScheduledHas(scheduled: seq<ScheduledGroup>, chunk: nat, e: Entry)
    requires forall s | s in scheduled :: s.chunk == chunk
    ensures e in InThisStep(scheduled) <==> e.place == InStep(chunk) && e.group in Groups(scheduled)
  {
    if scheduled != [] {
      ScheduledHas(scheduled[1..], chunk, e);
      assert scheduled[0] in scheduled;
      assert Groups(scheduled) == [scheduled[0].group] + Groups(scheduled[1..]);
    }
  }

  lemma RosterHas(waiting: seq<SequenceGroup>, running: seq<SequenceGroup>, swapped: seq<SequenceGroup>, e: Entry)
    ensures e in Roster(waiting, running, swapped) <==>
      || (e.place == InWaiting && e.group in waiting) || (e.place == InRunning && e.group in running)
      || (e.place == InSwapped && e.group in swapped)
  {
    TaggedMembers(waiting, InWaiting);
    TaggedMembers(running, InRunning);
    TaggedMembers(swapped, InSwapped);
  }

  lemma ExecutingHas(waiting: seq<SequenceGroup>, scheduled: seq<ScheduledGroup>, swapped: seq<SequenceGroup>, chunk: nat, e: Entry)
    requires forall s | s in scheduled :: s.chunk == chunk
    ensures e in Executing(waiting, [], scheduled, swapped) <==>
      || (e.place == InWaiting && e.group in waiting) || (e.place == InStep(chunk) && e.group in Groups(scheduled))
      || (e.place == InSwapped && e.group in swapped)
  {
    TaggedMembers(waiting, InWaiting);
    TaggedMembers(swapped, InSwapped);
    ScheduledHas(scheduled, chunk, e);
  }

  /** A decoding step, as the queues tell it. */
  ghost predicate WorkedOff(q: Queues, q': Queues, scheduled: seq<ScheduledGroup>, taken: nat, now: real, now': real,
                            kept: seq<SequenceGroup>, victims: seq<SequenceGroup>, back: nat)
  {
    && taken <= |q.waiting| && Worked(q.(waiting := q.waiting[taken..]), q', now, now', kept, victims, back)
    && q'.running == Groups(scheduled) && forall s | s in scheduled :: s.chunk == 1
  }

  /** The swapped groups that come back. */
  ghost function CameBack(q: Queues, now': real, victims: seq<SequenceGroup>, back: nat): seq<SequenceGroup> {
    var sorted := SortByPriority(now', q.swapped);
    if victims == [] && back <= |sorted| then sorted[..back] else []
  }

  lemma SortedHas(now: real, queue: seq<SequenceGroup>, g: SequenceGroup)
    ensures g in SortByPriority(now, queue) <==> g in queue
  {
    hide SortByPriority;
    SortIsStable(now, queue, now);
    assert g in multiset(SortByPriority(now, queue)) <==> g in multiset(queue);
  }

  lemma WorkedWent(q: Queues, q': Queues, scheduled: seq<ScheduledGroup>, taken: nat, now: real, now': real,
                   kept: seq<SequenceGroup>, victims: seq<SequenceGroup>, back: nat, e: Entry)
    requires WorkedOff(q, q', scheduled, taken, now, now', kept, victims, back)
    ensures var before, after := Roster(q.waiting, q.running, q.swapped), Executing(q'.waiting, [], scheduled, q'.swapped);
      && (forall g | g in kept && e == Entry(g, InStep(1)) :: Entry(g, InRunning) in before && e in after)
      && (forall v | v in victims && e == Evicted(v) :: Entry(v, InRunning) in before && e in after)
      && (forall g | g in CameBack(q, now', victims, back) && e == Entry(Restated(g, Status.Swapped, Running), InStep(1)) ::
            Entry(g, InSwapped) in before && e in after)
      && (e in after ==> From(before, e, kept, victims, CameBack(q, now', victims, back)))
  {
    hide Roster, Executing, SortByPriority, Recomputed, SwappedAway, Returned, Groups, Restated, Preempted, Reversed;
    hide SequenceGroup.MaxNumRunningSeqs;
    var returned := CameBack(q, now', victims, back);
    ExecutingHas(q'.waiting, scheduled, q'.swapped, 1, e);
    RosterHas(q.waiting, q.running, q.swapped, e);
    RecomputedFrom(victims, e.group);
    SwappedFrom(victims, e.group);
    ReturnedFrom(returned, e.group);
    ReversedHas(SwappedAway(victims), e.group);
    StillSwapped(q, q', scheduled, taken, now, now', kept, victims, back, e.group);
    forall g | g in kept ensures Entry(g, InRunning) in Roster(q.waiting, q.running, q.swapped) {
      SortedHas(now, q.running, g);
      RosterHas(q.waiting, q.running, q.swapped, Entry(g, InRunning));
    }
    forall v | v in victims ensures Entry(v, InRunning) in Roster(q.waiting, q.running, q.swapped) {
      SortedHas(now, q.running, v);
      RosterHas(q.waiting, q.running, q.swapped, Entry(v, InRunning));
    }
    forall g | g in returned ensures Entry(g, InSwapped) in Roster(q.waiting, q.running, q.swapped) {
      SortedHas(now', q.swapped, g);
      RosterHas(q.waiting, q.running, q.swapped, Entry(g, InSwapped));
    }
  }

  lemma StillSwapped(q: Queues, q': Queues, scheduled: seq<ScheduledGroup>, taken: nat, now: real, now': real,
                     kept: seq<SequenceGroup>, victims: seq<SequenceGroup>, back: nat, g: SequenceGroup)
    requires WorkedOff(q, q', scheduled, taken, now, now', kept, victims, back)
    ensures g in q'.swapped ==> g in q.swapped || g in Reversed(SwappedAway(victims))
    ensures g in Reversed(SwappedAway(victims)) ==> g in q'.swapped
    ensures q'.running == kept + Returned(CameBack(q, now', victims, back))
    ensures q'.waiting == Recomputed(victims) + q.waiting[taken..]
  {
    hide SortByPriority, Recomputed, SwappedAway, Reversed;
    SortedHas(now', q.swapped, g);
    assert Returned([]) == [] && q.swapped[..0] == [];
  }

  lemma WorkedEnds(q: Queues, q': Queues, scheduled: seq<ScheduledGroup>, taken: nat, now: real, now': real,
                   kept: seq<SequenceGroup>, victims: seq<SequenceGroup>, back: nat)
    requires WorkedOff(q, q', scheduled, taken, now, now', kept, victims, back) && Unique(Roster(q.waiting, q.running, q.swapped))
    ensures var before, after := Roster(q.waiting, q.running, q.swapped), Executing(q'.waiting, [], scheduled, q'.swapped);
      && Went(before, after, kept, victims, CameBack(q, now', victims, back))
      && forall e | e in after :: From(before, e, kept, victims, CameBack(q, now', victims, back))
    ensures RequestsApart(kept) && RequestsApart(CameBack(q, now', victims, back))
  {
    hide Roster, Executing, SortByPriority, Recomputed, SwappedAway, Returned, Groups, Restated, Preempted, Reversed, Evicted;
    hide CameBack, From;
    hide Tagged;
    var before, after := Roster(q.waiting, q.running, q.swapped), Executing(q'.waiting, [], scheduled, q'.swapped);
    forall g | g in kept ensures Entry(g, InRunning) in before && Entry(g, InStep(1)) in after {
      WorkedWent(q, q', scheduled, taken, now, now', kept, victims, back, Entry(g, InStep(1)));
    }
    forall v | v in victims ensures Entry(v, InRunning) in before && Evicted(v) in after {
      WorkedWent(q, q', scheduled, taken, now, now', kept, victims, back, Evicted(v));
    }
    forall g | g in CameBack(q, now', victims, back)
      ensures Entry(g, InSwapped) in before && Entry(Restated(g, Status.Swapped, Running), InStep(1)) in after
    {
      WorkedWent(q, q', scheduled, taken, now, now', kept, victims, back, Entry(Restated(g, Status.Swapped, Running), InStep(1)));
    }
    forall e | e in after ensures From(before, e, kept, victims, CameBack(q, now', victims, back)) {
      WorkedWent(q, q', scheduled, taken, now, now', kept, victims, back, e);
    }
    SplitsRoster(q);
    SortedApart(Tagged(q.waiting, InWaiting) + Tagged(q.swapped, InSwapped), now, q.running, InRunning);
    SortedApart(Tagged(q.waiting, InWaiting) + Tagged(q.running, InRunning), now', q.swapped, InSwapped);
    SplitApart(SortByPriority(now, q.running), kept, victims);
    BackApart(q, now', victims, back);
  }

  lemma SplitsRoster(q: Queues)
    ensures Roster(q.waiting, q.running, q.swapped) == Tagged(q.waiting, InWaiting) + Tagged(q.swapped, InSwapped) + Tagged(q.running,
                                                                                                                            InRunning)
    ensures Roster(q.waiting, q.running, q.swapped) == Tagged(q.waiting, InWaiting) + Tagged(q.running, InRunning) + Tagged(q.swapped,
                                                                                                                            InSwapped)
  {
  }

  lemma SplitApart(sorted: seq<SequenceGroup>, a: seq<SequenceGroup>, b: seq<SequenceGroup>)
    requires RequestsApart(sorted) && sorted == a + b
    ensures RequestsApart(a)
  {
    assert forall i | 0 <= i < |a| :: a[i] == sorted[i];
  }

  lemma BackApart(q: Queues, now': real, victims: seq<SequenceGroup>, back: nat)
    requires RequestsApart(SortByPriority(now', q.swapped))
    ensures RequestsApart(CameBack(q, now', victims, back))
  {
    hide SortByPriority;
  }

  // ---- a step that starts prompts, as the queues tell it ----------------------------------------------------------

  lemma {:induction false} StartedHas(l: Limits, groups: seq<SequenceGroup>, e: Entry)
    requires l.blockSize > 0 && e in InThisStep(Started(l, groups))
    ensures exists g | g in groups :: e == Entry(Restated(g, Waiting, Running), InStep(PromptLength(g)))
  {
    if groups != [] {
      hide TooLong, PromptLength, Restated;
      var first := if TooLong(l, groups[0]) then [] else [Start(groups[0])];
      InThisStepConcat(first, Started(l, groups[1..]));
      if first != [] {
        InThisStepOne(Start(groups[0]));
      }
      if e in InThisStep(Started(l, groups[1..])) {
        StartedHas(l, groups[1..], e);
        var g :| g in groups[1..] && e == Entry(Restated(g, Waiting, Running), InStep(PromptLength(g)));
        assert g in groups;
      } else {
        assert groups[0] in groups;
      }
    }
  }

  lemma AdmittedFrom(l: Limits, q: Queues, q': Queues, taken: nat, e: Entry)
    requires l.blockSize > 0 && AdmitStep(l, q, q', taken)
    requires e in Executing(q'.waiting, q.running, Started(l, q.waiting[..taken]), q'.swapped)
    ensures OldOrBegun(Roster(q.waiting, q.running, q.swapped), e)
  {
    hide Roster, Started, Restated, PromptLength;
    TaggedMembers(q'.waiting, InWaiting);
    TaggedMembers(q.running, InRunning);
    RosterHas(q.waiting, q.running, q.swapped, e);
    if e in InThisStep(Started(l, q.waiting[..taken])) {
      StartedHas(l, q.waiting[..taken], e);
      var g :| g in q.waiting[..taken] && e == Entry(Restated(g, Waiting, Running), InStep(PromptLength(g)));
      RosterHas(q.waiting, q.running, q.swapped, Entry(g, InWaiting));
      assert Begun(Roster(q.waiting, q.running, q.swapped), e, g);
    }
  }

  // ---- outputs ----------------------------------------------------------------------------------------------------

  lemma {:induction false} LiveHas(groups: seq<SequenceGroup>, g: SequenceGroup)
    requires g in Live(groups)
    ensures g in groups
  {
    if g != groups[0] || groups[0].IsFinished() {
      LiveHas(groups[1..], g);
    }
  }

  /** A sequence whose chunk has run has all the tokens of the chunk computed. */
  lemma ProducedFollows(before: multiset<Entry>, s: ScheduledGroup, sample: int -> Sampled, m: Sequence)
    requires Entry(s.group, InStep(s.chunk)) in before && m in Produced(s.group, s.chunk, sample).seqs && !m.IsFinished()
    ensures CarriesOn(before, Entry(Produced(s.group, s.chunk, sample), InRunning), m)
  {
    var p := Produced(s.group, s.chunk, sample);
    ProducedMembers(s.group, s.chunk, sample);
    var i :| 0 <= i < |p.seqs| && p.seqs[i] == m;
    var m0 := s.group.seqs[i];
    assert m0 in s.group.seqs && !m0.IsFinished() && m.numComputed == m0.numComputed + s.chunk;
    assert LiveIn(before, Entry(s.group, InStep(s.chunk)), m0, m.id);
  }

  lemma OutputsFollow(waiting: seq<SequenceGroup>, idle: seq<SequenceGroup>, scheduled: seq<ScheduledGroup>,
                      swapped: seq<SequenceGroup>, sample: int -> Sampled, e: Entry, m: Sequence)
    requires e in Roster(waiting, idle + Live(ProducedAll(scheduled, sample)), swapped) && m in e.group.seqs && !m.IsFinished()
    ensures CarriesOn(Executing(waiting, idle, scheduled, swapped), e, m)
  {
    hide Produced, Live, ProducedAll, Roster;
    var before := Executing(waiting, idle, scheduled, swapped);
    RosterHas(waiting, idle + Live(ProducedAll(scheduled, sample)), swapped, e);
    TaggedMembers(waiting, InWaiting);
    TaggedMembers(idle, InRunning);
    TaggedMembers(swapped, InSwapped);
    if e.place == InRunning && e.group !in idle {
      LiveHas(ProducedAll(scheduled, sample), e.group);
      var i :| 0 <= i < |scheduled| && ProducedAll(scheduled, sample)[i] == e.group;
      InThisStepMember(scheduled, scheduled[i]);
      ProducedFollows(before, scheduled[i], sample, m);
    } else {
      assert LiveIn(before, e, m, m.id);
    }
  }

  // ---- whole steps ------------------------------------------------------------------------------------------------

  ghost function AfterDecoding<K>(s: System<K>, now: Ledger<PhysicalTokenBlock>, q: Queues, now': real, kept: seq<SequenceGroup>,
                                  victims: seq<SequenceGroup>, back: nat, swapIn: map<int, int>, swapOut: map<int, int>,
                                  copies: map<int, seq<int>>, entry: (int, nat) -> K): System<K>
  {
    var ids := RunIds(kept, CameBack(q, now', victims, back));
    AfterDecode(s, now, ids, swapIn, swapOut, copies, NextEntries(s.kv, ids, entry))
  }

  lemma DecodingServes<K>(s: System<K>, q: Queues, q': Queues, scheduled: seq<ScheduledGroup>, taken: nat, now: real, now': real,
                          kept: seq<SequenceGroup>, victims: seq<SequenceGroup>, back: nat, l: Ledger<PhysicalTokenBlock>,
                          swapIn: map<int, int>, swapOut: map<int, int>, copies: map<int, seq<int>>, owner: map<int, int>,
                          entry: (int, nat) -> K)
    requires Backed(s, Roster(q.waiting, q.running, q.swapped)) && Sound(l, s.gpu, s.cpu)
    requires Ends(Roster(q.waiting, q.running, q.swapped), Executing(q'.waiting, [], scheduled, q'.swapped), s.ledger.tables, l.tables,
                  s.gpu, s.cpu, s.blockSize, owner)
    requires WorkedOff(q, q', scheduled, taken, now, now', kept, victims, back) && (swapIn == map[] || swapOut == map[])
    requires StepDone(s.ledger, l, kept, victims, CameBack(q, now', victims, back), swapIn, swapOut, copies, owner)
    ensures var s' := AfterDecoding(s, l, q, now', kept, victims, back, swapIn, swapOut, copies, entry);
      Backed(s', Executing(q'.waiting, [], scheduled, q'.swapped)) && Gained(s.kv, s'.kv, entry) && s'.ledger == l && SameDevices(s, s')
  {
    hide Backed, Sound, EntryOk, Tabled, Roster, Executing, WorkedOff, StepDone, CameBack, Went, From, Gained, RequestsApart;
    WorkedEnds(q, q', scheduled, taken, now, now', kept, victims, back);
    DecodeBacked(s, Roster(q.waiting, q.running, q.swapped), Executing(q'.waiting, [], scheduled, q'.swapped), kept, victims,
                 CameBack(q, now', victims, back), l, swapIn, swapOut, copies, owner, entry);
  }

  ghost predicate SameDevices<K>(s: System<K>, s': System<K>) {
    s'.gpu == s.gpu && s'.cpu == s.cpu && s'.blockSize == s.blockSize
  }

  ghost function AfterAdmitting<K>(s: System<K>, now: Ledger<PhysicalTokenBlock>, after: multiset<Entry>,
                                   entry: (int, nat) -> K): System<K> {
    AfterPrompts(s, now, NewPrompts(after, s.ledger.tables, now.tables, entry))
  }

  lemma AdmittingServes<K>(s: System<K>, limits: Limits, q: Queues, q': Queues, scheduled: seq<ScheduledGroup>, taken: nat,
                           l: Ledger<PhysicalTokenBlock>, owner: map<int, int>, entry: (int, nat) -> K)
    requires Backed(s, Roster(q.waiting, q.running, q.swapped)) && Sound(l, s.gpu, s.cpu)
    requires Ends(Roster(q.waiting, q.running, q.swapped), Executing(q'.waiting, q.running, scheduled, q'.swapped), s.ledger.tables,
                  l.tables, s.gpu, s.cpu, s.blockSize, owner)
    requires limits.blockSize > 0 && AdmitStep(limits, q, q', taken) && scheduled == Started(limits, q.waiting[..taken])
    requires TablesKept(s.ledger.tables, l.tables)
    ensures var after := Executing(q'.waiting, q.running, scheduled, q'.swapped);
      var s' := AfterAdmitting(s, l, after, entry);
      Backed(s', after) && Gained(s.kv, s'.kv, entry) && s'.ledger == l && SameDevices(s, s')
  {
    hide Backed, Sound, EntryOk, Tabled, Roster, Executing, Gained, Started, OldOrBegun, AdmitStep;
    var before, after := Roster(q.waiting, q.running, q.swapped), Executing(q'.waiting, q.running, scheduled, q'.swapped);
    forall e | e in after ensures OldOrBegun(before, e) {
      AdmittedFrom(limits, q, q', taken, e);
    }
    AdmitBacked(s, before, after, l, owner, entry);
  }

  /** The groups that are not aborted go on as they were. */
  lemma RemainCarriesOn(q: Queues, ids: set<int>, e: Entry, m: Sequence)
    requires e in Roster(Without(q.waiting, ids), Without(q.running, ids), Without(q.swapped, ids)) && m in e.group.seqs && !m.IsFinished()
    ensures CarriesOn(Roster(q.waiting, q.running, q.swapped), e, m)
  {
    hide Roster, Without;
    RosterHas(Without(q.waiting, ids), Without(q.running, ids), Without(q.swapped, ids), e);
    RosterHas(q.waiting, q.running, q.swapped, e);
    AmongIs(q.waiting, ids);
    AmongIs(q.running, ids);
    AmongIs(q.swapped, ids);
    assert LiveIn(Roster(q.waiting, q.running, q.swapped), e, m, m.id);
  }
}
