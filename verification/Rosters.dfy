/** All groups that the scheduler knows, each in one place; what moving one group does to the others. */
module Rosters {
  import opened Blocks
  import opened Paging
  import opened Sequences
  import opened GroupStates

  /** `token_chunk_size` tokens of each live member run in this step. */
  datatype ScheduledGroup = ScheduledGroup(group: SequenceGroup, chunk: nat)

  datatype Place = InWaiting | InRunning | InSwapped | InStep(chunk: nat)

  datatype Entry = Entry(group: SequenceGroup, place: Place)

  function Tagged(groups: seq<SequenceGroup>, place: Place): multiset<Entry> {
    if groups == [] then multiset{} else multiset{Entry(groups[0], place)} + Tagged(groups[1..], place)
  }

  function InThisStep(scheduled: seq<ScheduledGroup>): multiset<Entry> {
    if scheduled == [] then multiset{}
    else multiset{Entry(scheduled[0].group, InStep(scheduled[0].chunk))} + InThisStep(scheduled[1..])
  }

  lemma {:induction false} TaggedConcat(a: seq<SequenceGroup>, b: seq<SequenceGroup>, place: Place)
    ensures Tagged(a + b, place) == Tagged(a, place) + Tagged(b, place)
  {
    if a == [] {
      assert a + b == b;
    } else {
      var ab := a + b;
      assert ab[0] == a[0] && ab[1..] == a[1..] + b;
      TaggedConcat(a[1..], b, place);
      assert Tagged(ab, place) == multiset{Entry(a[0], place)} + Tagged(ab[1..], place);
    }
  }

  lemma TaggedOne(g: SequenceGroup, place: Place)
    ensures Tagged([g], place) == multiset{Entry(g, place)}
  {
    assert [g][1..] == [];
  }

  lemma {:induction false} InThisStepConcat(a: seq<ScheduledGroup>, b: seq<ScheduledGroup>)
    ensures InThisStep(a + b) == InThisStep(a) + InThisStep(b)
  {
    if a == [] {
      assert a + b == b;
    } else {
      var ab := a + b;
      assert ab[0] == a[0] && ab[1..] == a[1..] + b;
      InThisStepConcat(a[1..], b);
      assert InThisStep(ab) == multiset{Entry(a[0].group, InStep(a[0].chunk))} + InThisStep(ab[1..]);
    }
  }

  lemma InThisStepOne(g: ScheduledGroup)
    ensures InThisStep([g]) == multiset{Entry(g.group, InStep(g.chunk))}
  {
    assert [g][1..] == [];
  }

  lemma {:induction false} TaggedMembers(groups: seq<SequenceGroup>, place: Place)
    ensures forall e :: e in Tagged(groups, place) <==> e.place == place && e.group in groups
  {
    if groups != [] {
      TaggedMembers(groups[1..], place);
      assert groups == [groups[0]] + groups[1..];
    }
  }

  /** No request is in two places. */
  ghost predicate Unique(entries: multiset<Entry>) {
    && (forall e | e in entries :: entries[e] == 1)
    && forall e, f | e in entries && f in entries :: e.group.requestId == f.group.requestId ==> e == f
  }

  ghost function Requests(entries: multiset<Entry>): set<int> {
    set e | e in entries :: e.group.requestId
  }

  ghost predicate Owned(g: SequenceGroup, owner: map<int, int>) {
    forall s | s in g.seqs :: s.id in owner && owner[s.id] == g.requestId
  }

  ghost predicate EntryOk<B>(e: Entry, tables: map<int, seq<B>>, gpu: set<B>, cpu: set<B>, blockSize: nat, owner: map<int, int>) {
    && blockSize > 0 && Owned(e.group, owner)
    && match e.place
       case InWaiting => WaitingOk(e.group, tables)
       case InRunning => RunningOk(e.group, tables, gpu, blockSize)
       case InSwapped => SwappedOk(e.group, tables, cpu, blockSize)
       case InStep(chunk) => ScheduledOk(e.group, chunk, tables, gpu, blockSize)
  }

  ghost predicate HasMember(g: SequenceGroup, id: int) {
    exists s | s in g.seqs :: s.id == id
  }

  /** Every table belongs to a member of a known group: nothing that has left keeps memory. */
  ghost predicate Tabled<B>(tables: map<int, seq<B>>, entries: multiset<Entry>) {
    forall id | id in tables :: exists e | e in entries :: HasMember(e.group, id)
  }

  /** The same request, with the same members in other states. */
  ghost predicate SameRequest(g: SequenceGroup, h: SequenceGroup) {
    h.requestId == g.requestId && |h.seqs| == |g.seqs| && forall i | 0 <= i < |g.seqs| :: h.seqs[i].id == g.seqs[i].id
  }

  lemma SameRequestMembers(g: SequenceGroup, h: SequenceGroup, id: int)
    requires SameRequest(g, h)
    ensures HasMember(g, id) <==> HasMember(h, id)
  {
    if HasMember(g, id) {
      var i :| 0 <= i < |g.seqs| && g.seqs[i].id == id;
      assert h.seqs[i] in h.seqs;
    }
    if HasMember(h, id) {
      var i :| 0 <= i < |h.seqs| && h.seqs[i].id == id;
      assert g.seqs[i] in g.seqs;
    }
  }

  ghost predicate EntriesOk<B>(entries: multiset<Entry>, tables: map<int, seq<B>>, gpu: set<B>, cpu: set<B>, blockSize: nat,
                               owner: map<int, int>) {
    && Unique(entries) && Tabled(tables, entries)
    && forall e | e in entries :: EntryOk(e, tables, gpu, cpu, blockSize, owner)
  }

  /** A group that moves to another place, its own tables changing with it, leaves every other group in order. */
  lemma MoveKeeps<B>(entries: multiset<Entry>, e: Entry, e': Entry, tables: map<int, seq<B>>, tables': map<int, seq<B>>,
                     gpu: set<B>, cpu: set<B>, blockSize: nat, owner: map<int, int>)
    requires EntriesOk(entries, tables, gpu, cpu, blockSize, owner) && e in entries
    requires SameRequest(e.group, e'.group) && EntryOk(e', tables', gpu, cpu, blockSize, owner)
    requires AgreeOff(e.group, tables, tables')
    ensures EntriesOk(entries - multiset{e} + multiset{e'}, tables', gpu, cpu, blockSize, owner)
    ensures Requests(entries - multiset{e} + multiset{e'}) == Requests(entries)
  {
    hide AgreeOff, EntryOk, Tabled;
    var after := entries - multiset{e} + multiset{e'};
    OthersKeep(entries, e, tables, tables', gpu, cpu, blockSize, owner);
    forall f | f in after && f != e' ensures f in entries && f.group.requestId != e.group.requestId {
      assert f in entries - multiset{e};
    }
    forall f | f in after ensures EntryOk(f, tables', gpu, cpu, blockSize, owner) {
      assert f == e' || f in entries - multiset{e};
    }
    assert forall f | f in entries && f != e :: f in after;
    assert e' in after;
    MoveTabled(entries, e, e', tables, tables');
  }

  lemma MoveTabled<B>(entries: multiset<Entry>, e: Entry, e': Entry, tables: map<int, seq<B>>, tables': map<int, seq<B>>)
    requires Tabled(tables, entries) && AgreeOff(e.group, tables, tables') && SameRequest(e.group, e'.group) && e in entries
    ensures Tabled(tables', entries - multiset{e} + multiset{e'})
  {
    var after := entries - multiset{e} + multiset{e'};
    forall id | id in tables' ensures exists f | f in after :: HasMember(f.group, id) {
      SameRequestMembers(e.group, e'.group, id);
      if HasMember(e.group, id) {
        assert e' in after;
      } else {
        var f :| f in entries && HasMember(f.group, id);
        assert f in after;
      }
    }
  }

  lemma OthersKeep<B>(entries: multiset<Entry>, e: Entry, tables: map<int, seq<B>>, tables': map<int, seq<B>>,
                      gpu: set<B>, cpu: set<B>, blockSize: nat, owner: map<int, int>)
    requires EntriesOk(entries, tables, gpu, cpu, blockSize, owner) && e in entries && AgreeOff(e.group, tables, tables')
    ensures Unique(entries - multiset{e})
    ensures forall f | f in entries - multiset{e} ::
      f in entries && f.group.requestId != e.group.requestId && EntryOk(f, tables', gpu, cpu, blockSize, owner)
  {
    forall f | f in entries - multiset{e}
      ensures f in entries && f.group.requestId != e.group.requestId && EntryOk(f, tables', gpu, cpu, blockSize, owner)
    {
      OthersFrame(f, e, tables, tables', gpu, cpu, blockSize, owner);
    }
  }

  lemma OthersFrame<B>(f: Entry, e: Entry, tables: map<int, seq<B>>, tables': map<int, seq<B>>,
                       gpu: set<B>, cpu: set<B>, blockSize: nat, owner: map<int, int>)
    requires EntryOk(f, tables, gpu, cpu, blockSize, owner) && EntryOk(e, tables, gpu, cpu, blockSize, owner)
    requires f.group.requestId != e.group.requestId && AgreeOff(e.group, tables, tables')
    ensures EntryOk(f, tables', gpu, cpu, blockSize, owner)
  {
    assert SameFor(f.group, tables, tables');
    StatesFrame(f.group, if f.place.InStep? then f.place.chunk else 0, tables, tables', gpu, cpu, blockSize);
  }

  /** A group that leaves, its tables with it. */
  lemma LeaveKeeps<B>(entries: multiset<Entry>, e: Entry, tables: map<int, seq<B>>, tables': map<int, seq<B>>,
                      gpu: set<B>, cpu: set<B>, blockSize: nat, owner: map<int, int>)
    requires EntriesOk(entries, tables, gpu, cpu, blockSize, owner) && e in entries && AgreeOff(e.group, tables, tables')
    requires forall s | s in e.group.seqs :: s.id !in tables'
    ensures EntriesOk(entries - multiset{e}, tables', gpu, cpu, blockSize, owner)
    ensures Requests(entries - multiset{e}) == Requests(entries) - {e.group.requestId}
  {
    hide EntryOk;
    var after := entries - multiset{e};
    OthersKeep(entries, e, tables, tables', gpu, cpu, blockSize, owner);
    assert forall f | f in entries && f != e :: f in after;
    forall id | id in tables' ensures exists f | f in after :: HasMember(f.group, id) {
      var f :| f in entries && HasMember(f.group, id);
      assert f in after;
    }
  }

  /** A new request joins. */
  lemma JoinKeeps<B>(entries: multiset<Entry>, e: Entry, tables: map<int, seq<B>>, gpu: set<B>, cpu: set<B>, blockSize: nat,
                     owner: map<int, int>, owner': map<int, int>)
    requires EntriesOk(entries, tables, gpu, cpu, blockSize, owner) && e.group.requestId !in Requests(entries)
    requires forall id | id in owner :: id in owner' && owner'[id] == owner[id]
    requires EntryOk(e, tables, gpu, cpu, blockSize, owner')
    ensures EntriesOk(entries + multiset{e}, tables, gpu, cpu, blockSize, owner')
    ensures Requests(entries + multiset{e}) == Requests(entries) + {e.group.requestId}
  {
    var after := entries + multiset{e};
    forall f | f in entries ensures EntryOk(f, tables, gpu, cpu, blockSize, owner') && f.group.requestId != e.group.requestId {
      assert EntryOk(f, tables, gpu, cpu, blockSize, owner);
      assert f.group.requestId in Requests(entries);
    }
    forall id | id in tables ensures exists f | f in after :: HasMember(f.group, id) {
      var f :| f in entries && HasMember(f.group, id);
      assert f in after;
    }
  }

  lemma AgreeTwice<B>(g: SequenceGroup, h: SequenceGroup, t0: map<int, seq<B>>, t1: map<int, seq<B>>, t2: map<int, seq<B>>)
    requires SameRequest(g, h) && AgreeOff(g, t0, t1) && AgreeOff(h, t1, t2)
    ensures AgreeOff(g, t0, t2)
  {
    forall id | forall s | s in g.seqs :: s.id != id
      ensures (id in t0 <==> id in t2) && (id in t0 ==> t2[id] == t0[id])
    {
      SameRequestMembers(g, h, id);
      assert !HasMember(g, id);
      assert forall s | s in h.seqs :: s.id != id;
    }
  }

  lemma RestatedSame(g: SequenceGroup, from: Status, to: Status)
    ensures SameRequest(g, Restated(g, from, to))
  {
  }

  lemma OwnedStill(g: SequenceGroup, h: SequenceGroup, owner: map<int, int>)
    requires Owned(g, owner) && SameRequest(g, h)
    ensures Owned(h, owner)
  {
    forall s | s in h.seqs ensures s.id in owner && owner[s.id] == h.requestId {
      var i :| 0 <= i < |h.seqs| && h.seqs[i] == s;
      assert g.seqs[i] in g.seqs;
    }
  }

  // ---- the groups during a step -------------------------------------------------------------------------------

  /** Between two steps. */
  ghost function Roster(waiting: seq<SequenceGroup>, running: seq<SequenceGroup>, swapped: seq<SequenceGroup>): multiset<Entry> {
    Tagged(waiting, InWaiting) + Tagged(running, InRunning) + Tagged(swapped, InSwapped)
  }

  /** While the model runs `scheduled`. */
  ghost function Executing(waiting: seq<SequenceGroup>, idle: seq<SequenceGroup>, scheduled: seq<ScheduledGroup>,
                           swapped: seq<SequenceGroup>): multiset<Entry> {
    Tagged(waiting, InWaiting) + Tagged(idle, InRunning) + InThisStep(scheduled) + Tagged(swapped, InSwapped)
  }

  /** While the running queue is worked off: `queue` is left, the other three lists have been filled from it. */
  ghost function Decoded(rest: multiset<Entry>, decode: seq<ScheduledGroup>, queue: seq<SequenceGroup>,
                         preempted: seq<SequenceGroup>, swappedOut: seq<SequenceGroup>): multiset<Entry> {
    rest + InThisStep(decode) + Tagged(queue, InRunning) + Tagged(preempted, InWaiting) + Tagged(swappedOut, InSwapped)
  }

  lemma DecodedOne(rest: multiset<Entry>, decode: seq<ScheduledGroup>, g: SequenceGroup, queue: seq<SequenceGroup>,
                   preempted: seq<SequenceGroup>, swappedOut: seq<SequenceGroup>, chunk: nat)
    ensures var all := Decoded(rest, decode, [g] + queue, preempted, swappedOut);
      && Entry(g, InRunning) in all
      && Decoded(rest, decode + [ScheduledGroup(g, chunk)], queue, preempted, swappedOut)
         == all - multiset{Entry(g, InRunning)} + multiset{Entry(g, InStep(chunk))}
  {
    TaggedConcat([g], queue, InRunning);
    TaggedOne(g, InRunning);
    InThisStepConcat(decode, [ScheduledGroup(g, chunk)]);
    InThisStepOne(ScheduledGroup(g, chunk));
  }

  /** The last group of the queue is preempted. */
  lemma DecodedLess(rest: multiset<Entry>, decode: seq<ScheduledGroup>, queue: seq<SequenceGroup>, v: SequenceGroup,
                    preempted: seq<SequenceGroup>, swappedOut: seq<SequenceGroup>, e: Entry)
    ensures var all := Decoded(rest, decode, queue + [v], preempted, swappedOut);
      && Entry(v, InRunning) in all
      && (e.place == InWaiting ==> Decoded(rest, decode, queue, preempted + [e.group], swappedOut)
                                   == all - multiset{Entry(v, InRunning)} + multiset{e})
      && (e.place == InSwapped ==> Decoded(rest, decode, queue, preempted, swappedOut + [e.group])
                                   == all - multiset{Entry(v, InRunning)} + multiset{e})
  {
    TaggedConcat(queue, [v], InRunning);
    TaggedOne(v, InRunning);
    TaggedConcat(preempted, [e.group], InWaiting);
    TaggedOne(e.group, InWaiting);
    TaggedConcat(swappedOut, [e.group], InSwapped);
    TaggedOne(e.group, InSwapped);
  }

  /** The first group of a queue is scheduled. */
  lemma FirstScheduled(rest: multiset<Entry>, queue: seq<SequenceGroup>, place: Place, scheduled: seq<ScheduledGroup>, s: ScheduledGroup)
    requires queue != []
    ensures var all := rest + Tagged(queue, place) + InThisStep(scheduled);
      && Entry(queue[0], place) in all
      && rest + Tagged(queue[1..], place) + InThisStep(scheduled + [s])
         == all - multiset{Entry(queue[0], place)} + multiset{Entry(s.group, InStep(s.chunk))}
      && rest + Tagged(queue[1..], place) + InThisStep(scheduled) == all - multiset{Entry(queue[0], place)}
  {
    InThisStepConcat(scheduled, [s]);
    InThisStepOne(s);
  }

  lemma {:induction false} InThisStepMember(scheduled: seq<ScheduledGroup>, s: ScheduledGroup)
    requires s in scheduled
    ensures Entry(s.group, InStep(s.chunk)) in InThisStep(scheduled)
  {
    if s != scheduled[0] {
      InThisStepMember(scheduled[1..], s);
    }
  }

  function RequestIds(groups: seq<SequenceGroup>): set<int> {
    set g | g in groups :: g.requestId
  }

  /** A group that is still queued has not been scheduled in this step. */
  lemma NotYetScheduled(entries: multiset<Entry>, scheduled: seq<ScheduledGroup>, s: ScheduledGroup, e: Entry)
    requires Unique(entries) && InThisStep(scheduled) <= entries && e in entries && !e.place.InStep? && s in scheduled
    ensures s.group.requestId != e.group.requestId
  {
    InThisStepMember(scheduled, s);
  }

  lemma RequestsOf(queue: seq<SequenceGroup>)
    requires queue != []
    ensures RequestIds(queue) == {queue[0].requestId} + RequestIds(queue[1..])
  {
    assert queue == [queue[0]] + queue[1..];
  }

  lemma RequestsWithout(queue: seq<SequenceGroup>, id: int)
    requires forall h | h in queue :: h.requestId != id
    ensures id !in RequestIds(queue)
  {
  }

  lemma HeadApart(rest: multiset<Entry>, later: multiset<Entry>, others: multiset<Entry>, e: Entry, f: Entry)
    requires f in later && Unique(rest + (multiset{e} + later) + others)
    ensures e.group.requestId != f.group.requestId
  {
    var all := rest + (multiset{e} + later) + others;
    assert e in all && f in all;
    assert e == f ==> all[e] >= 2;
  }

  /** The first group of a queue is not the request of any later one. */
  lemma HeadIsOther(rest: multiset<Entry>, queue: seq<SequenceGroup>, place: Place, scheduled: seq<ScheduledGroup>)
    requires queue != [] && Unique(rest + Tagged(queue, place) + InThisStep(scheduled))
    ensures RequestIds(queue) == {queue[0].requestId} + RequestIds(queue[1..])
    ensures queue[0].requestId !in RequestIds(queue[1..])
  {
    hide Unique, InThisStep, RequestIds;
    var g := queue[0];
    RequestsOf(queue);
    TaggedMembers(queue[1..], place);
    forall h | h in queue[1..] ensures h.requestId != g.requestId {
      var e, f := Entry(g, place), Entry(h, place);
      assert f in Tagged(queue[1..], place);
      HeadApart(rest, Tagged(queue[1..], place), InThisStep(scheduled), e, f);
    }
    RequestsWithout(queue[1..], g.requestId);
  }

  lemma {:induction false} RequestsDiffer(rest: multiset<Entry>, queue: seq<SequenceGroup>, place: Place, i: nat)
    requires i < |queue| && Unique(rest + Tagged(queue, place))
    ensures queue[i].requestId !in RequestIds(queue[..i])
    ensures RequestIds(queue[..i + 1]) == RequestIds(queue[..i]) + {queue[i].requestId}
  {
    var front, g := queue[..i], queue[i];
    assert queue == front + ([g] + queue[i + 1..]);
    TaggedConcat(front, [g] + queue[i + 1..], place);
    TaggedConcat([g], queue[i + 1..], place);
    TaggedOne(g, place);
    assert queue[..i + 1] == front + [g];
    TaggedMembers(front, place);
    var all := rest + Tagged(queue, place);
    forall h | h in front ensures h.requestId != g.requestId {
      var e, f := Entry(g, place), Entry(h, place);
      assert f in Tagged(front, place);
      assert e in all && f in all;
      assert e == f ==> all[e] >= 2;
    }
  }

  /** Groups in different queues are different requests. */
  lemma QueuesDiffer(rest: multiset<Entry>, one: seq<SequenceGroup>, place: Place, other: seq<SequenceGroup>, place': Place)
    requires place != place' && Unique(rest + Tagged(one, place) + Tagged(other, place'))
    ensures RequestIds(one) !! RequestIds(other)
  {
    var all := rest + Tagged(one, place) + Tagged(other, place');
    TaggedMembers(one, place);
    TaggedMembers(other, place');
    forall g, h | g in one && h in other ensures g.requestId != h.requestId {
      var e, f := Entry(g, place), Entry(h, place');
      assert e in Tagged(one, place) && f in Tagged(other, place');
      assert e in all && f in all;
    }
  }

  function Reversed<T>(s: seq<T>): seq<T> {
    if s == [] then [] else [s[|s| - 1]] + Reversed(s[..|s| - 1])
  }

  lemma {:induction false} TaggedReversed(groups: seq<SequenceGroup>, place: Place)
    ensures Tagged(Reversed(groups), place) == Tagged(groups, place)
  {
    if groups != [] {
      var front, last := groups[..|groups| - 1], groups[|groups| - 1];
      TaggedReversed(front, place);
      assert groups == front + [last];
      TaggedConcat(front, [last], place);
      TaggedOne(last, place);
      TaggedConcat([last], Reversed(front), place);
    }
  }

  /** A finished member of a known group has no table, wherever the group is. */
  lemma FinishedUntabled<B>(e: Entry, tables: map<int, seq<B>>, gpu: set<B>, cpu: set<B>, blockSize: nat, owner: map<int, int>)
    requires EntryOk(e, tables, gpu, cpu, blockSize, owner)
    ensures forall s | s in e.group.seqs && s.IsFinished() :: s.id !in tables
  {
    forall s | s in e.group.seqs && s.IsFinished() ensures s.id !in tables {
      match e.place
      case InStep(chunk) => assert ScheduledMember(s, chunk, tables, gpu, blockSize);
      case _ =>
    }
  }

  /** A sequence identifier that no request has ever had is in no table. */
  lemma TabledOwned<B>(entries: multiset<Entry>, id: int, tables: map<int, seq<B>>, gpu: set<B>, cpu: set<B>, blockSize: nat,
                       owner: map<int, int>)
    requires EntriesOk(entries, tables, gpu, cpu, blockSize, owner)
    ensures id in tables ==> id in owner
  {
    if id in tables {
      var e :| e in entries && HasMember(e.group, id);
      assert EntryOk(e, tables, gpu, cpu, blockSize, owner);
    }
  }

  lemma RequestsOfBoth(a: multiset<Entry>, b: multiset<Entry>)
    ensures Requests(a + b) == Requests(a) + Requests(b)
  {
    assert forall e :: e in a + b <==> e in a || e in b;
  }

  lemma RequestsOfQueue(queue: seq<SequenceGroup>, place: Place)
    ensures Requests(Tagged(queue, place)) == RequestIds(queue)
  {
    TaggedMembers(queue, place);
    forall g | g in queue ensures g.requestId in Requests(Tagged(queue, place)) {
      assert Entry(g, place) in Tagged(queue, place);
    }
  }

  lemma RosterRequests(waiting: seq<SequenceGroup>, running: seq<SequenceGroup>, swapped: seq<SequenceGroup>)
    ensures Requests(Roster(waiting, running, swapped)) == RequestIds(waiting) + RequestIds(running) + RequestIds(swapped)
  {
    hide Tagged, Requests, RequestIds;
    RequestsOfQueue(waiting, InWaiting);
    RequestsOfQueue(running, InRunning);
    RequestsOfQueue(swapped, InSwapped);
    RequestsOfBoth(Tagged(waiting, InWaiting), Tagged(running, InRunning));
    RequestsOfBoth(Tagged(waiting, InWaiting) + Tagged(running, InRunning), Tagged(swapped, InSwapped));
  }

  /** A group that gains a member leaves every other group in order. */
  lemma GrowKeeps<B>(entries: multiset<Entry>, e: Entry, e': Entry, tables: map<int, seq<B>>, tables': map<int, seq<B>>,
                     gpu: set<B>, cpu: set<B>, blockSize: nat, owner: map<int, int>, owner': map<int, int>)
    requires EntriesOk(entries, tables, gpu, cpu, blockSize, owner) && e in entries
    requires e'.group.requestId == e.group.requestId && EntryOk(e', tables', gpu, cpu, blockSize, owner')
    requires forall id | HasMember(e.group, id) :: HasMember(e'.group, id)
    requires forall s | s in e'.group.seqs :: s.id in owner ==> owner[s.id] == e.group.requestId
    requires forall id | id in owner :: id in owner' && owner'[id] == owner[id]
    requires AgreeOff(e'.group, tables, tables')
    ensures EntriesOk(entries - multiset{e} + multiset{e'}, tables', gpu, cpu, blockSize, owner')
    ensures Requests(entries - multiset{e} + multiset{e'}) == Requests(entries)
  {
    hide AgreeOff, EntryOk;
    var after := entries - multiset{e} + multiset{e'};
    forall f | f in entries - multiset{e}
      ensures f in entries && f.group.requestId != e.group.requestId && EntryOk(f, tables', gpu, cpu, blockSize, owner')
    {
      GrowFrame(f, e', tables, tables', gpu, cpu, blockSize, owner, owner');
    }
    assert forall f | f in entries && f != e :: f in entries - multiset{e};
    assert forall f | f in after :: f == e' || f in entries - multiset{e};
    assert e' in after;
    forall id | id in tables' ensures exists f | f in after :: HasMember(f.group, id) {
      GrowTabled(entries, e, e', tables, tables', id);
    }
  }

  lemma GrowTabled<B>(entries: multiset<Entry>, e: Entry, e': Entry, tables: map<int, seq<B>>, tables': map<int, seq<B>>, id: int)
    requires Tabled(tables, entries) && AgreeOff(e'.group, tables, tables') && e in entries && id in tables'
    requires forall id | HasMember(e.group, id) :: HasMember(e'.group, id)
    ensures exists f | f in entries - multiset{e} + multiset{e'} :: HasMember(f.group, id)
  {
    var after := entries - multiset{e} + multiset{e'};
    if HasMember(e'.group, id) {
      assert e' in after;
    } else {
      var f :| f in entries && HasMember(f.group, id);
      assert f in after;
    }
  }

  lemma GrowFrame<B>(f: Entry, e': Entry, tables: map<int, seq<B>>, tables': map<int, seq<B>>,
                     gpu: set<B>, cpu: set<B>, blockSize: nat, owner: map<int, int>, owner': map<int, int>)
    requires EntryOk(f, tables, gpu, cpu, blockSize, owner) && f.group.requestId != e'.group.requestId
    requires forall s | s in e'.group.seqs :: s.id in owner ==> owner[s.id] == e'.group.requestId
    requires forall id | id in owner :: id in owner' && owner'[id] == owner[id]
    requires AgreeOff(e'.group, tables, tables')
    ensures EntryOk(f, tables', gpu, cpu, blockSize, owner')
  {
    assert SameFor(f.group, tables, tables');
    StatesFrame(f.group, if f.place.InStep? then f.place.chunk else 0, tables, tables', gpu, cpu, blockSize);
  }
}
