/** How the statuses of a group's sequences and its block tables go together in each queue of the scheduler. */
module GroupStates {
  import opened Blocks
  import opened Paging
  import opened Sequences
  import opened Swapping

  /** A group that can be scheduled: beam search keeps at most `bestOf` candidates, of which there are several. */
  ghost predicate GroupOk(g: SequenceGroup) {
    && g.seqs != [] && DistinctIds(g.seqs) && g.bestOf >= 1
    && (g.useBeamSearch ==> g.bestOf >= 2 && |Unfinished(g.seqs)| <= g.bestOf)
    && Unfinished(g.seqs) != []
  }

  /** Members that still run have the status `status`. */
  ghost predicate AllLive(g: SequenceGroup, status: Status) {
    forall s | s in g.seqs :: s.IsFinished() || s.status == status
  }

  /** Decoding: all tokens but the newest have been computed. */
  ghost predicate Decoding(g: SequenceGroup) {
    forall s | s in g.seqs :: s.stage.Decode? && (!s.IsFinished() ==> s.numComputed + 1 == |s.tokens|)
  }

  /** The table of a live member: on one device, and at most the newest token lacks a slot. */
  ghost predicate Housed<B>(s: Sequence, tables: map<int, seq<B>>, device: set<B>, blockSize: nat)
    requires blockSize > 0
  {
    && s.id in tables && tables[s.id] != [] && LiesIn(tables[s.id], device)
    && |tables[s.id]| <= NumBlocks(|s.tokens|, blockSize) <= |tables[s.id]| + 1
  }

  /** A group of the running queue between two steps. */
  ghost predicate RunningOk<B>(g: SequenceGroup, tables: map<int, seq<B>>, gpu: set<B>, blockSize: nat)
    requires blockSize > 0
  {
    && GroupOk(g) && AllLive(g, Running) && Decoding(g)
    && forall s | s in g.seqs :: if s.IsFinished() then s.id !in tables else Housed(s, tables, gpu, blockSize)
  }

  /** A group of the swapped queue. */
  ghost predicate SwappedOk<B>(g: SequenceGroup, tables: map<int, seq<B>>, cpu: set<B>, blockSize: nat)
    requires blockSize > 0
  {
    && GroupOk(g) && AllLive(g, Status.Swapped) && Decoding(g)
    && forall s | s in g.seqs :: if s.IsFinished() then s.id !in tables else Housed(s, tables, cpu, blockSize)
  }

  /** A group of the waiting queue: one prompt to compute from its start, and no table. */
  ghost predicate WaitingOk<B>(g: SequenceGroup, tables: map<int, seq<B>>) {
    && GroupOk(g) && AllLive(g, Waiting) && |Unfinished(g.seqs)| == 1
    && (forall s | s in g.seqs :: if s.IsFinished() then s.stage.Decode? else s.stage.Prefill? && s.numComputed == 0 && s.tokens != [])
    && forall s | s in g.seqs :: s.id !in tables
  }

  /** A group that this step runs, on `chunk` tokens of each live member; every token has a slot. */
  ghost predicate ScheduledOk<B>(g: SequenceGroup, chunk: nat, tables: map<int, seq<B>>, gpu: set<B>, blockSize: nat)
    requires blockSize > 0
  {
    && GroupOk(g) && AllLive(g, Running)
    && forall s | s in g.seqs :: ScheduledMember(s, chunk, tables, gpu, blockSize)
  }

  ghost predicate ScheduledMember<B>(s: Sequence, chunk: nat, tables: map<int, seq<B>>, gpu: set<B>, blockSize: nat)
    requires blockSize > 0
  {
    if s.IsFinished() then s.id !in tables && s.stage.Decode?
    else Housed(s, tables, gpu, blockSize) && |tables[s.id]| == NumBlocks(|s.tokens|, blockSize)
         && s.numComputed + chunk == |s.tokens| && chunk > 0
  }

  /** The tables agree on the members of `g`. */
  ghost predicate SameFor<B>(g: SequenceGroup, tables: map<int, seq<B>>, tables': map<int, seq<B>>) {
    forall s | s in g.seqs :: (s.id in tables <==> s.id in tables') && (s.id in tables ==> tables'[s.id] == tables[s.id])
  }

  /** Only the tables of members of `g` differ. */
  ghost predicate AgreeOff<B>(g: SequenceGroup, tables: map<int, seq<B>>, tables': map<int, seq<B>>) {
    forall id | (forall s | s in g.seqs :: s.id != id) ::
      (id in tables <==> id in tables') && (id in tables ==> tables'[id] == tables[id])
  }

  lemma StatesFrame<B>(g: SequenceGroup, chunk: nat, tables: map<int, seq<B>>, tables': map<int, seq<B>>, gpu: set<B>, cpu: set<B>,
                       blockSize: nat)
    requires blockSize > 0 && SameFor(g, tables, tables')
    ensures WaitingOk(g, tables) ==> WaitingOk(g, tables')
    ensures RunningOk(g, tables, gpu, blockSize) ==> RunningOk(g, tables', gpu, blockSize)
    ensures SwappedOk(g, tables, cpu, blockSize) ==> SwappedOk(g, tables', cpu, blockSize)
    ensures ScheduledOk(g, chunk, tables, gpu, blockSize) ==> ScheduledOk(g, chunk, tables', gpu, blockSize)
  {
  }

  /** A group of the default mode is preempted by recomputation only when exactly one member is left running. */
  lemma RecomputeIsSingle(g: SequenceGroup)
    requires GroupOk(g) && AllLive(g, Running)
    ensures g.MaxNumRunningSeqs() == 1 ==> |Unfinished(g.seqs)| == 1 && g.WithStatus(Running) == Unfinished(g.seqs)
    ensures 1 <= |Unfinished(g.seqs)| <= g.MaxNumRunningSeqs() || |g.seqs| < g.bestOf == g.MaxNumRunningSeqs()
  {
    SelectLive(g.seqs, Running);
  }

  /** What recomputation makes of a running group. */
  function Preempted(g: SequenceGroup): SequenceGroup { g.(seqs := ResetRunning(g.seqs)) }

  lemma OnlyOne(seqs: seq<Sequence>, s: Sequence)
    requires |seqs| == 1 && s in seqs
    ensures s == seqs[0]
  {
  }

  /** A group with one live member. */
  lemma OnlyLive(seqs: seq<Sequence>)
    requires DistinctIds(seqs) && |Unfinished(seqs)| == 1
    ensures Unfinished(seqs)[0] in seqs && !Unfinished(seqs)[0].IsFinished()
    ensures forall s | s in seqs :: if s.IsFinished() then s.id != Unfinished(seqs)[0].id else s == Unfinished(seqs)[0]
  {
    var only := Unfinished(seqs)[0];
    UnfinishedIsSubsequence(seqs);
    assert only in Unfinished(seqs);
    forall s | s in seqs ensures if s.IsFinished() then s.id != only.id else s == only {
      if s.IsFinished() {
        NotLive(seqs, s);
      } else {
        OnlyOne(Unfinished(seqs), s);
      }
    }
  }

  lemma PreemptedIsWaiting<B>(g: SequenceGroup, tables: map<int, seq<B>>, tables': map<int, seq<B>>, gpu: set<B>, blockSize: nat)
    requires blockSize > 0 && RunningOk(g, tables, gpu, blockSize) && |Unfinished(g.seqs)| == 1
    requires tables' == tables - {Unfinished(g.seqs)[0].id}
    ensures WaitingOk(Preempted(g), tables')
  {
    hide DistinctIds, Housed, Unfinished;
    var p := Preempted(g);
    SameMembers(g.seqs, p.seqs);
    OnlyLive(g.seqs);
    forall s | s in p.seqs
      ensures s.id !in tables' && (s.IsFinished() || s.status == Waiting)
      ensures if s.IsFinished() then s.stage.Decode? else s.stage.Prefill? && s.numComputed == 0 && s.tokens != []
    {
      var i :| 0 <= i < |p.seqs| && p.seqs[i] == s;
      assert g.seqs[i] in g.seqs;
    }
  }

  /** A group whose live members all changed from one status to another. */
  function Restated(g: SequenceGroup, from: Status, to: Status): SequenceGroup { g.(seqs := Restatus(g.seqs, from, to)) }

  lemma RestatedIs<B>(g: SequenceGroup, from: Status, to: Status, tables: map<int, seq<B>>, tables': map<int, seq<B>>,
                      here: set<B>, there: set<B>, blockSize: nat)
    requires blockSize > 0 && GroupOk(g) && AllLive(g, from) && Decoding(g) && !from.IsFinished() && !to.IsFinished()
    requires forall s | s in g.seqs :: if s.IsFinished() then s.id !in tables else Housed(s, tables, here, blockSize)
    requires forall s | s in g.seqs :: if s.IsFinished() then s.id !in tables'
               else s.id in tables && s.id in tables' && LiesIn(tables'[s.id], there) && |tables'[s.id]| == |tables[s.id]|
    ensures GroupOk(Restated(g, from, to)) && AllLive(Restated(g, from, to), to) && Decoding(Restated(g, from, to))
    ensures forall s | s in Restated(g, from, to).seqs ::
      if s.IsFinished() then s.id !in tables' else Housed(s, tables', there, blockSize)
  {
    var r := Restated(g, from, to);
    SameMembers(g.seqs, r.seqs);
    forall s | s in r.seqs
      ensures s.IsFinished() || s.status == to
      ensures s.stage.Decode? && (!s.IsFinished() ==> s.numComputed + 1 == |s.tokens|)
      ensures if s.IsFinished() then s.id !in tables' else Housed(s, tables', there, blockSize)
    {
      var i :| 0 <= i < |r.seqs| && r.seqs[i] == s;
      assert g.seqs[i] in g.seqs;
    }
  }

  // ---- appending slots for the members of a group, one after the other --------------------------------------

  /** The first `i` live members have a slot for each token, and no other table has changed. */
  ghost predicate Appending<B>(g: SequenceGroup, i: nat, before: map<int, seq<B>>, now: map<int, seq<B>>, gpu: set<B>, blockSize: nat)
    requires blockSize > 0
  {
    var live := Unfinished(g.seqs);
    && i <= |live| && RunningOk(g, before, gpu, blockSize)
    && (forall k | 0 <= k < i :: live[k].id in now && LiesIn(now[live[k].id], gpu)
                                 && |now[live[k].id]| == NumBlocks(|live[k].tokens|, blockSize))
    && (forall id | id !in Ids(live[..i]) :: (id in before <==> id in now) && (id in before ==> now[id] == before[id]))
  }

  lemma AppendStart<B>(g: SequenceGroup, tables: map<int, seq<B>>, gpu: set<B>, blockSize: nat)
    requires blockSize > 0 && RunningOk(g, tables, gpu, blockSize)
    ensures Appending(g, 0, tables, tables, gpu, blockSize)
  {
  }

  lemma LiveMember(g: SequenceGroup, i: nat)
    requires i < |Unfinished(g.seqs)| && DistinctIds(g.seqs)
    ensures Unfinished(g.seqs)[i] in g.seqs && !Unfinished(g.seqs)[i].IsFinished()
    ensures Unfinished(g.seqs)[i].id !in Ids(Unfinished(g.seqs)[..i])
  {
    UnfinishedIsSubsequence(g.seqs);
    var s := Unfinished(g.seqs)[i];
    assert s in Unfinished(g.seqs);
    UnfinishedDistinct(g.seqs);
    IdsDistinct(Unfinished(g.seqs));
  }

  lemma AppendNext<B>(g: SequenceGroup, i: nat, before: map<int, seq<B>>, now: map<int, seq<B>>, gpu: set<B>, blockSize: nat)
    requires blockSize > 0 && Appending(g, i, before, now, gpu, blockSize) && i < |Unfinished(g.seqs)|
    ensures Housed(Unfinished(g.seqs)[i], now, gpu, blockSize) && Unfinished(g.seqs)[i].tokens != []
    ensures var id := Unfinished(g.seqs)[i].id; id in before && id in now && now[id] == before[id]
  {
    LiveMember(g, i);
  }

  lemma AppendStep<B>(g: SequenceGroup, i: nat, before: map<int, seq<B>>, now: map<int, seq<B>>, next: map<int, seq<B>>, gpu: set<B>,
                      blockSize: nat)
    requires blockSize > 0 && Appending(g, i, before, now, gpu, blockSize) && i < |Unfinished(g.seqs)|
    requires var s := Unfinished(g.seqs)[i];
      s.id in next && next == now[s.id := next[s.id]] && LiesIn(next[s.id], gpu) && |next[s.id]| == NumBlocks(|s.tokens|, blockSize)
    ensures Appending(g, i + 1, before, next, gpu, blockSize)
  {
    hide RunningOk, Unfinished, LiesIn, NumBlocks;
    var live := Unfinished(g.seqs);
    EarlierMembers(g, i, before, gpu, blockSize);
    forall k | 0 <= k < i ensures next[live[k].id] == now[live[k].id] {
      assert Ids(live[..i])[k] in Ids(live[..i]);
    }
  }

  lemma EarlierMembers<B>(g: SequenceGroup, i: nat, tables: map<int, seq<B>>, gpu: set<B>, blockSize: nat)
    requires blockSize > 0 && RunningOk(g, tables, gpu, blockSize) && i < |Unfinished(g.seqs)|
    ensures var live := Unfinished(g.seqs);
      Ids(live[..i + 1]) == Ids(live[..i]) + [live[i].id] && live[i].id !in Ids(live[..i])
  {
    var live := Unfinished(g.seqs);
    LiveMember(g, i);
    assert live[..i + 1] == live[..i] + [live[i]];
  }

  lemma AppendEnd<B>(g: SequenceGroup, before: map<int, seq<B>>, now: map<int, seq<B>>, gpu: set<B>, blockSize: nat)
    requires blockSize > 0 && Appending(g, |Unfinished(g.seqs)|, before, now, gpu, blockSize)
    ensures ScheduledOk(g, 1, now, gpu, blockSize) && AgreeOff(g, before, now)
  {
    var live := Unfinished(g.seqs);
    UnfinishedIsSubsequence(g.seqs);
    assert live[..|live|] == live;
    forall id | forall s | s in g.seqs :: s.id != id ensures id !in Ids(live) {
      assert forall k | 0 <= k < |live| :: live[k] in live;
    }
    forall s | s in g.seqs && s.IsFinished() ensures s.id !in now {
      NotLive(g.seqs, s);
    }
  }

  lemma {:induction false} UnfinishedDistinct(seqs: seq<Sequence>)
    requires DistinctIds(seqs)
    ensures DistinctIds(Unfinished(seqs))
  {
    if seqs != [] {
      var rest := Unfinished(seqs[1..]);
      UnfinishedDistinct(seqs[1..]);
      UnfinishedIsSubsequence(seqs[1..]);
      if seqs[0].IsFinished() {
        assert Unfinished(seqs) == rest;
      } else {
        assert Unfinished(seqs)[1..] == rest;
      }
    }
  }

  /** No live member shares its identifier with a finished one. */
  lemma {:induction false} NotLive(seqs: seq<Sequence>, s: Sequence)
    requires DistinctIds(seqs) && s in seqs && s.IsFinished()
    ensures s.id !in Ids(Unfinished(seqs))
  {
    var live := Unfinished(seqs);
    UnfinishedIsSubsequence(seqs);
    if s.id in Ids(live) {
      var k :| 0 <= k < |live| && Ids(live)[k] == s.id;
      assert live[k] in live;
      SameIdSame(seqs, live[k], s);
    }
  }

  lemma {:induction false} SameIdSame(seqs: seq<Sequence>, a: Sequence, b: Sequence)
    requires DistinctIds(seqs) && a in seqs && b in seqs && a.id == b.id
    ensures a == b
  {
    if a != seqs[0] && b != seqs[0] {
      SameIdSame(seqs[1..], a, b);
    }
  }

  // ---- moving a group to the other device -------------------------------------------------------------------

  /** The live members of `g` have the status `status` and tables on `here`, at most one slot short. */
  ghost predicate Resident<B>(g: SequenceGroup, status: Status, tables: map<int, seq<B>>, here: set<B>, blockSize: nat)
    requires blockSize > 0
  {
    && GroupOk(g) && AllLive(g, status) && Decoding(g)
    && forall s | s in g.seqs :: if s.IsFinished() then s.id !in tables else Housed(s, tables, here, blockSize)
  }

  lemma ResidentAllOn<B>(g: SequenceGroup, status: Status, tables: map<int, seq<B>>, here: set<B>, blockSize: nat)
    requires blockSize > 0 && !status.IsFinished() && Resident(g, status, tables, here, blockSize)
    ensures AllOn(tables, Ids(g.WithStatus(status)), here) && g.WithStatus(status) == Unfinished(g.seqs)
    ensures forall i | 0 <= i < |Ids(Unfinished(g.seqs))| :: Ids(Unfinished(g.seqs))[i] in tables
  {
    SelectLive(g.seqs, status);
    UnfinishedIsSubsequence(g.seqs);
    var live := Unfinished(g.seqs);
    forall i | 0 <= i < |live| ensures Housed(live[i], tables, here, blockSize) {
      var s := live[i];
      assert s in live;
    }
  }

  lemma MemberMoved<B>(g: SequenceGroup, from: Status, before: Ledger<B>, now: Ledger<B>, mapping: map<B, B>,
                       here: set<B>, there: set<B>, blockSize: nat, s: Sequence)
    requires blockSize > 0 && !from.IsFinished() && Covered(before)
    requires Resident(g, from, before.tables, here, blockSize) && s in g.seqs && !s.IsFinished()
    requires MovedTables(before, now, Ids(g.WithStatus(from)), mapping, here, there)
    ensures s.id in now.tables && LiesIn(now.tables[s.id], there) && |now.tables[s.id]| == |before.tables[s.id]|
  {
    hide Covered, Slack, Holders, Recounted, DistinctIds;
    var live, id := g.WithStatus(from), s.id;
    ResidentAllOn(g, from, before.tables, here, blockSize);
    UnfinishedIsSubsequence(g.seqs);
    var k :| 0 <= k < |live| && live[k] == s;
    assert Ids(live)[k] == id;
    assert Remapped(mapping, before.tables[id], now.tables[id]);
  }

  lemma MovedAgree<B>(g: SequenceGroup, from: Status, before: Ledger<B>, now: Ledger<B>, mapping: map<B, B>, here: set<B>, there: set<B>)
    requires Covered(before) && MovedTables(before, now, Ids(g.WithStatus(from)), mapping, here, there)
    ensures AgreeOff(g, before.tables, now.tables)
  {
    hide Covered, Slack, Holders, Recounted;
    var live := g.WithStatus(from);
    SelectIsSubsequence(g.seqs, from);
    forall id | forall s | s in g.seqs :: s.id != id ensures id !in Ids(live) {
      assert forall k | 0 <= k < |live| :: live[k] in live;
    }
  }

  lemma MovedGroup<B>(g: SequenceGroup, from: Status, to: Status, before: Ledger<B>, now: Ledger<B>, mapping: map<B, B>,
                      here: set<B>, there: set<B>, blockSize: nat)
    requires blockSize > 0 && !from.IsFinished() && !to.IsFinished() && Covered(before)
    requires Resident(g, from, before.tables, here, blockSize)
    requires MovedTables(before, now, Ids(g.WithStatus(from)), mapping, here, there)
    ensures Resident(Restated(g, from, to), to, now.tables, there, blockSize)
    ensures AgreeOff(g, before.tables, now.tables)
  {
    hide Covered, Slack, Holders, Recounted, DistinctIds, LiesIn;
    forall s | s in g.seqs && !s.IsFinished()
      ensures s.id in now.tables && LiesIn(now.tables[s.id], there) && |now.tables[s.id]| == |before.tables[s.id]|
    {
      MemberMoved(g, from, before, now, mapping, here, there, blockSize, s);
    }
    RestatedIs(g, from, to, before.tables, now.tables, here, there, blockSize);
    MovedAgree(g, from, before, now, mapping, here, there);
  }

  /** Changing one live status for another keeps the number of sequences that the group may run. */
  lemma RestatedMax(g: SequenceGroup, from: Status, to: Status)
    requires !from.IsFinished() && !to.IsFinished()
    ensures Restated(g, from, to).MaxNumRunningSeqs() == g.MaxNumRunningSeqs()
    ensures |Unfinished(Restated(g, from, to).seqs)| == |Unfinished(g.seqs)|
  {
    SameMembers(g.seqs, Restated(g, from, to).seqs);
  }

  // ---- starting a prompt ------------------------------------------------------------------------------------

  lemma OnePrompt<B>(g: SequenceGroup, tables: map<int, seq<B>>)
    requires WaitingOk(g, tables)
    ensures g.WithStatus(Waiting) == Unfinished(g.seqs) && |g.WithStatus(Waiting)| == 1
    ensures var s := g.WithStatus(Waiting)[0]; s in g.seqs && s.NumNewTokens() == |s.tokens| > 0
    ensures Ids(g.WithStatus(Waiting)) == [g.WithStatus(Waiting)[0].id]
  {
    SelectLive(g.seqs, Waiting);
    UnfinishedIsSubsequence(g.seqs);
    var s := g.WithStatus(Waiting)[0];
    assert s in Unfinished(g.seqs);
  }

  lemma PromptMember<B>(g: SequenceGroup, tables: map<int, seq<B>>, tables': map<int, seq<B>>, table: seq<B>, gpu: set<B>, blockSize: nat,
                        only: Sequence, s: Sequence)
    requires blockSize > 0 && WaitingOk(g, tables) && LiesIn(table, gpu) && s in g.seqs && only in g.seqs
    requires |table| == NumBlocks(|only.tokens|, blockSize) && tables' == tables[only.id := table]
    requires if s.IsFinished() then s.id != only.id else s == only
    ensures var s' := if s.status == Waiting then s.(status := Running) else s;
      (s'.IsFinished() || s'.status == Running) && ScheduledMember(s', |only.tokens|, tables', gpu, blockSize)
  {
    hide DistinctIds, Unfinished;
  }

  /** A waiting group whose prompt received a table runs its whole prompt. */
  lemma PromptStarts<B>(g: SequenceGroup, tables: map<int, seq<B>>, tables': map<int, seq<B>>, table: seq<B>, gpu: set<B>, blockSize: nat)
    requires blockSize > 0 && WaitingOk(g, tables) && LiesIn(table, gpu) && g.WithStatus(Waiting) != []
    requires |table| == NumBlocks(|g.WithStatus(Waiting)[0].tokens|, blockSize)
    requires tables' == Share(tables, Ids(g.WithStatus(Waiting)), table)
    ensures ScheduledOk(Restated(g, Waiting, Running), |g.WithStatus(Waiting)[0].tokens|, tables', gpu, blockSize)
    ensures AgreeOff(g, tables, tables')
  {
    hide DistinctIds, Unfinished, Select, SequenceGroup.WithStatus, ScheduledMember, LiesIn;
    var r, only := Restated(g, Waiting, Running), g.WithStatus(Waiting)[0];
    OnePrompt(g, tables);
    SameMembers(g.seqs, r.seqs);
    OnlyLive(g.seqs);
    assert tables' == tables[only.id := table];
    forall s | s in r.seqs ensures (s.IsFinished() || s.status == Running) && ScheduledMember(s, |only.tokens|, tables', gpu, blockSize) {
      var i :| 0 <= i < |r.seqs| && r.seqs[i] == s;
      assert g.seqs[i] in g.seqs;
      PromptMember(g, tables, tables', table, gpu, blockSize, only, g.seqs[i]);
    }
  }

  // ---- forking a member ---------------------------------------------------------------------------------------

  /** There is room for another sample or beam. */
  predicate CanFork(g: SequenceGroup) {
    if g.useBeamSearch then |Unfinished(g.seqs)| < g.bestOf else |g.seqs| < g.bestOf
  }

  /** A child differs from its parent in its identifier and in the token sampled last. */
  function Child(parent: Sequence, id: int, token: int): Sequence
    requires parent.tokens != []
  {
    parent.(id := id, tokens := parent.tokens[..|parent.tokens| - 1] + [token])
  }

  /** The child has the tokens of its parent but for the newest, and as many of them are computed. */
  ghost predicate Branches(parent: Sequence, child: Sequence, id: int, token: int)
    requires parent.tokens != []
  {
    && child.id == id && child.status == parent.status && child.stage == parent.stage && child.numComputed == parent.numComputed
    && |child.tokens| == |parent.tokens| && child.tokens[|child.tokens| - 1] == token
    && forall i | 0 <= i < |parent.tokens| - 1 :: child.tokens[i] == parent.tokens[i]
  }

  function Forked(g: SequenceGroup, child: Sequence): SequenceGroup { g.(seqs := g.seqs + [child]) }

  lemma {:induction false} UnfinishedGrows(seqs: seq<Sequence>, s: Sequence)
    ensures Unfinished(seqs + [s]) == Unfinished(seqs) + if s.IsFinished() then [] else [s]
  {
    if seqs == [] {
      assert [s][1..] == [];
    } else {
      var all := seqs + [s];
      assert all[0] == seqs[0] && all[1..] == seqs[1..] + [s];
      UnfinishedGrows(seqs[1..], s);
    }
  }

  lemma {:induction false} DistinctGrows(seqs: seq<Sequence>, s: Sequence)
    requires DistinctIds(seqs) && forall m | m in seqs :: m.id != s.id
    ensures DistinctIds(seqs + [s])
  {
    if seqs == [] {
      assert [s][1..] == [];
    } else {
      var all := seqs + [s];
      assert all[1..] == seqs[1..] + [s];
      DistinctGrows(seqs[1..], s);
    }
  }

  lemma {:induction false} UnfinishedFewer(seqs: seq<Sequence>)
    ensures |Unfinished(seqs)| <= |seqs|
  {
    if seqs != [] {
      UnfinishedFewer(seqs[1..]);
    }
  }

  /** A fork keeps the group in order, and within the number of sequences it was accounted for. */
  lemma ForkedIs<B>(g: SequenceGroup, parent: Sequence, id: int, token: int, tables: map<int, seq<B>>, gpu: set<B>, blockSize: nat)
    requires blockSize > 0 && RunningOk(g, tables, gpu, blockSize) && CanFork(g)
    requires parent in g.seqs && !parent.IsFinished() && parent.tokens != [] && parent.id in tables
    requires forall s | s in g.seqs :: s.id != id
    ensures RunningOk(Forked(g, Child(parent, id, token)), tables[id := tables[parent.id]], gpu, blockSize)
    ensures Forked(g, Child(parent, id, token)).MaxNumRunningSeqs() <= g.MaxNumRunningSeqs()
    ensures var f := Forked(g, Child(parent, id, token));
      |f.seqs| == |g.seqs| + 1 && f.seqs[..|g.seqs|] == g.seqs && Branches(parent, f.seqs[|g.seqs|], id, token)
  {
    hide DistinctIds, Unfinished;
    var c := Child(parent, id, token);
    var f, tables' := Forked(g, c), tables[id := tables[parent.id]];
    UnfinishedGrows(g.seqs, c);
    DistinctGrows(g.seqs, c);
    UnfinishedFewer(f.seqs);
    forall s | s in f.seqs
      ensures (s.IsFinished() || s.status == Running) && s.stage.Decode? && (!s.IsFinished() ==> s.numComputed + 1 == |s.tokens|)
      ensures if s.IsFinished() then s.id !in tables' else Housed(s, tables', gpu, blockSize)
    {
      if s == c {
        assert Housed(parent, tables, gpu, blockSize);
      } else {
        assert s in g.seqs;
      }
    }
  }
}
