/** What the model's outputs do to a scheduled group (vllm/engine/llm_engine.py:461-504, vllm/sequence.py:145-152), as values. */
module Outputs {
  import opened Sequences
  import opened GroupStates
  import opened Paging
  import opened Rosters
  import opened Queues

  datatype Finish = NotYet | AtStop | AtLength

  /** The token sampled for a sequence, and whether it ends the sequence. */
  datatype Sampled = Sampled(token: int, finish: Finish)

  /** `update_num_computed_tokens` (145-152). */
  function Advanced(s: Sequence, chunk: nat): Sequence {
    s.(numComputed := s.numComputed + chunk, stage := if s.numComputed + chunk == |s.tokens| then Decode else s.stage)
  }

  function AdvanceAll(seqs: seq<Sequence>, chunk: nat): (r: seq<Sequence>)
    ensures |r| == |seqs|
    ensures forall i | 0 <= i < |seqs| :: r[i] == if seqs[i].IsFinished() then seqs[i] else Advanced(seqs[i], chunk)
  {
    if seqs == [] then []
    else [if seqs[0].IsFinished() then seqs[0] else Advanced(seqs[0], chunk)] + AdvanceAll(seqs[1..], chunk)
  }

  /** The token is appended; it may be the last one. */
  function Emitted(s: Sequence, o: Sampled): Sequence {
    s.(tokens := s.tokens + [o.token],
       status := match o.finish case NotYet => s.status case AtStop => FinishedStopped case AtLength => FinishedLengthCapped)
  }

  function EmitAll(seqs: seq<Sequence>, sample: int -> Sampled): (r: seq<Sequence>)
    ensures |r| == |seqs|
    ensures forall i | 0 <= i < |seqs| :: r[i] == if seqs[i].IsFinished() then seqs[i] else Emitted(seqs[i], sample(seqs[i].id))
  {
    if seqs == [] then []
    else [if seqs[0].IsFinished() then seqs[0] else Emitted(seqs[0], sample(seqs[0].id))] + EmitAll(seqs[1..], sample)
  }

  /** The group after its outputs have been processed. */
  function Produced(g: SequenceGroup, chunk: nat, sample: int -> Sampled): SequenceGroup {
    g.(seqs := EmitAll(AdvanceAll(g.seqs, chunk), sample))
  }

  /** The sampled token becomes the newest of the sequence, which ends if and as the sample says. */
  ghost predicate Took(s: Sequence, later: Sequence, chunk: nat, o: Sampled) {
    && later.id == s.id && |later.tokens| == |s.tokens| + 1 && later.numComputed == s.numComputed + chunk
    && later.tokens[..|s.tokens|] == s.tokens && later.tokens[|s.tokens|] == o.token
    && later.status == match o.finish case NotYet => s.status case AtStop => FinishedStopped case AtLength => FinishedLengthCapped
  }

  ghost predicate TookAll(g: SequenceGroup, later: SequenceGroup, chunk: nat, sample: int -> Sampled) {
    && |later.seqs| == |g.seqs|
    && forall i | 0 <= i < |g.seqs| ::
      if g.seqs[i].IsFinished() then later.seqs[i] == g.seqs[i] else Took(g.seqs[i], later.seqs[i], chunk, sample(g.seqs[i].id))
  }

  lemma TokensTaken(g: SequenceGroup, chunk: nat, sample: int -> Sampled)
    ensures TookAll(g, Produced(g, chunk, sample), chunk, sample)
  {
    var p := Produced(g, chunk, sample);
    forall i | 0 <= i < |g.seqs| && !g.seqs[i].IsFinished()
      ensures Took(g.seqs[i], p.seqs[i], chunk, sample(g.seqs[i].id))
    {
      var s := g.seqs[i];
      assert p.seqs[i] == Emitted(Advanced(s, chunk), sample(s.id));
    }
  }

  predicate AllDecode(seqs: seq<Sequence>) {
    forall s | s in seqs :: s.stage.Decode?
  }

  /** The assertion of `update_num_computed_tokens` holds for every live member. */
  predicate NoOverflow(seqs: seq<Sequence>, chunk: nat) {
    forall s | s in seqs :: s.IsFinished() || s.numComputed + chunk <= |s.tokens|
  }

  /** A scheduled chunk completes every live member exactly: no counter overflows, and all are decoding then. */
  lemma ChunksComplete<B>(g: SequenceGroup, chunk: nat, tables: map<int, seq<B>>, gpu: set<B>, blockSize: nat)
    requires blockSize > 0 && ScheduledOk(g, chunk, tables, gpu, blockSize)
    ensures NoOverflow(g.seqs, chunk) && AllDecode(AdvanceAll(g.seqs, chunk))
    ensures forall s | s in AdvanceAll(g.seqs, chunk) && !s.IsFinished() :: s.numComputed == |s.tokens|
  {
    forall s | s in g.seqs ensures ScheduledMember(s, chunk, tables, gpu, blockSize) {}
    var a := AdvanceAll(g.seqs, chunk);
    forall s | s in a ensures s.stage.Decode? && (!s.IsFinished() ==> s.numComputed == |s.tokens|) {
      var i :| 0 <= i < |a| && a[i] == s;
      assert g.seqs[i] in g.seqs;
    }
  }

  /** A member that has just produced a token and goes on. */
  lemma ProducedMember<B>(s: Sequence, chunk: nat, o: Sampled, tables: map<int, seq<B>>, gpu: set<B>, blockSize: nat)
    requires blockSize > 0 && ScheduledMember(s, chunk, tables, gpu, blockSize) && !s.IsFinished()
    ensures var p := Emitted(Advanced(s, chunk), o);
      && p.id == s.id && p.stage.Decode? && p.numComputed + 1 == |p.tokens| && (!p.IsFinished() ==> p.status == s.status)
      && Housed(p, tables, gpu, blockSize)
  {
    OneMoreBlock(|s.tokens|, blockSize);
  }

  /** A group that goes on is in order for the running queue, once its finished members have given up their tables. */
  lemma ProducedIs<B>(g: SequenceGroup, chunk: nat, sample: int -> Sampled, tables: map<int, seq<B>>, tables': map<int, seq<B>>,
                      gpu: set<B>, blockSize: nat)
    requires blockSize > 0 && ScheduledOk(g, chunk, tables, gpu, blockSize)
    requires var p := Produced(g, chunk, sample);
      && (forall s | s in p.seqs && s.IsFinished() :: s.id !in tables')
      && (forall s | s in p.seqs && !s.IsFinished() :: s.id in tables ==> s.id in tables' && tables'[s.id] == tables[s.id])
    requires !Produced(g, chunk, sample).IsFinished()
    ensures RunningOk(Produced(g, chunk, sample), tables', gpu, blockSize)
  {
    hide Housed, GroupOk, ScheduledMember, Emitted, Advanced, Unfinished, Produced;
    var p := Produced(g, chunk, sample);
    ProducedMembers(g, chunk, sample);
    ProducedGroupOk(g, chunk, sample);
    forall s | s in p.seqs
      ensures s.stage.Decode? && (!s.IsFinished() ==> s.status == Running && s.numComputed + 1 == |s.tokens|)
      ensures if s.IsFinished() then s.id !in tables' else Housed(s, tables', gpu, blockSize)
    {
      var i :| 0 <= i < |p.seqs| && p.seqs[i] == s;
      assert g.seqs[i] in g.seqs;
      MemberProduced(g.seqs[i], chunk, sample, tables, tables', gpu, blockSize);
    }
  }

  lemma ProducedGroupOk(g: SequenceGroup, chunk: nat, sample: int -> Sampled)
    requires GroupOk(g) && !Produced(g, chunk, sample).IsFinished()
    ensures GroupOk(Produced(g, chunk, sample))
  {
    hide DistinctIds, Emitted, Advanced, Unfinished;
    var p := Produced(g, chunk, sample);
    ProducedMembers(g, chunk, sample);
    FewerUnfinished(g.seqs, p.seqs);
    UnfinishedIsSubsequence(p.seqs);
    var s :| s in p.seqs && !s.IsFinished();
    assert s in Unfinished(p.seqs);
  }

  lemma MemberProduced<B>(s: Sequence, chunk: nat, sample: int -> Sampled, tables: map<int, seq<B>>, tables': map<int, seq<B>>,
                          gpu: set<B>, blockSize: nat)
    requires blockSize > 0 && ScheduledMember(s, chunk, tables, gpu, blockSize) && (s.IsFinished() || s.status == Running)
    requires var p := if s.IsFinished() then s else Emitted(Advanced(s, chunk), sample(s.id));
      if p.IsFinished() then p.id !in tables' else p.id in tables ==> p.id in tables' && tables'[p.id] == tables[p.id]
    ensures var p := if s.IsFinished() then s else Emitted(Advanced(s, chunk), sample(s.id));
      && p.stage.Decode? && (!p.IsFinished() ==> p.status == Running && p.numComputed + 1 == |p.tokens|)
      && (if p.IsFinished() then p.id !in tables' else Housed(p, tables', gpu, blockSize))
  {
    if !s.IsFinished() {
      ProducedMember(s, chunk, sample(s.id), tables, gpu, blockSize);
    }
  }

  lemma ProducedMembers(g: SequenceGroup, chunk: nat, sample: int -> Sampled)
    ensures var p := Produced(g, chunk, sample);
      && SameRequest(g, p) && p.bestOf == g.bestOf && p.useBeamSearch == g.useBeamSearch
      && (forall i | 0 <= i < |g.seqs| :: g.seqs[i].IsFinished() ==> p.seqs[i].IsFinished())
      && (forall i | 0 <= i < |g.seqs| ::
            p.seqs[i] == if g.seqs[i].IsFinished() then g.seqs[i]
                         else Emitted(Advanced(g.seqs[i], chunk), sample(g.seqs[i].id)))
  {
  }

  /** Finished members stay finished. */
  lemma {:induction false} FewerUnfinished(a: seq<Sequence>, b: seq<Sequence>)
    requires |a| == |b| && forall i | 0 <= i < |a| :: a[i].id == b[i].id && (a[i].IsFinished() ==> b[i].IsFinished())
    ensures |Unfinished(b)| <= |Unfinished(a)| && (DistinctIds(a) ==> DistinctIds(b))
  {
    if a != [] {
      FewerUnfinished(a[1..], b[1..]);
      if DistinctIds(a) {
        forall s | s in b[1..] ensures s.id != b[0].id {
          var i :| 0 <= i < |b[1..]| && b[1..][i] == s;
          assert a[1..][i] in a[1..];
        }
      }
    }
  }

  /** Processing outputs changes neither the request nor its arrival, and it may run no more sequences than before. */
  lemma ProducedContinues(g: SequenceGroup, chunk: nat, sample: int -> Sampled)
    ensures Continues(g, Produced(g, chunk, sample))
    ensures Produced(g, chunk, sample).MaxNumRunningSeqs() <= g.MaxNumRunningSeqs()
  {
    var p := Produced(g, chunk, sample);
    ProducedMembers(g, chunk, sample);
    FewerUnfinished(g.seqs, p.seqs);
    if Single(g) && !p.IsFinished() {
      assert forall s | s in p.seqs :: s == p.seqs[0];
    }
  }

  /** `free_finished_seq_groups` (955-957). */
  function Live(groups: seq<SequenceGroup>): seq<SequenceGroup> {
    if groups == [] then [] else (if groups[0].IsFinished() then [] else [groups[0]]) + Live(groups[1..])
  }

  lemma {:induction false} LiveConcat(a: seq<SequenceGroup>, b: seq<SequenceGroup>)
    ensures Live(a + b) == Live(a) + Live(b)
  {
    if a == [] {
      assert a + b == b;
    } else {
      var ab := a + b;
      assert ab[0] == a[0] && ab[1..] == a[1..] + b;
      LiveConcat(a[1..], b);
      var first := if a[0].IsFinished() then [] else [a[0]];
      assert Live(ab) == first + Live(ab[1..]) && Live(a) == first + Live(a[1..]);
    }
  }

  lemma {:induction false} LiveAll(groups: seq<SequenceGroup>)
    requires forall g | g in groups :: !g.IsFinished()
    ensures Live(groups) == groups
  {
    if groups != [] {
      assert groups[0] in groups;
      LiveAll(groups[1..]);
    }
  }

  lemma {:induction false} LiveThins(groups: seq<SequenceGroup>, later: seq<SequenceGroup>)
    requires |groups| == |later|
    requires forall i | 0 <= i < |groups| ::
      Continues(groups[i], later[i]) && later[i].MaxNumRunningSeqs() <= groups[i].MaxNumRunningSeqs()
    ensures Thinned(groups, Live(later)) && SumMax(Live(later)) <= SumMax(groups)
  {
    if groups != [] {
      var rest := Live(later[1..]);
      LiveThins(groups[1..], later[1..]);
      if later[0].IsFinished() {
        assert Live(later) == rest;
      } else {
        assert Live(later)[1..] == rest;
      }
    }
  }

  function ProducedAll(scheduled: seq<ScheduledGroup>, sample: int -> Sampled): (r: seq<SequenceGroup>)
    ensures |r| == |scheduled| && forall i | 0 <= i < |r| :: r[i] == Produced(scheduled[i].group, scheduled[i].chunk, sample)
  {
    if scheduled == [] then []
    else [Produced(scheduled[0].group, scheduled[0].chunk, sample)] + ProducedAll(scheduled[1..], sample)
  }

  /** The next scheduled group is processed: it goes on running, or it leaves. */
  lemma NextProduced(waiting: seq<SequenceGroup>, idle: seq<SequenceGroup>, done: seq<SequenceGroup>,
                     scheduled: seq<ScheduledGroup>, swapped: seq<SequenceGroup>, p: SequenceGroup)
    requires scheduled != []
    ensures var e, all := Entry(scheduled[0].group, InStep(scheduled[0].chunk)), Executing(waiting, idle + Live(done), scheduled, swapped);
      && e in all
      && if p.IsFinished() then Executing(waiting, idle + Live(done + [p]), scheduled[1..], swapped) == all - multiset{e}
         else Executing(waiting, idle + Live(done + [p]), scheduled[1..], swapped) == all - multiset{e} + multiset{Entry(p, InRunning)}
  {
    LiveConcat(done, [p]);
    assert [p][1..] == [];
    var live := idle + Live(done);
    if !p.IsFinished() {
      assert idle + Live(done + [p]) == live + [p];
      TaggedConcat(live, [p], InRunning);
      TaggedOne(p, InRunning);
    } else {
      assert idle + Live(done + [p]) == live;
    }
  }

  lemma EachContinues(idle: seq<SequenceGroup>, scheduled: seq<ScheduledGroup>, sample: int -> Sampled)
    ensures var before, after := idle + Groups(scheduled), idle + ProducedAll(scheduled, sample);
      && |before| == |after|
      && forall i | 0 <= i < |before| ::
        Continues(before[i], after[i]) && after[i].MaxNumRunningSeqs() <= before[i].MaxNumRunningSeqs()
  {
    hide Produced, Groups, ProducedAll, SequenceGroup.MaxNumRunningSeqs;
    var before, after := idle + Groups(scheduled), idle + ProducedAll(scheduled, sample);
    forall i | 0 <= i < |before|
      ensures Continues(before[i], after[i]) && after[i].MaxNumRunningSeqs() <= before[i].MaxNumRunningSeqs()
    {
      if i >= |idle| {
        var s := scheduled[i - |idle|];
        ProducedContinues(s.group, s.chunk, sample);
      }
    }
  }

  /** All groups have been processed. */
  lemma AllProduced(idle: seq<SequenceGroup>, scheduled: seq<ScheduledGroup>, sample: int -> Sampled)
    requires forall g | g in idle :: !g.IsFinished()
    ensures var done := ProducedAll(scheduled, sample);
      && Live(idle + done) == idle + Live(done)
      && Thinned(idle + Groups(scheduled), Live(idle + done))
      && SumMax(Live(idle + done)) <= SumMax(idle + Groups(scheduled))
  {
    hide *;
    var done := ProducedAll(scheduled, sample);
    LiveConcat(idle, done);
    LiveAll(idle);
    EachContinues(idle, scheduled, sample);
    LiveThins(idle + Groups(scheduled), idle + done);
  }

  lemma NoneProduced(waiting: seq<SequenceGroup>, idle: seq<SequenceGroup>, scheduled: seq<ScheduledGroup>, swapped: seq<SequenceGroup>)
    ensures Live([]) == [] && idle + [] == idle && scheduled[0..] == scheduled && Groups(scheduled)[0..] == Groups(scheduled)
    ensures Executing(waiting, idle + Live([]), scheduled[0..], swapped) == Executing(waiting, idle, scheduled, swapped)
  {
    assert idle + [] == idle;
  }

  lemma Rostered(waiting: seq<SequenceGroup>, running: seq<SequenceGroup>, swapped: seq<SequenceGroup>)
    ensures Executing(waiting, running, [], swapped) == Roster(waiting, running, swapped)
  {
  }

  /** A group in any queue has a live member. */
  lemma KnownLive<B>(entries: multiset<Entry>, groups: seq<SequenceGroup>, place: Place, tables: map<int, seq<B>>, gpu: set<B>, cpu: set<B>,
                     blockSize: nat, owner: map<int, int>)
    requires EntriesOk(entries, tables, gpu, cpu, blockSize, owner) && Tagged(groups, place) <= entries
    ensures forall g | g in groups :: !g.IsFinished()
  {
    TaggedMembers(groups, place);
    forall g | g in groups ensures !g.IsFinished() {
      var e := Entry(g, place);
      assert e in Tagged(groups, place);
      assert EntryOk(e, tables, gpu, cpu, blockSize, owner);
      UnfinishedIsSubsequence(g.seqs);
      assert Unfinished(g.seqs)[0] in Unfinished(g.seqs);
    }
  }

  lemma ReplaceNext<T>(idle: seq<T>, done: seq<T>, groups: seq<T>, p: T)
    requires |done| < |groups|
    ensures var all, i := idle + done + groups[|done|..], |idle| + |done|;
      && i == |all| - (|groups| - |done|) && i < |all|
      && all[i := p] == idle + (done + [p]) + groups[|done| + 1..]
  {
  }
}
