/** The engine's step: schedule, run the model, process its outputs (vllm/engine/llm_engine.py:461-578). */
module Engine {
  import opened Wrappers
  import opened Blocks
  import opened Paging
  import opened Sequences
  import opened GroupStates
  import opened Rosters
  import opened Footprints
  import opened Contents
  import opened Serving
  import KvRefinement
  import opened Queues
  import opened Outputs
  import opened BlockManager
  import opened Scheduling
  import opened Steps

  /** Only the tables of finished sequences among `seqs` are gone. */
  ghost predicate FreedOnly(seqs: seq<Sequence>, before: map<int, BlockTable>, after: map<int, BlockTable>) {
    && after.Keys <= before.Keys
    && (forall s | s in seqs && s.IsFinished() :: s.id !in after)
    && (forall id | forall s | s in seqs && s.IsFinished() :: s.id != id ::
          (id in before <==> id in after) && (id in before ==> after[id] == before[id]))
  }

  /** A live sequence keeps its table. */
  lemma LiveKept(seqs: seq<Sequence>, before: map<int, BlockTable>, after: map<int, BlockTable>, s: Sequence)
    requires FreedOnly(seqs, before, after) && DistinctIds(seqs) && s in seqs && !s.IsFinished()
    ensures s.id in before ==> s.id in after && after[s.id] == before[s.id]
  {
    forall f | f in seqs && f.IsFinished() ensures f.id != s.id {
      if f.id == s.id {
        SameIdSame(seqs, f, s);
      }
    }
  }

  lemma FreedAgree(g: SequenceGroup, p: SequenceGroup, before: map<int, BlockTable>, after: map<int, BlockTable>)
    requires SameRequest(g, p) && FreedOnly(p.seqs, before, after)
    ensures AgreeOff(g, before, after)
    ensures p.IsFinished() ==> forall s | s in g.seqs :: s.id !in after
  {
    forall id | forall s | s in g.seqs :: s.id != id
      ensures (id in before <==> id in after) && (id in before ==> after[id] == before[id])
    {
      SameRequestMembers(g, p, id);
      assert !HasMember(g, id);
      assert forall s | s in p.seqs && s.IsFinished() :: s.id != id;
    }
    if p.IsFinished() {
      forall s | s in g.seqs ensures s.id !in after {
        assert HasMember(g, s.id);
        SameRequestMembers(g, p, s.id);
        var f :| f in p.seqs && f.id == s.id;
      }
    }
  }

  /** Where a group is after its outputs have been processed. */
  lemma AfterProduce(entries: multiset<Entry>, s: ScheduledGroup, sample: int -> Sampled,
                     before: map<int, BlockTable>, after: map<int, BlockTable>,
                     gpu: set<PhysicalTokenBlock>, cpu: set<PhysicalTokenBlock>, blockSize: nat, owner: map<int, int>)
    requires blockSize > 0 && EntriesOk(entries, before, gpu, cpu, blockSize, owner)
    requires Entry(s.group, InStep(s.chunk)) in entries
    requires FreedOnly(Produced(s.group, s.chunk, sample).seqs, before, after)
    ensures var e, p := Entry(s.group, InStep(s.chunk)), Produced(s.group, s.chunk, sample);
      if p.IsFinished() then
        && EntriesOk(entries - multiset{e}, after, gpu, cpu, blockSize, owner)
        && Requests(entries - multiset{e}) == Requests(entries) - {s.group.requestId}
      else
        && EntriesOk(entries - multiset{e} + multiset{Entry(p, InRunning)}, after, gpu, cpu, blockSize, owner)
        && Requests(entries - multiset{e} + multiset{Entry(p, InRunning)}) == Requests(entries)
  {
    hide EntriesOk, Requests, ScheduledOk, RunningOk, Produced, FreedOnly, AgreeOff;
    var e, g, p := Entry(s.group, InStep(s.chunk)), s.group, Produced(s.group, s.chunk, sample);
    InStepOk(entries, s, before, gpu, cpu, blockSize, owner);
    ProducedMembers(g, s.chunk, sample);
    FreedAgree(g, p, before, after);
    if p.IsFinished() {
      LeaveKeeps(entries, e, before, after, gpu, cpu, blockSize, owner);
    } else {
      ProducedRunning(s, sample, before, after, gpu, blockSize);
      OwnedStill(g, p, owner);
      MoveKeeps(entries, e, Entry(p, InRunning), before, after, gpu, cpu, blockSize, owner);
    }
  }

  lemma InStepOk(entries: multiset<Entry>, s: ScheduledGroup, tables: map<int, BlockTable>,
                 gpu: set<PhysicalTokenBlock>, cpu: set<PhysicalTokenBlock>, blockSize: nat, owner: map<int, int>)
    requires blockSize > 0 && EntriesOk(entries, tables, gpu, cpu, blockSize, owner)
    requires Entry(s.group, InStep(s.chunk)) in entries
    ensures ScheduledOk(s.group, s.chunk, tables, gpu, blockSize) && Owned(s.group, owner)
  {
    assert EntryOk(Entry(s.group, InStep(s.chunk)), tables, gpu, cpu, blockSize, owner);
  }

  lemma ProducedRunning(s: ScheduledGroup, sample: int -> Sampled, before: map<int, BlockTable>, after: map<int, BlockTable>,
                        gpu: set<PhysicalTokenBlock>, blockSize: nat)
    requires blockSize > 0 && ScheduledOk(s.group, s.chunk, before, gpu, blockSize)
    requires FreedOnly(Produced(s.group, s.chunk, sample).seqs, before, after) && !Produced(s.group, s.chunk, sample).IsFinished()
    ensures RunningOk(Produced(s.group, s.chunk, sample), after, gpu, blockSize)
  {
    hide Produced, ScheduledMember, Unfinished;
    var p := Produced(s.group, s.chunk, sample);
    ProducedMembers(s.group, s.chunk, sample);
    FewerUnfinished(s.group.seqs, p.seqs);
    forall m | m in p.seqs && !m.IsFinished() ensures m.id in before ==> m.id in after && after[m.id] == before[m.id] {
      LiveKept(p.seqs, before, after, m);
    }
    ProducedIs(s.group, s.chunk, sample, before, after, gpu, blockSize);
  }

  lemma FreedKept(seqs: seq<Sequence>, before: map<int, BlockTable>, after: map<int, BlockTable>)
    requires FreedOnly(seqs, before, after)
    ensures TablesKept(after, before)
  {
    forall id | id in after ensures id in before && before[id] == after[id] {
      assert forall s | s in seqs && s.IsFinished() :: s.id != id;
    }
  }

  lemma SinglesAlone(q: Queues)
    requires FirstComeFirstServed(q)
    ensures OneEach(q.waiting)
  {
    assert forall g | g in q.waiting :: g in q.running + q.waiting;
  }

  /** What happened in a step: the queues `mid` when the model ran, the running groups `idle` that waited for the prompts, the
      groups that ran, and who was considered, kept, preempted and brought back. */
  datatype Turnout = Turnout(mid: Queues, idle: seq<SequenceGroup>, scheduled: seq<ScheduledGroup>, starts: bool, taken: nat,
                             kept: seq<SequenceGroup>, victims: seq<SequenceGroup>, back: nat)

  /** A step from the queues `q` to `q'`: prompts start and run, or the running groups that are kept decode with those that come
      back; every live member that ran has got its token, and the groups that have ended are gone. */
  ghost predicate StepIs(l: Limits, q: Queues, m: Turnout, q': Queues, now: real, now': real, sample: int -> Sampled) {
    && l.blockSize > 0 && m.mid.running == m.idle + Groups(m.scheduled)
    && (if m.starts then
          && AdmitStep(l, q, m.mid, m.taken) && m.idle == q.running && m.scheduled == Started(l, q.waiting[..m.taken])
        else
          && DecodeStep(l, q, m.mid, m.taken, now, now', m.kept, m.victims, m.back)
          && m.idle == [] && forall s | s in m.scheduled :: s.chunk == 1)
    && q' == Queues(m.mid.waiting, m.idle + Live(ProducedAll(m.scheduled, sample)), m.mid.swapped)
  }

  lemma StepMade(l: Limits, q: Queues, m: Turnout, q': Queues, now: real, now': real, sample: int -> Sampled)
    requires l.blockSize > 0 && m.mid.running == m.idle + Groups(m.scheduled)
    requires m.starts ==>
      AdmitStep(l, q, m.mid, m.taken) && m.idle == q.running && m.scheduled == Started(l, q.waiting[..m.taken])
    requires !m.starts ==>
      && DecodeStep(l, q, m.mid, m.taken, now, now', m.kept, m.victims, m.back)
      && m.idle == [] && forall s | s in m.scheduled :: s.chunk == 1
    requires q' == Queues(m.mid.waiting, m.idle + Live(ProducedAll(m.scheduled, sample)), m.mid.swapped)
    ensures StepIs(l, q, m, q', now, now', sample)
  {
  }

  /** No prompt is looked at while a group is swapped. */
  lemma IgnoredAre(l: Limits, q: Queues, m: Turnout, ignored: seq<SequenceGroup>)
    requires l.blockSize > 0 && (m.starts ==> AdmitStep(l, q, m.mid, m.taken))
    requires !m.starts ==> exists now, now' :: DecodeStep(l, q, m.mid, m.taken, now, now', m.kept, m.victims, m.back)
    requires q.swapped == [] ==> m.taken <= |q.waiting| && ignored == Refused(l, q.waiting[..m.taken])
    requires q.swapped != [] ==> ignored == []
    ensures m.taken <= |q.waiting| && ignored == Refused(l, q.waiting[..m.taken])
  {
    hide Worked, Started;
  }

  lemma StepKeepsOrder(l: Limits, q: Queues, m: Turnout, q': Queues, now: real, now': real, sample: int -> Sampled)
    requires FirstComeFirstServed(q) && StepIs(l, q, m, q', now, now', sample) && ThinStep(m.mid, q')
    ensures FirstComeFirstServed(q')
  {
    hide FirstComeFirstServed, AdmitStep, DecodeStep, ThinStep, Live, ProducedAll;
    if m.starts {
      AdmitKeepsOrder(l, q, m.mid, m.taken);
    } else {
      DecodeKeepsOrder(l, q, m.mid, m.taken, now, now', m.kept, m.victims, m.back);
    }
    ThinKeepsFirstCome(m.mid, q');
  }

  /** One step after the other. */
  ghost predicate StepsAre(l: Limits, trail: seq<Queues>, ms: seq<Turnout>, clock: nat -> real, sample: (nat, int) -> Sampled) {
    && |trail| == |ms| + 1
    && forall k: nat | k < |ms| :: StepIs(l, trail[k], ms[k], trail[k + 1], clock(2 * k), clock(2 * k + 1), SampledAt(sample, k))
  }

  function SampledAt(sample: (nat, int) -> Sampled, k: nat): int -> Sampled {
    id => sample(k, id)
  }

  lemma NoStep(l: Limits, q: Queues, clock: nat -> real, sample: (nat, int) -> Sampled)
    ensures StepsAre(l, [q], [], clock, sample)
  {
  }

  lemma StepsGrow(l: Limits, trail: seq<Queues>, ms: seq<Turnout>, q: Queues, m: Turnout, clock: nat -> real, sample: (nat, int) -> Sampled)
    requires StepsAre(l, trail, ms, clock, sample)
    requires StepIs(l, trail[|ms|], m, q, clock(2 * |ms|), clock(2 * |ms| + 1), SampledAt(sample, |ms|))
    ensures StepsAre(l, trail + [q], ms + [m], clock, sample)
  {
    hide StepIs;
  }

  class LLMEngine {
    const scheduler: Scheduler

    constructor (scheduler: Scheduler)
      ensures this.scheduler == scheduler
    {
      this.scheduler := scheduler;
    }

    /** The sequences that end with this token give up their tables. */
    method FreeFinished(before: seq<Sequence>, after: seq<Sequence>)
      requires scheduler.ManagerOk() && |before| == |after|
      requires forall i | 0 <= i < |before| && before[i].IsFinished() :: after[i].id !in scheduler.blockManager.blockTables
      modifies scheduler.blockManager`blockTables, scheduler.blockManager`ledger
      modifies scheduler.blockManager.gpu, scheduler.blockManager.gpu.blocks
      modifies scheduler.blockManager.cpu, scheduler.blockManager.cpu.blocks
      ensures scheduler.ManagerOk() && scheduler.Since(old(scheduler.blockManager.ledger))
      ensures FreedOnly(after, old(scheduler.blockManager.blockTables), scheduler.blockManager.blockTables)
    {
      hide Scheduler.ManagerOk, Scheduler.Since, Recounted, Covered;
      ghost var tables, start := scheduler.blockManager.blockTables, scheduler.blockManager.ledger;
      scheduler.SinceNow();
      for i := 0 to |after|
        invariant scheduler.ManagerOk() && scheduler.blockManager.blockTables.Keys <= tables.Keys && scheduler.Since(start)
        invariant forall k | 0 <= k < i && after[k].IsFinished() :: after[k].id !in scheduler.blockManager.blockTables
        invariant forall id | forall s | s in after && s.IsFinished() :: s.id != id ::
          && (id in tables <==> id in scheduler.blockManager.blockTables)
          && (id in tables ==> scheduler.blockManager.blockTables[id] == tables[id])
      {
        if !before[i].IsFinished() && after[i].IsFinished() {
          assert after[i] in after;
          ghost var l := scheduler.blockManager.ledger;
          scheduler.SinceIs(start);
          scheduler.FreeMember(after[i]);
          scheduler.SinceTwice(start, l);
        }
      }
    }

    /** One group of `_process_model_outputs` (478-489).  The counters never overflow (148-149 of sequence.py), and
        after a whole prompt or one token every member decodes, so the outputs are always processed. */
    method ProcessGroup(s: ScheduledGroup, sample: int -> Sampled, ghost entries: multiset<Entry>)
      returns (r: Result<SequenceGroup>)
      requires scheduler.ManagerOk() && scheduler.InOrder(entries) && Entry(s.group, InStep(s.chunk)) in entries
      modifies scheduler.blockManager`blockTables, scheduler.blockManager`ledger
      modifies scheduler.blockManager.gpu, scheduler.blockManager.gpu.blocks
      modifies scheduler.blockManager.cpu, scheduler.blockManager.cpu.blocks
      ensures r == Ok(Produced(s.group, s.chunk, sample)) && scheduler.ManagerOk()
      ensures scheduler.Since(old(scheduler.blockManager.ledger))
      ensures TablesKept(scheduler.blockManager.blockTables, old(scheduler.blockManager.blockTables))
      ensures TookAll(s.group, r.value, s.chunk, sample)
      ensures var e := Entry(s.group, InStep(s.chunk));
        if r.value.IsFinished() then
          && scheduler.InOrder(entries - multiset{e})
          && Requests(entries - multiset{e}) == Requests(entries) - {s.group.requestId}
        else
          && scheduler.InOrder(entries - multiset{e} + multiset{Entry(r.value, InRunning)})
          && Requests(entries - multiset{e} + multiset{Entry(r.value, InRunning)}) == Requests(entries)
    {
      hide Scheduler.ManagerOk, EntriesOk, Requests, ScheduledOk, FreedOnly, NoOverflow, AllDecode, Emitted, Advanced, Scheduler.Since;
      hide TookAll;
      ghost var tables := scheduler.blockManager.blockTables;
      scheduler.SizeOk();
      AboutToProduce(entries, s);
      if !NoOverflow(s.group.seqs, s.chunk) {
        return Err(AssertionError);
      }
      var advanced := AdvanceAll(s.group.seqs, s.chunk);
      var seqs := advanced;
      if AllDecode(advanced) {
        seqs := EmitAll(advanced, sample);
        FreeFinished(advanced, seqs);
      }
      r := Ok(s.group.(seqs := seqs));
      assert r.value == Produced(s.group, s.chunk, sample);
      TokensTaken(s.group, s.chunk, sample);
      ghost var bm := scheduler.blockManager;
      FreedKept(if AllDecode(advanced) then seqs else [], tables, bm.blockTables);
      AfterProduce(entries, s, sample, tables, bm.blockTables, bm.gpu.blocks, bm.cpu.blocks, bm.blockSize, scheduler.owner);
    }

    lemma AboutToProduce(entries: multiset<Entry>, s: ScheduledGroup)
      requires scheduler.ManagerOk() && scheduler.InOrder(entries) && Entry(s.group, InStep(s.chunk)) in entries
      ensures NoOverflow(s.group.seqs, s.chunk) && AllDecode(AdvanceAll(s.group.seqs, s.chunk))
      ensures var a := AdvanceAll(s.group.seqs, s.chunk);
        forall i, sample: int -> Sampled | 0 <= i < |a| && a[i].IsFinished() ::
          EmitAll(a, sample)[i].id !in scheduler.blockManager.blockTables
    {
      hide Scheduler.ManagerOk;
      var bm := scheduler.blockManager;
      var e := Entry(s.group, InStep(s.chunk));
      assert EntryOk(e, bm.blockTables, bm.gpu.blocks, bm.cpu.blocks, bm.blockSize, scheduler.owner);
      ChunksComplete(s.group, s.chunk, bm.blockTables, bm.gpu.blocks, bm.blockSize);
      FinishedUntabled(e, bm.blockTables, bm.gpu.blocks, bm.cpu.blocks, bm.blockSize, scheduler.owner);
    }

    /** The loop of `_process_model_outputs` (477-489): the groups that just ran are the last of the running queue. */
    method ProcessAll(scheduled: seq<ScheduledGroup>, sample: int -> Sampled, ghost idle: seq<SequenceGroup>)
      requires scheduler.ManagerOk() && scheduler.running == idle + Groups(scheduled)
      requires scheduler.InOrder(Executing(scheduler.waiting, idle, scheduled, scheduler.swapped))
      modifies scheduler`running, scheduler.blockManager`blockTables, scheduler.blockManager`ledger
      modifies scheduler.blockManager.gpu, scheduler.blockManager.gpu.blocks
      modifies scheduler.blockManager.cpu, scheduler.blockManager.cpu.blocks
      ensures scheduler.ManagerOk() && scheduler.running == idle + ProducedAll(scheduled, sample)
      ensures scheduler.Since(old(scheduler.blockManager.ledger))
      ensures TablesKept(scheduler.blockManager.blockTables, old(scheduler.blockManager.blockTables))
      ensures scheduler.InOrder(Executing(scheduler.waiting, idle + Live(ProducedAll(scheduled, sample)), [], scheduler.swapped))
    {
      hide Scheduler.ManagerOk, Scheduler.InOrder, Executing, Groups, Produced, Live, ProducedAll, Scheduler.Since, Recounted, Covered;
      ghost var done: seq<SequenceGroup>, start := [], scheduler.blockManager.ledger;
      scheduler.SinceNow();
      NoneProduced(scheduler.waiting, idle, scheduled, scheduler.swapped);
      for i := 0 to |scheduled|
        invariant scheduler.ManagerOk() && scheduler.Since(start)
        invariant TablesKept(scheduler.blockManager.blockTables, old(scheduler.blockManager.blockTables))
        invariant scheduler.InOrder(Executing(scheduler.waiting, idle + Live(done), scheduled[i..], scheduler.swapped))
        invariant done == ProducedAll(scheduled, sample)[..i]
        invariant scheduler.running == idle + done + Groups(scheduled)[i..]
      {
        assert scheduled[i..] == [scheduled[i]] + scheduled[i + 1..];
        ghost var l := scheduler.blockManager.ledger;
        scheduler.SinceIs(start);
        var processed := ProcessNext(scheduled[i], sample, scheduled[i + 1..], idle, done);
        scheduler.SinceTwice(start, l);
        ReplaceNext(idle, done, Groups(scheduled), processed.value);
        scheduler.running := scheduler.running[|scheduler.running| - (|scheduled| - i) := processed.value];
        done := done + [processed.value];
      }
      assert scheduled[|scheduled|..] == [] && Groups(scheduled)[|scheduled|..] == [];
      assert done == ProducedAll(scheduled, sample);
    }

    /** `_process_model_outputs` (461-504).  Nothing in it fails, and the queues are in order for the next step. */
    method ProcessModelOutputs(scheduled: seq<ScheduledGroup>, sample: int -> Sampled, ghost idle: seq<SequenceGroup>)
      requires scheduler.Launched(idle, scheduled)
      modifies scheduler`running, scheduler.blockManager`blockTables, scheduler.blockManager`ledger
      modifies scheduler.blockManager.gpu, scheduler.blockManager.gpu.blocks
      modifies scheduler.blockManager.cpu, scheduler.blockManager.cpu.blocks
      ensures scheduler.Valid()
      ensures scheduler.running == idle + Live(ProducedAll(scheduled, sample))
      ensures ThinStep(old(scheduler.State()), scheduler.State())
      ensures Exact(old(scheduler.blockManager.ledger)) ==> Exact(scheduler.blockManager.ledger)
      ensures TablesKept(scheduler.blockManager.blockTables, old(scheduler.blockManager.blockTables))
    {
      hide Scheduler.ManagerOk, Scheduler.InOrder, SumMax, Executing, Groups, Live, ProducedAll, Thinned, Scheduler.Since, Exact;
      ghost var done := ProducedAll(scheduled, sample);
      IdleLive(idle, scheduled);
      ProcessAll(scheduled, sample, idle);
      scheduler.SinceExact(old(scheduler.blockManager.ledger));
      AllProduced(idle, scheduled, sample);
      scheduler.running := Live(scheduler.running);
      Rostered(scheduler.waiting, idle + Live(done), scheduler.swapped);
      AllLive();
      ThinnedSame(scheduler.waiting);
      ThinnedSame(scheduler.swapped);
    }

    /** The next group, among those that are processed and those that are not. */
    method ProcessNext(s: ScheduledGroup, sample: int -> Sampled, ghost rest: seq<ScheduledGroup>,
                       ghost idle: seq<SequenceGroup>, ghost done: seq<SequenceGroup>) returns (r: Result<SequenceGroup>)
      requires scheduler.ManagerOk()
      requires scheduler.InOrder(Executing(scheduler.waiting, idle + Live(done), [s] + rest, scheduler.swapped))
      modifies scheduler.blockManager`blockTables, scheduler.blockManager`ledger
      modifies scheduler.blockManager.gpu, scheduler.blockManager.gpu.blocks
      modifies scheduler.blockManager.cpu, scheduler.blockManager.cpu.blocks
      ensures r == Ok(Produced(s.group, s.chunk, sample)) && scheduler.ManagerOk()
      ensures scheduler.Since(old(scheduler.blockManager.ledger))
      ensures TablesKept(scheduler.blockManager.blockTables, old(scheduler.blockManager.blockTables))
      ensures scheduler.InOrder(Executing(scheduler.waiting, idle + Live(done + [r.value]), rest, scheduler.swapped))
    {
      hide Scheduler.ManagerOk, EntriesOk, Executing, Produced, Live, Requests, Scheduler.Since;
      ghost var entries := Executing(scheduler.waiting, idle + Live(done), [s] + rest, scheduler.swapped);
      NextProduced(scheduler.waiting, idle, done, [s] + rest, scheduler.swapped, Produced(s.group, s.chunk, sample));
      assert ([s] + rest)[1..] == rest;
      r := ProcessGroup(s, sample, entries);
    }

    lemma IdleLive(idle: seq<SequenceGroup>, scheduled: seq<ScheduledGroup>)
      requires scheduler.Launched(idle, scheduled)
      ensures forall g | g in idle :: !g.IsFinished()
    {
      hide Scheduler.ManagerOk;
      var bm := scheduler.blockManager;
      KnownLive(Executing(scheduler.waiting, idle, scheduled, scheduler.swapped), idle, InRunning, bm.blockTables, bm.gpu.blocks,
                bm.cpu.blocks, bm.blockSize, scheduler.owner);
    }

    lemma AllLive()
      requires scheduler.InOrder(Roster(scheduler.waiting, scheduler.running, scheduler.swapped))
      ensures forall g | g in scheduler.waiting + scheduler.running :: !g.IsFinished()
    {
      var bm, all := scheduler.blockManager, Roster(scheduler.waiting, scheduler.running, scheduler.swapped);
      KnownLive(all, scheduler.waiting, InWaiting, bm.blockTables, bm.gpu.blocks, bm.cpu.blocks, bm.blockSize, scheduler.owner);
      KnownLive(all, scheduler.running, InRunning, bm.blockTables, bm.gpu.blocks, bm.cpu.blocks, bm.blockSize, scheduler.owner);
    }

    /** The cache as the worker sees it: `memory` is what its blocks hold, `kv` what has been computed for each sequence. */
    ghost function Cached<K>(memory: Memory<K>, kv: map<int, seq<K>>): System<K>
      reads scheduler.blockManager`ledger
    {
      var bm := scheduler.blockManager;
      KvRefinement.System(bm.gpu.blocks, bm.cpu.blocks, bm.blockSize, bm.ledger, memory, kv)
    }

    /** Through its table every sequence sees just what has been computed for it. */
    ghost predicate Serves<K>(memory: Memory<K>, kv: map<int, seq<K>>)
      reads scheduler, scheduler.blockManager`ledger
    {
      Backed(Cached(memory, kv), Roster(scheduler.waiting, scheduler.running, scheduler.swapped))
    }

    /** So it is before the first request, whatever the blocks hold. */
    lemma EmptyServes<K>(memory: Memory<K>)
      requires scheduler.Valid() && scheduler.blockManager.blockTables == map[]
      requires var bm := scheduler.blockManager; KvRefinement.Shaped(memory, bm.gpu.blocks + bm.cpu.blocks, bm.blockSize)
      ensures Serves(memory, map[])
    {
      hide Scheduler.Valid, Roster, Sound;
      scheduler.ValidReady();
      scheduler.ValidSize();
    }

    /** What it means for a sequence that runs: all tokens but the newest are computed, and their entries are in the slots where
        the kernels read them. */
    lemma SeesComputed<K>(g: SequenceGroup, s: Sequence, memory: Memory<K>, kv: map<int, seq<K>>)
      requires scheduler.Valid() && Serves(memory, kv) && g in scheduler.running && s in g.seqs && !s.IsFinished()
      ensures s.id in kv && |kv[s.id]| == s.numComputed == |s.tokens| - 1
      ensures scheduler.blockManager.blockSize > 0 && s.id in scheduler.blockManager.blockTables
      ensures KvRefinement.Shows(memory, scheduler.blockManager.blockTables[s.id], scheduler.blockManager.blockSize, kv[s.id])
    {
      hide Scheduler.Valid, Roster, Sound, Unique, Tabled, KvRefinement.Shows;
      scheduler.ValidReady();
      RosterHas(scheduler.waiting, scheduler.running, scheduler.swapped, Entry(g, InRunning));
      var bm := scheduler.blockManager;
      assert EntryOk(Entry(g, InRunning), bm.blockTables, bm.gpu.blocks, bm.cpu.blocks, bm.blockSize, scheduler.owner);
    }

    /** The worker has done what `schedule` told it, and the model has run. */
    lemma ModelRuns<K>(s: System<K>, q: Queues, out: SchedulerOutputs, idle: seq<SequenceGroup>, taken: nat, kept: seq<SequenceGroup>,
                       victims: seq<SequenceGroup>, back: nat, now: real, now': real, entry: (int, nat) -> K)
      returns (s': System<K>)
      requires scheduler.Launched(idle, out.scheduled) && Backed(s, Roster(q.waiting, q.running, q.swapped))
      requires SameDevices(s, Cached(s.memory, s.kv)) && WellFormed(s.ledger.tables, s.gpu, s.cpu)
      requires EntriesOk(Roster(q.waiting, q.running, q.swapped), s.ledger.tables, s.gpu, s.cpu, s.blockSize, scheduler.owner)
      requires scheduler.CurrentLimits().blockSize > 0 && (out.blocksToSwapIn == map[] || out.blocksToSwapOut == map[])
      requires out.numPrefillGroups > 0 ==>
        && AdmitStep(scheduler.CurrentLimits(), q, scheduler.State(), taken)
        && idle == q.running && out.scheduled == Started(scheduler.CurrentLimits(), q.waiting[..taken])
        && TablesKept(s.ledger.tables, scheduler.blockManager.ledger.tables)
      requires out.numPrefillGroups == 0 ==>
        && DecodeStep(scheduler.CurrentLimits(), q, scheduler.State(), taken, now, now', kept, victims, back)
        && idle == [] && (forall g | g in out.scheduled :: g.chunk == 1)
        && scheduler.StepTold(s.ledger, now', q.swapped, kept, victims, back, out)
      ensures Backed(s', Executing(scheduler.waiting, idle, out.scheduled, scheduler.swapped)) && Gained(s.kv, s'.kv, entry)
      ensures s'.ledger == scheduler.blockManager.ledger && SameDevices(s, s')
      ensures s'.ledger.tables == scheduler.blockManager.blockTables
    {
      hide Scheduler.Launched, EntriesOk, Backed, Roster, Executing, AdmitStep, DecodeStep, Scheduler.StepTold, Started, Groups, Gained;
      hide Scheduler.CurrentLimits, Sound, WellFormed, TablesKept, WorkedOff, StepDone, CameBack;
      hide AfterAdmitting, AfterDecoding;
      var bm, l, q' := scheduler.blockManager, scheduler.blockManager.ledger, scheduler.State();
      scheduler.LaunchedReady(idle, out.scheduled);
      if out.numPrefillGroups > 0 {
        AdmittingServes(s, scheduler.CurrentLimits(), q, q', out.scheduled, taken, l, scheduler.owner, entry);
        s' := AfterAdmitting(s, l, Executing(q'.waiting, q.running, out.scheduled, q'.swapped), entry);
      } else {
        assert scheduler.running == Groups(out.scheduled);
        scheduler.ToldBack(s.ledger, q, scheduler.CurrentLimits(), taken, now, now', kept, victims, back, out);
        DecodingServes(s, q, q', out.scheduled, taken, now, now', kept, victims, back, l, out.blocksToSwapIn, out.blocksToSwapOut,
                       out.blocksToCopy, scheduler.owner, entry);
        s' := AfterDecoding(s, l, q, now', kept, victims, back, out.blocksToSwapIn, out.blocksToSwapOut, out.blocksToCopy, entry);
      }
    }

    /** The finished sequences are forgotten. */
    lemma OutputsServe<K>(s: System<K>, waiting: seq<SequenceGroup>, idle: seq<SequenceGroup>, scheduled: seq<ScheduledGroup>,
                          swapped: seq<SequenceGroup>, sample: int -> Sampled)
      requires Backed(s, Executing(waiting, idle, scheduled, swapped)) && scheduler.Valid()
      requires SameDevices(s, Cached(s.memory, s.kv)) && TablesKept(scheduler.blockManager.blockTables, s.ledger.tables)
      requires scheduler.waiting == waiting && scheduler.swapped == swapped
      requires scheduler.running == idle + Live(ProducedAll(scheduled, sample))
      ensures var kv := AfterFrees(s, scheduler.blockManager.ledger).kv;
        Serves(s.memory, kv) && forall id | id in kv :: id in s.kv && kv[id] == s.kv[id]
    {
      hide Scheduler.Valid, Backed, Executing, Roster, Live, ProducedAll, EntriesOk, Sound, WellFormed, TablesKept;
      hide CarriesOn;
      scheduler.ValidReady();
      var after := Roster(scheduler.waiting, scheduler.running, scheduler.swapped);
      forall e, m | e in after && m in e.group.seqs && !m.IsFinished()
        ensures CarriesOn(Executing(waiting, idle, scheduled, swapped), e, m)
      {
        OutputsFollow(waiting, idle, scheduled, swapped, sample, e, m);
      }
      FreedBacked(s, Executing(waiting, idle, scheduled, swapped), after, scheduler.blockManager.ledger);
    }

    /** The end of `add_request` (428): a new request has nothing in the cache. */
    method AddRequest<K>(g: SequenceGroup, ghost memory: Memory<K>, ghost kv: map<int, seq<K>>)
      requires scheduler.Valid() && WaitingOk<PhysicalTokenBlock>(g, map[]) && forall s | s in g.seqs :: s.id !in scheduler.owner
      requires g.requestId !in Requests(Roster(scheduler.waiting, scheduler.running, scheduler.swapped))
      modifies scheduler`waiting, scheduler`owner
      ensures scheduler.Valid() && scheduler.waiting == old(scheduler.waiting) + [g]
      ensures old(Serves(memory, kv)) ==> Serves(memory, kv)
    {
      hide Scheduler.Valid, Backed, Roster, WaitingOk, Requests;
      ghost var before, s := Roster(scheduler.waiting, scheduler.running, scheduler.swapped), Cached(memory, kv);
      NothingCached(g, memory, kv);
      scheduler.AddSeqGroup(g);
      if old(Serves(memory, kv)) {
        RosterGrows(old(scheduler.waiting), scheduler.running, scheduler.swapped, g);
        JoinBacked(s, before, g);
      }
    }

    lemma NothingCached<K>(g: SequenceGroup, memory: Memory<K>, kv: map<int, seq<K>>)
      requires scheduler.Valid() && WaitingOk<PhysicalTokenBlock>(g, map[]) && forall s | s in g.seqs :: s.id !in scheduler.owner
      ensures Serves(memory, kv) ==> forall s | s in g.seqs :: s.id !in kv
    {
      hide Scheduler.Valid, WaitingOk, Sound, Computed, Roster, KvRefinement.Shows;
      scheduler.NewOnesUntabled(g);
      scheduler.ValidReady();
    }

    /** `abort_request` (430-447): the other sequences see what they saw. */
    method AbortRequest<K>(requestIds: set<int>, ghost memory: Memory<K>, ghost kv: map<int, seq<K>>) returns (ghost kv': map<int, seq<K>>)
      requires scheduler.Valid()
      modifies scheduler`waiting, scheduler`running, scheduler`swapped
      modifies scheduler.blockManager`blockTables, scheduler.blockManager`ledger
      modifies scheduler.blockManager.gpu, scheduler.blockManager.gpu.blocks
      modifies scheduler.blockManager.cpu, scheduler.blockManager.cpu.blocks
      ensures scheduler.Valid() && kv' == (map id | id in scheduler.blockManager.blockTables && id in kv :: kv[id])
      ensures scheduler.State() == Queues(Without(old(scheduler.waiting), requestIds), Without(old(scheduler.running), requestIds),
                                          Without(old(scheduler.swapped), requestIds))
      ensures old(Serves(memory, kv)) ==> Serves(memory, kv')
    {
      hide Scheduler.Valid, Backed, Roster, Without, Sound, TablesKept, CarriesOn;
      ghost var q, s := scheduler.State(), Cached(memory, kv);
      scheduler.ValidReady();
      scheduler.AbortSeqGroup(requestIds);
      scheduler.ValidReady();
      ghost var l := scheduler.blockManager.ledger;
      kv' := AfterFrees(s, l).kv;
      if old(Serves(memory, kv)) {
        ghost var after := Roster(scheduler.waiting, scheduler.running, scheduler.swapped);
        forall e, m | e in after && m in e.group.seqs && !m.IsFinished() ensures CarriesOn(Roster(q.waiting, q.running, q.swapped), e, m) {
          RemainCarriesOn(q, requestIds, e, m);
        }
        FreedBacked(s, Roster(q.waiting, q.running, q.swapped), after, l);
      }
    }

    /** A fork: the child sees what its parent sees. */
    method Fork<K>(k: nat, parent: Sequence, childId: int, token: int, ghost memory: Memory<K>, ghost kv: map<int, seq<K>>)
      requires scheduler.Valid() && k < |scheduler.running| && parent in scheduler.running[k].seqs && !parent.IsFinished()
      requires CanFork(scheduler.running[k]) && childId !in scheduler.owner
      modifies scheduler`running, scheduler`owner, scheduler.blockManager`blockTables, scheduler.blockManager`ledger
      modifies scheduler.blockManager.gpu.blocks, scheduler.blockManager.cpu.blocks
      ensures scheduler.Valid() && parent.tokens != []
      ensures scheduler.running == old(scheduler.running)[k := Forked(old(scheduler.running)[k], Child(parent, childId, token))]
      ensures old(Serves(memory, kv)) ==> parent.id in kv && Serves(memory, kv[childId := kv[parent.id]])
    {
      hide Scheduler.Valid, Backed, Roster, CanFork, Sound, Forked, Child;
      ghost var entries, s := Roster(scheduler.waiting, scheduler.running, scheduler.swapped), Cached(memory, kv);
      scheduler.ValidReady();
      scheduler.AboutToFork(k, parent, childId);
      AboutToShare(k, parent, childId, memory, kv);
      scheduler.ForkSeq(k, parent, childId, token);
      if old(Serves(memory, kv)) {
        RosterReplaced(scheduler.waiting, old(scheduler.running), scheduler.swapped, k,
                       Forked(old(scheduler.running)[k], Child(parent, childId, token)));
        ForkBacked(s, entries, old(scheduler.running)[k], parent, childId, token);
      }
    }

    lemma AboutToShare<K>(k: nat, parent: Sequence, childId: int, memory: Memory<K>, kv: map<int, seq<K>>)
      requires scheduler.Valid() && k < |scheduler.running| && parent in scheduler.running[k].seqs && !parent.IsFinished()
      requires childId !in scheduler.owner
      ensures Serves(memory, kv) ==> parent.id in kv && childId !in kv
      ensures forall e, m | e in Roster(scheduler.waiting, scheduler.running, scheduler.swapped) && m in e.group.seqs :: m.id != childId
    {
      hide Scheduler.Valid, Sound, Computed, Roster, KvRefinement.Shows;
      scheduler.ValidReady();
      scheduler.AboutToFork(k, parent, childId);
    }

    /** `step` (506-578).  Whether it starts prompts, and whether and how it fails, the state before says.  A request for a single
        sample never makes it fail, and stays in its turn. */
    method Step<K>(passedDelay: nat -> bool, now: real, now': real, sample: int -> Sampled,
                   ghost entry: (int, nat) -> K, ghost memory: Memory<K>, ghost kv: map<int, seq<K>>)
      returns (r: Result<seq<SequenceGroup>>, ghost memory': Memory<K>, ghost kv': map<int, seq<K>>, ghost m: Turnout)
      requires scheduler.Valid()
      modifies scheduler`waiting, scheduler`running, scheduler`swapped
      modifies scheduler.blockManager`blockTables, scheduler.blockManager`ledger
      modifies scheduler.blockManager.gpu, scheduler.blockManager.gpu.blocks
      modifies scheduler.blockManager.cpu, scheduler.blockManager.cpu.blocks
      ensures r.Ok? ==> scheduler.Valid()
      ensures r.Err? ==> r.error == NoSwapSpace || r.error == AssertionError
      ensures r.Err? && r.error == NoSwapSpace <==> old(!scheduler.WillStart(passedDelay) && scheduler.WillLackSpace(now))
      ensures r.Err? && r.error == AssertionError <==> old(scheduler.WillStumble(now, now'))
      ensures r.Ok? && !m.starts ==> m.kept == Stayed(old(scheduler.Ahead(scheduler.running, now)))
      ensures r.Ok? ==>
        && StepIs(scheduler.CurrentLimits(), old(scheduler.State()), m, scheduler.State(), now, now', sample)
        && (m.starts <==> old(scheduler.WillStart(passedDelay))) && m.taken <= |old(scheduler.waiting)|
        && r.value == ProducedAll(m.scheduled, sample) + Refused(scheduler.CurrentLimits(), old(scheduler.waiting)[..m.taken])
      ensures old(FirstComeFirstServed(scheduler.State())) ==> r.Ok? && FirstComeFirstServed(scheduler.State())
      ensures old(FirstComeFirstServed(scheduler.State()) && Exact(scheduler.blockManager.ledger)) ==> Exact(scheduler.blockManager.ledger)
      ensures r.Ok? && old(Serves(memory, kv)) ==> Serves(memory', kv') && Gained(kv, kv', entry)
    {
      hide Scheduler.WillStart, Scheduler.WillLackSpace, StepIs, Groups, Scheduler.Judged, Scheduler.NextStays;
      hide SumTokens, SumLive, RequestIds;
      hide Stayed, Gone, Scheduler.Ahead, Scheduler.SpaceLeft, Computed, CarriesOn;
      hide Scheduler.Valid, Scheduler.Launched, FirstComeFirstServed, AdmitStep, DecodeStep, ThinStep, Executing, Roster, Requests;
      hide SequenceGroup.MaxNumRunningSeqs, Unfinished, Scheduler.CurrentLimits, Scheduler.WillStumble, Exact, OneEach;
      hide Backed, EntriesOk, WellFormed, TablesKept, Started, Scheduler.StepTold, LLMEngine.Serves, Gained, AfterFrees, Live, ProducedAll;
      ghost var q, idle, taken, kept, victims, back := scheduler.State(), [], 0, [], [], 0;
      ghost var s, served := Cached(memory, kv), Serves(memory, kv);
      memory', kv', m := memory, kv, Turnout(q, [], [], false, 0, [], [], 0);
      AboutToServe(memory, kv);
      ghost var space := scheduler.SpaceLeft(0);
      var outs;
      outs, idle, taken, kept, victims, back := scheduler.Schedule(passedDelay, now, now');
      if FirstComeFirstServed(q) {
        SinglesNeverSwap(q);
        SinglesAlone(q);
      }
      if outs.Err? {
        r := Err(outs.error);
        return;
      }
      ghost var mid := scheduler.State();
      m := Turnout(mid, idle, outs.value.scheduled, outs.value.numPrefillGroups > 0, taken, kept, victims, back);
      scheduler.LaunchedReady(idle, outs.value.scheduled);
      if q.swapped == [] {
        scheduler.JudgedRefused(q.waiting, passedDelay, taken, outs.value, space);
      }
      if served {
        s := ModelRuns(s, q, outs.value, idle, taken, kept, victims, back, now, now', entry);
      }
      ProcessModelOutputs(outs.value.scheduled, sample, idle);
      r := Ok(ProducedAll(outs.value.scheduled, sample) + outs.value.ignored);
      StepMade(scheduler.CurrentLimits(), q, m, scheduler.State(), now, now', sample);
      IgnoredAre(scheduler.CurrentLimits(), q, m, outs.value.ignored);
      if served {
        OutputsServe(s, mid.waiting, idle, outs.value.scheduled, mid.swapped, sample);
        memory', kv' := s.memory, AfterFrees(s, scheduler.blockManager.ledger).kv;
        GainedStill(kv, s.kv, kv', entry);
      }
      if FirstComeFirstServed(q) {
        StepKeepsOrder(scheduler.CurrentLimits(), q, m, scheduler.State(), now, now', sample);
      }
    }

    lemma AboutToServe<K>(memory: Memory<K>, kv: map<int, seq<K>>)
      requires scheduler.Valid()
      ensures var s, q := Cached(memory, kv), scheduler.State();
        && SameDevices(s, s) && WellFormed(s.ledger.tables, s.gpu, s.cpu)
        && EntriesOk(Roster(q.waiting, q.running, q.swapped), s.ledger.tables, s.gpu, s.cpu, s.blockSize, scheduler.owner)
        && (Serves(memory, kv) <==> Backed(s, Roster(q.waiting, q.running, q.swapped)))
    {
      hide Scheduler.Valid, Backed, EntriesOk, WellFormed, Roster, Sound;
      scheduler.ValidReady();
    }

    /** Any number of steps.  When `entry(id, j)` is what the model computes for the token at `j` of the sequence `id`, every
        sequence sees these entries through its table, one for each token computed. */
    method RunSteps<K>(n: nat, passedDelay: (nat, nat) -> bool, clock: nat -> real, sample: (nat, int) -> Sampled,
                       ghost entry: (int, nat) -> K, ghost memory: Memory<K>, ghost kv: map<int, seq<K>>)
      returns (r: Result<()>, ghost memory': Memory<K>, ghost kv': map<int, seq<K>>, ghost trail: seq<Queues>, ghost ms: seq<Turnout>)
      requires scheduler.Valid()
      modifies scheduler`waiting, scheduler`running, scheduler`swapped
      modifies scheduler.blockManager`blockTables, scheduler.blockManager`ledger
      modifies scheduler.blockManager.gpu, scheduler.blockManager.gpu.blocks
      modifies scheduler.blockManager.cpu, scheduler.blockManager.cpu.blocks
      ensures r.Ok? ==> scheduler.Valid()
      ensures r.Err? ==> r.error == NoSwapSpace || r.error == AssertionError
      ensures StepsAre(scheduler.CurrentLimits(), trail, ms, clock, sample) && trail[0] == old(scheduler.State())
      ensures r.Ok? ==> |ms| == n && trail[n] == scheduler.State()
      ensures old(FirstComeFirstServed(scheduler.State())) ==> r.Ok? && FirstComeFirstServed(scheduler.State())
      ensures old(FirstComeFirstServed(scheduler.State()) && Exact(scheduler.blockManager.ledger)) ==> Exact(scheduler.blockManager.ledger)
      ensures r.Ok? && old(Serves(memory, kv)) && AllBy(kv, entry) ==> Serves(memory', kv') && AllBy(kv', entry)
    {
      hide Scheduler.Valid, FirstComeFirstServed, Exact, LLMEngine.Serves, AllBy, Gained, StepIs, StepsAre;
      hide Scheduler.WillStart, Scheduler.WillLackSpace, Scheduler.WillStumble, Scheduler.CurrentLimits;
      memory', kv', trail, ms := memory, kv, [scheduler.State()], [];
      NoStep(scheduler.CurrentLimits(), scheduler.State(), clock, sample);
      for k := 0 to n
        invariant scheduler.Valid() && |ms| == k && |trail| == k + 1
        invariant StepsAre(scheduler.CurrentLimits(), trail, ms, clock, sample)
        invariant trail[0] == old(scheduler.State()) && trail[k] == scheduler.State()
        invariant old(Serves(memory, kv)) && AllBy(kv, entry) ==> Serves(memory', kv') && AllBy(kv', entry)
        invariant old(FirstComeFirstServed(scheduler.State())) ==> FirstComeFirstServed(scheduler.State())
        invariant old(FirstComeFirstServed(scheduler.State()) && Exact(scheduler.blockManager.ledger)) ==>
          Exact(scheduler.blockManager.ledger)
      {
        var turn: nat := k;
        var step;
        ghost var memory'', kv'', m;
        step, memory'', kv'', m := Step((i: nat) => passedDelay(turn, i), clock(2 * turn), clock(2 * turn + 1), SampledAt(sample, turn),
                                        entry, memory', kv');
        if step.Err? {
          r := Err(step.error);
          return;
        }
        StepsGrow(scheduler.CurrentLimits(), trail, ms, scheduler.State(), m, clock, sample);
        trail, ms := trail + [scheduler.State()], ms + [m];
        GainedBy(kv', kv'', entry);
        memory', kv' := memory'', kv'';
      }
      r := Ok(());
    }
  }
}
